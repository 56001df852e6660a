/** The number <-> string conversions the pages use: `parseInt`, integer
    `toString`, `toLocaleString` with thousands grouping, and
    `replace(/[^0-9]/g, '')`. */
module Numbers {
  import opened Seqs
  import opened Text

  /** A JavaScript number as `parseInt` produces it: `NaN` or an integer. */
  datatype Number = NaN | Int(value: int)

  /** The thousands separator of the formatting locale. */
  const Separator: char := ','

  /** A number used as a condition: `NaN` and `0` are falsy. */
  predicate Truthy(x: Number) {
    x.Int? && x.value != 0
  }

  /** `x || d` for a number `x` and an integer default `d`. */
  function OrElse(x: Number, d: int): int {
    if Truthy(x) then x.value else d
  }

  function DigitValue(c: char): nat
    requires IsDigit(c)
  {
    c as int - '0' as int
  }

  function DigitChar(d: nat): char
    requires d < 10
  {
    ('0' as int + d) as char
  }

  /** The integer a string of decimal digits denotes (leading zeros allowed; "" denotes 0). */
  function DigitsValue(ds: string): nat
    requires AllDigits(ds)
  {
    if ds == [] then 0 else 10 * DigitsValue(ds[..|ds| - 1]) + DigitValue(ds[|ds| - 1])
  }

  /** The canonical decimal digits of `n`: non-empty, no leading zero, denoting `n`. */
  function DecimalDigits(n: nat): (r: string)
    ensures |r| > 0 && AllDigits(r)
    ensures r[0] == '0' ==> n == 0
    ensures DigitsValue(r) == n
  {
    if n < 10 then [DigitChar(n)]
    else
      var r := DecimalDigits(n / 10) + [DigitChar(n % 10)];
      assert r[..|r| - 1] == DecimalDigits(n / 10);
      r
  }

  /** `n.toString()` for an integer `n`. */
  function IntToString(n: int): (r: string)
    ensures r != [] && (r[0] == '-' <==> n < 0)
    ensures n < 0 ==> AllDigits(r[1..]) && DigitsValue(r[1..]) == -n
    ensures n >= 0 ==> AllDigits(r) && DigitsValue(r) == n
    ensures CanonicalDigits(if n < 0 then r[1..] else r)
  {
    if n < 0 then "-" + DecimalDigits(-n) else DecimalDigits(n)
  }

  /** The longest prefix of `s` made of decimal digits. */
  function DigitPrefix(s: string): (r: string)
    ensures r <= s && AllDigits(r)
    ensures |r| < |s| ==> !IsDigit(s[|r|])
  {
    if s == [] || !IsDigit(s[0]) then [] else [s[0]] + DigitPrefix(s[1..])
  }

  /** The digits at the start of `s`, or `NaN` when there are none. */
  function ParseDigits(s: string): Number {
    var ds := DigitPrefix(s);
    if ds == [] then NaN else Int(DigitsValue(ds))
  }

  /** `parseInt(s)`: an optional sign, then the longest run of decimal digits;
      `NaN` when no digit follows the sign. */
  function ParseInt(s: string): (r: Number)
    ensures s == "" ==> r == NaN
    ensures |s| > 0 && !IsDigit(s[0]) && s[0] != '-' && s[0] != '+' ==> r == NaN
    ensures AllDigits(s) && s != "" ==> r == Int(DigitsValue(s))
    ensures r.Int? && r.value < 0 ==> s[0] == '-'
  {
    assert AllDigits(s) ==> DigitPrefix(s) == s by {
      if AllDigits(s) { DigitPrefixOfDigits(s); }
    }
    if |s| > 0 && (s[0] == '-' || s[0] == '+') then
      var m := ParseDigits(s[1..]);
      if s[0] == '-' && m.Int? then Int(-m.value) else m
    else ParseDigits(s)
  }

  /** A string of digits parses to the integer it denotes, and "" to `NaN`. */
  lemma ParseIntOfDigits(ds: string)
    requires AllDigits(ds)
    ensures ParseInt(ds) == if ds == [] then NaN else Int(DigitsValue(ds))
  {
    assert DigitPrefix(ds) == ds by { DigitPrefixOfDigits(ds); }
  }

  lemma {:induction false} DigitPrefixOfDigits(ds: string)
    requires AllDigits(ds)
    ensures DigitPrefix(ds) == ds
  {
    if ds != [] {
      DigitPrefixOfDigits(ds[1..]);
    }
  }

  /** A digit string as `toString` writes one: non-empty, and no leading zero
      unless it is "0" itself. */
  predicate CanonicalDigits(ds: string) {
    ds != [] && AllDigits(ds) && (ds[0] == '0' ==> ds == "0")
  }

  lemma {:induction false} LeadingDigitPositive(ds: string)
    requires AllDigits(ds) && ds != [] && ds[0] != '0'
    ensures DigitsValue(ds) > 0
  {
    if |ds| > 1 {
      LeadingDigitPositive(ds[..|ds| - 1]);
    }
  }

  /** Formatting the value of a canonical digit string writes that string
      back: parsing then formatting loses nothing. */
  lemma {:induction false} DecimalDigitsOfValue(ds: string)
    requires CanonicalDigits(ds)
    ensures DecimalDigits(DigitsValue(ds)) == ds
  {
    if |ds| > 1 {
      var init := ds[..|ds| - 1];
      LeadingDigitPositive(init);
      DecimalDigitsOfValue(init);
      assert ds == init + [ds[|ds| - 1]];
    }
  }

  /** `parseInt(n.toString())` gives `n` back, for every integer `n`. */
  lemma ParseIntToString(n: int)
    ensures ParseInt(IntToString(n)) == Int(n)
  {
    var m := if n < 0 then -n else n;
    ParseIntOfDigits(DecimalDigits(m));
    if n < 0 {
      assert IntToString(n)[1..] == DecimalDigits(m);
    }
  }

  /** `s.replace(/[^0-9]/g, '')`: the decimal digits of `s`, in order. */
  function StripNonDigits(s: string): (r: string)
    ensures AllDigits(r)
    ensures IsSubsequence(r, s)
    ensures forall c {:trigger multiset(r)[c]} :: multiset(r)[c] == if IsDigit(c) then multiset(s)[c] else 0
  {
    FilterMultiset(s, IsDigit);
    Filter(s, IsDigit)
  }

  /** Inserts `Separator` between groups of three digits, counted from the right. */
  function Grouped(ds: string): (r: string)
    decreases |ds|
  {
    if |ds| <= 3 then ds else Grouped(ds[..|ds| - 3]) + [Separator] + ds[|ds| - 3..]
  }

  /** Grouping keeps the leading digit in front. */
  lemma {:induction false} GroupedStart(ds: string)
    requires ds != []
    ensures Grouped(ds) != [] && Grouped(ds)[0] == ds[0]
    decreases |ds|
  {
    if |ds| > 3 {
      GroupedStart(ds[..|ds| - 3]);
    }
  }

  /** `x.toLocaleString()` for what `parseInt` returns: an optional minus sign
      followed by the grouped digits, or "NaN". */
  function LocaleString(x: Number): (r: string)
    ensures x.NaN? ==> r == "NaN"
    ensures x.Int? ==> r != [] && (r[0] == '-' <==> x.value < 0)
    ensures x.Int? ==> StripNonDigits(r) == DecimalDigits(if x.value < 0 then -x.value else x.value)
  {
    match x
    case NaN => "NaN"
    case Int(n) =>
      var g := Grouped(DecimalDigits(if n < 0 then -n else n));
      GroupedStart(DecimalDigits(if n < 0 then -n else n));
      StripGrouped(DecimalDigits(if n < 0 then -n else n));
      if n < 0 then
        StripAfterNonDigits("-", g);
        "-" + g
      else g
  }

  /** The template `$ ${x.toLocaleString()}` the form stores amounts with. */
  function Currency(x: Number): (r: string)
    ensures |r| > 2 && r[..2] == "$ "
    ensures StripNonDigits(r) == StripNonDigits(LocaleString(x))
  {
    StripAfterNonDigits("$ ", LocaleString(x));
    "$ " + LocaleString(x)
  }

  /** Removing the separators again gives the digits back. */
  lemma {:induction false} StripGrouped(ds: string)
    requires AllDigits(ds)
    ensures StripNonDigits(Grouped(ds)) == ds
    decreases |ds|
  {
    if |ds| <= 3 {
      FilterCongruent(ds, IsDigit, _ => true);
    } else {
      var head, tail := ds[..|ds| - 3], ds[|ds| - 3..];
      assert ds == head + tail;
      StripGrouped(head);
      FilterConcat(Grouped(head) + [Separator], tail, IsDigit);
      FilterConcat(Grouped(head), [Separator], IsDigit);
      assert StripNonDigits(tail) == tail by { FilterCongruent(tail, IsDigit, _ => true); }
    }
  }

  /** Stripping the non-digits of a stored amount gives the canonical digits of
      its magnitude: the sign and the separators are lost, nothing else is. */
  lemma {:induction false} CurrencyDigits(n: int)
    ensures StripNonDigits(Currency(Int(n))) == DecimalDigits(if n < 0 then -n else n)
  {
  }

  lemma {:induction false} StripAfterNonDigits(prefix: string, s: string)
    requires forall i :: 0 <= i < |prefix| ==> !IsDigit(prefix[i])
    ensures StripNonDigits(prefix + s) == StripNonDigits(s)
  {
    NoDigitsIn(prefix);
    FilterConcat(prefix, s, IsDigit);
  }

  lemma {:induction false} NoDigitsIn(s: string)
    requires forall i :: 0 <= i < |s| ==> !IsDigit(s[i])
    ensures StripNonDigits(s) == []
  {
    if s != [] {
      NoDigitsIn(s[1..]);
    }
  }

  /** A stored amount of `NaN` keeps no digit at all. */
  lemma CurrencyNaNDigits()
    ensures StripNonDigits(Currency(NaN)) == []
  {
  }

  /** Parsing the digits of a stored non-negative amount gives the amount back. */
  lemma CurrencyRoundTrip(n: nat)
    ensures ParseInt(StripNonDigits(Currency(Int(n)))) == Int(n)
  {
    CurrencyDigits(n);
    ParseIntOfDigits(DecimalDigits(n));
  }
}
