/** The string primitives the pages rely on: `includes`, `toLowerCase`,
    `toUpperCase` and the `[0-9]` character class. */
module Text {

  /** A character of the regular-expression class `[0-9]`. */
  predicate IsDigit(c: char) {
    '0' <= c <= '9'
  }

  predicate AllDigits(s: string) {
    forall i :: 0 <= i < |s| ==> IsDigit(s[i])
  }

  /** `t` occurs in `s` starting at index `i`. */
  predicate OccursAt(s: string, t: string, i: int) {
    0 <= i && i + |t| <= |s| && s[i..i + |t|] == t
  }

  /** `s.includes(t)`: case-sensitive substring search; every string includes "". */
  function Contains(s: string, t: string): bool
    decreases |s|
  {
    t <= s || (s != [] && Contains(s[1..], t))
  }

  /** The search above finds `t` exactly when `t` occurs somewhere in `s`. */
  lemma {:induction false} ContainsSpec(s: string, t: string)
    ensures Contains(s, t) <==> exists i :: OccursAt(s, t, i)
    decreases |s|
  {
    if s != [] {
      ContainsSpec(s[1..], t);
      if Contains(s[1..], t) {
        var i :| OccursAt(s[1..], t, i);
        assert s[1..][i..i + |t|] == s[i + 1..i + 1 + |t|];
        assert OccursAt(s, t, i + 1);
      }
      if i :| OccursAt(s, t, i) {
        if i > 0 {
          assert s[1..][i - 1..i - 1 + |t|] == s[i..i + |t|];
          assert OccursAt(s[1..], t, i - 1);
        } else {
          assert t <= s;
        }
      }
      if t <= s {
        assert OccursAt(s, t, 0);
      }
    } else if t == [] {
      assert OccursAt(s, t, 0);
    }
  }

  /** A string contains only strings no longer than itself, and of its own
      length only itself. */
  lemma ContainsNoLonger(s: string, t: string)
    ensures Contains(s, t) ==> |t| <= |s| && (|t| == |s| ==> t == s)
  {
    ContainsSpec(s, t);
    if Contains(s, t) {
      var i :| OccursAt(s, t, i);
      if |t| == |s| {
        assert s[i..i + |t|] == s;
      }
    }
  }

  /** Lower-casing of one character, for ASCII and the Latin-1 letters
      (`À`..`Þ` without `×` map 32 code points up). */
  function LowerChar(c: char): char {
    if 'A' <= c <= 'Z' || ('À' <= c <= 'Þ' && c != '×') then (c as int + 32) as char else c
  }

  /** Upper-casing of one character, the inverse of `LowerChar` on letters
      (`à`..`þ` without `÷` map 32 code points down). */
  function UpperChar(c: char): char {
    if 'a' <= c <= 'z' || ('à' <= c <= 'þ' && c != '÷') then (c as int - 32) as char else c
  }

  /** `s.toLowerCase()`, character by character. */
  function Lower(s: string): (r: string)
    ensures |r| == |s|
    ensures forall i :: 0 <= i < |s| ==> r[i] == LowerChar(s[i])
  {
    if s == [] then [] else [LowerChar(s[0])] + Lower(s[1..])
  }

  /** Lower-casing twice is lower-casing once. */
  lemma LowerIdempotent(s: string)
    ensures Lower(Lower(s)) == Lower(s)
  {
    assert forall i :: 0 <= i < |s| ==> LowerChar(LowerChar(s[i])) == LowerChar(s[i]);
  }

  /** Upper-casing a character changes only its case. */
  lemma LowerOfUpperChar(c: char)
    ensures LowerChar(UpperChar(c)) == LowerChar(c)
    ensures UpperChar(UpperChar(c)) == UpperChar(c)
  {
  }
}
