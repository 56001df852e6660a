/** The property listing (src/pages/Properties.tsx): the search filter, the
    portfolio totals, the status badge and the delete action. */
module PropertiesPage {
  import opened Seqs
  import opened Text
  import opened Numbers
  import opened Registry

  /** The search test: the lower-cased name or address includes the
      lower-cased search term. */
  predicate Matches(p: Property, term: string) {
    Contains(Lower(p.fields.name), Lower(term)) || Contains(Lower(p.fields.address), Lower(term))
  }

  function MatchesTerm(term: string): Property -> bool {
    p => Matches(p, term)
  }

  /** `filteredProperties`: the records that match, in registry order; an
      empty search term keeps every record. */
  function FilteredProperties(ps: seq<Property>, term: string): (r: seq<Property>)
    ensures IsSubsequence(r, ps) && |r| <= |ps|
    ensures forall i :: 0 <= i < |r| ==> Matches(r[i], term)
    ensures term == "" ==> r == ps
    ensures forall x {:trigger multiset(r)[x]} :: multiset(r)[x] == if Matches(x, term) then multiset(ps)[x] else 0
  {
    FilterMultiset(ps, MatchesTerm(term));
    Filter(ps, MatchesTerm(term))
  }

  /** A record is listed exactly when it is registered and matches. */
  lemma FilteredMembers(ps: seq<Property>, term: string, x: Property)
    ensures x in FilteredProperties(ps, term) <==> x in ps && Matches(x, term)
  {
    FilterMembership(ps, MatchesTerm(term), x);
  }

  /** The search does not depend on the case of the term. */
  lemma SearchIgnoresCase(ps: seq<Property>, term: string)
    ensures FilteredProperties(ps, Lower(term)) == FilteredProperties(ps, term)
  {
    LowerIdempotent(term);
    FilterCongruent(ps, MatchesTerm(Lower(term)), MatchesTerm(term));
  }

  /** What a record contributes to the revenue total:
      `parseInt(revenue.replace(/[^0-9]/g, '')) || 0`, which is the integer
      written by the digits of `revenue`, and 0 when it has none. */
  function RevenueValue(revenue: string): (v: nat)
    ensures v == DigitsValue(StripNonDigits(revenue))
  {
    ParseIntOfDigits(StripNonDigits(revenue));
    OrElse(ParseInt(StripNonDigits(revenue)), 0)
  }

  /** `totalRevenue`: the sum of every record's revenue value. */
  function TotalRevenue(ps: seq<Property>): nat {
    if ps == [] then 0 else RevenueValue(ps[0].fields.revenue) + TotalRevenue(ps[1..])
  }

  /** Appending a record adds its revenue value to the total. */
  lemma {:induction false} TotalRevenueAppend(ps: seq<Property>, x: Property)
    ensures TotalRevenue(ps + [x]) == TotalRevenue(ps) + RevenueValue(x.fields.revenue)
  {
    if ps == [] {
      assert ps + [x] == [x];
    } else {
      assert (ps + [x])[1..] == ps[1..] + [x];
      TotalRevenueAppend(ps[1..], x);
    }
  }

  /** A revenue stored by the form as `$ ${n.toLocaleString()}` counts as `n`. */
  lemma RevenueOfCurrency(n: nat)
    ensures RevenueValue(Currency(Int(n))) == n
  {
    CurrencyDigits(n);
  }

  function OccupancySum(ps: seq<Property>): int {
    if ps == [] then 0 else ps[0].fields.occupancy + OccupancySum(ps[1..])
  }

  /** `Math.round(a / n)`: the integer `r` with `r - 1/2 <= a / n < r + 1/2`. */
  function RoundHalfUp(a: int, n: int): (r: int)
    requires n > 0
    ensures 2 * (n * r) <= 2 * a + n < 2 * (n * r) + 2 * n
  {
    (2 * a + n) / (2 * n)
  }

  /** `averageOccupancy`: the rounded mean occupancy, 0 for an empty list. */
  function AverageOccupancy(ps: seq<Property>): (r: int)
    ensures |ps| == 0 ==> r == 0
    ensures |ps| > 0 ==> 2 * (|ps| * r) <= 2 * OccupancySum(ps) + |ps| < 2 * (|ps| * r) + 2 * |ps|
  {
    if |ps| > 0 then RoundHalfUp(OccupancySum(ps), |ps|) else 0
  }

  predicate OccupanciesInRange(ps: seq<Property>) {
    forall i :: 0 <= i < |ps| ==> 0 <= ps[i].fields.occupancy <= 100
  }

  lemma {:induction false} OccupancySumBounds(ps: seq<Property>)
    requires OccupanciesInRange(ps)
    ensures 0 <= OccupancySum(ps) <= 100 * |ps|
  {
    if ps != [] {
      OccupancySumBounds(ps[1..]);
    }
  }

  /** A rounded mean of values in [0, 100] lies in [0, 100]. */
  lemma RoundedMeanBounds(a: int, n: int, r: int)
    requires n > 0 && 0 <= a <= 100 * n
    requires 2 * (n * r) <= 2 * a + n < 2 * (n * r) + 2 * n
    ensures 0 <= r <= 100
  {
    assert n * (r + 1) > 0;
    assert n * (r - 101) < 0;
    PositiveFactor(n, r + 1);
    PositiveFactor(n, 101 - r);
  }

  lemma PositiveFactor(n: int, k: int)
    requires n > 0 && n * k > 0
    ensures k > 0
  {
  }

  /** With every occupancy a percentage, so is the average. */
  lemma AverageOccupancyInRange(ps: seq<Property>)
    requires OccupanciesInRange(ps)
    ensures 0 <= AverageOccupancy(ps) <= 100
  {
    if |ps| > 0 {
      OccupancySumBounds(ps);
      RoundedMeanBounds(OccupancySum(ps), |ps|, AverageOccupancy(ps));
    }
  }

  /** The summary cards: the number of records, the average occupancy and the
      revenue total. */
  datatype Summary = Summary(count: nat, averageOccupancy: int, totalRevenue: nat)

  /** The page: the rows of the table and the summary cards. */
  datatype Listing = Listing(rows: seq<Property>, summary: Summary)

  /** The rows follow the search, the summary is over the whole registry. */
  function ListingView(ps: seq<Property>, term: string): (v: Listing)
    ensures v.rows == FilteredProperties(ps, term)
    ensures IsSubsequence(v.rows, ps)
    ensures v.summary.count == |ps| && |v.rows| <= v.summary.count
    ensures v.summary.totalRevenue == TotalRevenue(ps) && v.summary.averageOccupancy == AverageOccupancy(ps)
  {
    Listing(FilteredProperties(ps, term), Summary(|ps|, AverageOccupancy(ps), TotalRevenue(ps)))
  }

  /** The badge colour of each known status. */
  const StatusStyles: map<string, string> := map[
    "loué" := "bg-green-100 text-green-700",
    "disponible" := "bg-blue-100 text-blue-700",
    "maintenance" := "bg-orange-100 text-orange-700"]

  const FallbackStyle: string := "bg-gray-100 text-gray-700"

  /** `styles[status] || 'bg-gray-100 text-gray-700'`: grey exactly for a
      status other than the three known ones. */
  function StatusStyle(status: string): (style: string)
    ensures style == FallbackStyle <==> status !in StatusStyles
    ensures status in StatusStyles ==> style == StatusStyles[status]
  {
    if status in StatusStyles then StatusStyles[status] else FallbackStyle
  }

  /** `status.charAt(0).toUpperCase() + status.slice(1)`: the status with its
      first character upper-cased; it differs from the status only in case. */
  function StatusLabel(status: string): (caption: string)
    ensures |caption| == |status|
    ensures status != "" ==> caption[0] == UpperChar(status[0]) && caption[1..] == status[1..]
    ensures Lower(caption) == Lower(status)
  {
    if status == [] then []
    else
      LowerOfUpperChar(status[0]);
      [UpperChar(status[0])] + status[1..]
  }

  /** The labels of the three known statuses. */
  lemma KnownStatusLabels()
    ensures StatusLabel("loué") == "Loué"
    ensures StatusLabel("disponible") == "Disponible"
    ensures StatusLabel("maintenance") == "Maintenance"
  {
    assert UpperChar('l') == 'L' && UpperChar('d') == 'D' && UpperChar('m') == 'M';
    assert "Loué" == ['L'] + "loué"[1..];
    assert "Disponible" == ['D'] + "disponible"[1..];
    assert "Maintenance" == ['M'] + "maintenance"[1..];
  }

  /** Capitalising twice is capitalising once. */
  lemma StatusLabelIdempotent(status: string)
    ensures StatusLabel(StatusLabel(status)) == StatusLabel(status)
  {
    if status != [] {
      LowerOfUpperChar(status[0]);
    }
  }

  /** `handleDelete`: the row's id goes unchanged to the registry's delete. */
  method HandleDelete(store: PropertyStore, id: string)
    modifies store
    ensures store.properties == Deleted(old(store.properties), id)
  {
    store.DeleteProperty(id);
  }
}
