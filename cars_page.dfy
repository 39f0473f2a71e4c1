/**
 * `app/cars/page.tsx`, `fetchCars`: the server request for the car list,
 * then the client-side search filter and the in-place sort of the result.
 * Case mapping is ASCII only.
 */
module CarsPage {
  import opened Wrappers
  import Text
  import Seqs
  import opened MockData
  import MockHandlers

  /** The lowercased term occurs in the lowercased name, model or location. */
  predicate MatchesTerm(c: Car, term: string) {
    Text.Contains(Text.Lower(c.name), term) ||
    Text.Contains(Text.Lower(c.model), term) ||
    Text.Contains(Text.Lower(c.location), term)
  }

  /** An empty term keeps the list; otherwise the cars matching the lowercased term, in order. */
  function SearchFilter(cars: seq<Car>, searchTerm: string): (r: seq<Car>)
    ensures searchTerm == "" ==> r == cars
    ensures |r| <= |cars|
    ensures forall c :: c in r ==> c in cars && MatchesTerm(c, Text.Lower(searchTerm))
    ensures forall c :: c in cars && MatchesTerm(c, Text.Lower(searchTerm)) ==> c in r
  {
    if searchTerm == "" then
      assert forall c :: c in cars ==> MatchesTerm(c, Text.Lower(searchTerm)) by {
        forall c | c in cars ensures MatchesTerm(c, Text.Lower(searchTerm)) {
          Text.ContainsEmpty(Text.Lower(c.name));
        }
      }
      cars
    else
      Seqs.Filter(cars, (c: Car) => MatchesTerm(c, Text.Lower(searchTerm)))
  }

  /** Filtering a concatenation filters each part: the kept cars stay in their order. */
  lemma SearchFilterKeepsOrder(a: seq<Car>, b: seq<Car>, searchTerm: string)
    ensures SearchFilter(a + b, searchTerm) == SearchFilter(a, searchTerm) + SearchFilter(b, searchTerm)
  {
    if searchTerm != "" {
      Seqs.FilterAppend(a, b, (c: Car) => MatchesTerm(c, Text.Lower(searchTerm)));
    }
  }

  /** The `sortBy` select's values; anything else compares every pair as equal. */
  datatype SortKey = PriceAsc | PriceDesc | Newest | Oldest | Unsorted

  function ParseSortKey(s: string): SortKey {
    if s == "priceAsc" then PriceAsc
    else if s == "priceDesc" then PriceDesc
    else if s == "newest" then Newest
    else if s == "oldest" then Oldest
    else Unsorted
  }

  /** The comparator passed to `sort`: negative when `a` goes first. */
  function Compare(a: Car, b: Car, k: SortKey): int {
    match k
    case PriceAsc => a.pricePerDay - b.pricePerDay
    case PriceDesc => b.pricePerDay - a.pricePerDay
    case Newest => b.year - a.year
    case Oldest => a.year - b.year
    case Unsorted => 0
  }

  /** The number each key sorts by, ascending. */
  function Rank(c: Car, k: SortKey): int {
    match k
    case PriceAsc => c.pricePerDay
    case PriceDesc => -c.pricePerDay
    case Newest => -c.year
    case Oldest => c.year
    case Unsorted => 0
  }

  /** Every comparator is a difference of ranks, so it is a consistent total preorder. */
  lemma CompareIsRankDifference(a: Car, b: Car, k: SortKey)
    ensures Compare(a, b, k) == Rank(a, k) - Rank(b, k)
  {
  }

  /** No pair is out of order for the comparator. */
  predicate SortedBy(s: seq<Car>, k: SortKey) {
    forall i, j :: 0 <= i < j < |s| ==> Rank(s[i], k) <= Rank(s[j], k)
  }

  /** What sortedness means for each select value. */
  lemma SortedMeaning(s: seq<Car>, k: SortKey)
    requires SortedBy(s, k)
    ensures forall i, j :: 0 <= i < j < |s| ==> Compare(s[i], s[j], k) <= 0
    ensures k == PriceAsc ==> forall i, j :: 0 <= i < j < |s| ==> s[i].pricePerDay <= s[j].pricePerDay
    ensures k == PriceDesc ==> forall i, j :: 0 <= i < j < |s| ==> s[i].pricePerDay >= s[j].pricePerDay
    ensures k == Newest ==> forall i, j :: 0 <= i < j < |s| ==> s[i].year >= s[j].year
    ensures k == Oldest ==> forall i, j :: 0 <= i < j < |s| ==> s[i].year <= s[j].year
  {
  }

  /** The first `n` places of `a` are in order. */
  predicate SortedPrefix(a: array<Car>, n: int, k: SortKey)
    reads a
    requires 0 <= n <= a.Length
  {
    forall p, q :: 0 <= p < q < n ==> Rank(a[p], k) <= Rank(a[q], k)
  }

  /**
   * `filteredCars.sort(...)`, as an insertion sort that moves an element
   * only past strictly greater ones. The result is a sorted permutation,
   * and a key that compares everything as equal moves nothing.
   */
  method SortCars(a: array<Car>, k: SortKey)
    modifies a
    ensures SortedBy(a[..], k)
    ensures multiset(a[..]) == multiset(old(a[..]))
    ensures k == Unsorted ==> a[..] == old(a[..])
  {
    var i := 0;
    while i < a.Length
      invariant 0 <= i <= a.Length
      invariant SortedPrefix(a, i, k)
      invariant multiset(a[..]) == multiset(old(a[..]))
      invariant k == Unsorted ==> a[..] == old(a[..])
    {
      Insert(a, i, k);
      i := i + 1;
    }
  }

  /** Moves `a[i]` down past the strictly greater elements before it. */
  method Insert(a: array<Car>, i: int, k: SortKey)
    requires 0 <= i < a.Length
    requires SortedPrefix(a, i, k)
    modifies a
    ensures SortedPrefix(a, i + 1, k)
    ensures multiset(a[..]) == multiset(old(a[..]))
    ensures k == Unsorted ==> a[..] == old(a[..])
  {
    var j := i;
    while j > 0 && Rank(a[j - 1], k) > Rank(a[j], k)
      invariant 0 <= j <= i
      invariant multiset(a[..]) == multiset(old(a[..]))
      invariant Sinking(a[..], i, j, k)
      invariant k == Unsorted ==> j == i && a[..] == old(a[..])
    {
      SinkStep(a[..], i, j, k);
      Swap(a, j - 1, j);
      j := j - 1;
    }
    SinkDone(a[..], i, j, k);
  }

  /**
   * The places up to `i` are in order, except the one at `j`, which sinks:
   * it is strictly smaller than everything after it up to `i`.
   */
  ghost predicate Sinking(s: seq<Car>, i: int, j: int, k: SortKey)
    requires 0 <= j <= i < |s|
  {
    && (forall p, q :: 0 <= p < q <= i && p != j && q != j ==> Rank(s[p], k) <= Rank(s[q], k))
    && (forall q :: j < q <= i ==> Rank(s[j], k) < Rank(s[q], k))
  }

  /** Swapping the sinking element with a greater left neighbour moves it down one place. */
  lemma SinkStep(s: seq<Car>, i: int, j: int, k: SortKey)
    requires 0 < j <= i < |s| && Sinking(s, i, j, k) && Rank(s[j - 1], k) > Rank(s[j], k)
    ensures Sinking(s[j - 1 := s[j]][j := s[j - 1]], i, j - 1, k)
  {
  }

  /** Once the left neighbour is not greater, the places up to `i` are in order. */
  lemma SinkDone(s: seq<Car>, i: int, j: int, k: SortKey)
    requires 0 <= j <= i < |s| && Sinking(s, i, j, k)
    requires j == 0 || Rank(s[j - 1], k) <= Rank(s[j], k)
    ensures forall p, q :: 0 <= p < q <= i ==> Rank(s[p], k) <= Rank(s[q], k)
  {
  }

  /** Exchanges two neighbouring places. */
  method Swap(a: array<Car>, x: int, y: int)
    requires 0 <= x < y < a.Length
    modifies a
    ensures a[..] == old(a[..])[x := old(a[y])][y := old(a[x])]
    ensures multiset(a[..]) == multiset(old(a[..]))
  {
    a[x], a[y] := a[y], a[x];
  }

  /** `data.cars || []`, searched, then sorted by the select's key. */
  method FetchCars(fetched: Option<seq<Car>>, searchTerm: string, sortBy: string) returns (shown: seq<Car>)
    ensures var listed := if fetched.Some? then fetched.value else [];
      multiset(shown) == multiset(SearchFilter(listed, searchTerm))
    ensures SortedBy(shown, ParseSortKey(sortBy))
    ensures ParseSortKey(sortBy) == Unsorted ==>
      shown == SearchFilter(if fetched.Some? then fetched.value else [], searchTerm)
  {
    var listed := if fetched.Some? then fetched.value else [];
    var filtered := SearchFilter(listed, searchTerm);
    var a := new Car[|filtered|](i requires 0 <= i < |filtered| => filtered[i]);
    assert a[..] == filtered;
    SortCars(a, ParseSortKey(sortBy));
    shown := a[..];
  }

  /** The request's `filter.available` is the page's `filterAvailable` flag. */
  function CarsRequest(filterAvailable: bool): (v: MockHandlers.Vars)
    ensures v.filterAvailable == Some(filterAvailable) && v.input.None? && v.id.None?
    ensures v.inviteCode.None?
  {
    MockHandlers.Vars(None, None, None, Some(filterAvailable))
  }

  /**
   * Against the corrected mock filter the select means what it says: "yes"
   * lists only available cars, "no" lists every car.
   */
  lemma RequestHonoursSelect(cars: seq<Car>, filterAvailable: bool)
    ensures filterAvailable ==>
      forall c :: c in MockHandlers.AvailableCars(cars, CarsRequest(filterAvailable).filterAvailable) <==> c in cars && c.available
    ensures !filterAvailable ==> MockHandlers.AvailableCars(cars, CarsRequest(filterAvailable).filterAvailable) == cars
  {
    if !filterAvailable {
      MockHandlers.AvailableCarsUnfiltered(cars, Some(false));
    }
  }
}
