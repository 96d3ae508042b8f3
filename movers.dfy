/** The top-movers route: live quotes of the NIFTY 50 stocks become
    `StockMover` rows, sorted by change percentage; the first five are the
    gainers, the first five of the reversed list the losers. Without quotes
    the mock lists are served. */
module Movers {
  import opened Util
  import opened MarketData

  /** The fields of a Yahoo Finance quote the route reads; any of them may
      be absent. */
  datatype Quote = Quote(
    symbol: string,
    shortName: Option<string>,
    longName: Option<string>,
    regularMarketPrice: Option<real>,
    regularMarketChange: Option<real>,
    regularMarketChangePercent: Option<real>,
    regularMarketVolume: Option<real>)

  /** The JSON body of the route; the timestamp is not modelled. */
  datatype MoversResponse = MoversResponse(
    success: bool,
    gainers: seq<StockMover>,
    losers: seq<StockMover>,
    source: string,
    error: Option<string>)

  const TopCount: nat := 5

  /** The mapping callback: ".NS" is removed once, the name falls back from
      the short name to the long name to the raw symbol, and a missing or
      zero number becomes 0. */
  function ToMover(q: Quote): (m: StockMover)
    ensures m.symbol == ReplaceFirst(q.symbol, ".NS", "")
    ensures Truthy(q.shortName) ==> m.name == q.shortName.value
    ensures !Truthy(q.shortName) && Truthy(q.longName) ==> m.name == q.longName.value
    ensures !Truthy(q.shortName) && !Truthy(q.longName) ==> m.name == q.symbol
    ensures m.price == OrNumber(q.regularMarketPrice, 0.0)
    ensures m.change == OrNumber(q.regularMarketChange, 0.0)
    ensures m.changePercent == OrNumber(q.regularMarketChangePercent, 0.0)
    ensures m.volume == OrNumber(q.regularMarketVolume, 0.0)
  {
    StockMover(
      ReplaceFirst(q.symbol, ".NS", ""),
      OrString(q.shortName, OrString(q.longName, q.symbol)),
      OrNumber(q.regularMarketPrice, 0.0),
      OrNumber(q.regularMarketChange, 0.0),
      OrNumber(q.regularMarketChangePercent, 0.0),
      OrNumber(q.regularMarketVolume, 0.0))
  }

  /** `quotes.map(...)`. */
  function MapQuotes(qs: seq<Quote>): (ms: seq<StockMover>)
    ensures |ms| == |qs| && forall i :: 0 <= i < |qs| ==> ms[i] == ToMover(qs[i])
  {
    if qs == [] then [] else MapQuotes(qs[..|qs| - 1]) + [ToMover(qs[|qs| - 1])]
  }

  // ---------------------------------------------------------------------
  // Sorting by change percentage, descending and stable
  // ---------------------------------------------------------------------

  /** Places `x` after every element whose change percentage is at least
      its own: the position a stable descending sort gives the last of
      equal elements. */
  function Insert(x: StockMover, s: seq<StockMover>): (r: seq<StockMover>)
    ensures multiset(r) == multiset(s) + multiset{x}
    ensures |r| == |s| + 1
    ensures r[0] == x || (s != [] && r[0] == s[0])
  {
    if s == [] then [x]
    else if s[0].changePercent >= x.changePercent then
      assert s == [s[0]] + s[1..];
      [s[0]] + Insert(x, s[1..])
    else [x] + s
  }

  /** Inserting into a descending list keeps it descending. */
  lemma {:induction false} InsertDescending(x: StockMover, s: seq<StockMover>)
    requires DescendingByChange(s)
    ensures DescendingByChange(Insert(x, s))
  {
    if s != [] && s[0].changePercent >= x.changePercent {
      var t := Insert(x, s[1..]);
      InsertDescending(x, s[1..]);
      assert t[0].changePercent <= s[0].changePercent;
      ConsDescending(s[0], t);
    } else if s != [] {
      ConsDescending(x, s);
    }
  }

  /** A descending list stays descending under a head at least its first
      element. */
  lemma ConsDescending(h: StockMover, t: seq<StockMover>)
    requires DescendingByChange(t) && (t != [] ==> h.changePercent >= t[0].changePercent)
    ensures DescendingByChange([h] + t)
  {
    var r := [h] + t;
    forall i, j | 0 <= i < j < |r|
      ensures r[i].changePercent >= r[j].changePercent
    {
      assert r[j] == t[j - 1];
      if i > 0 {
        assert r[i] == t[i - 1];
      }
    }
  }

  /** `[...movers].sort((a, b) => b.changePercent - a.changePercent)`. */
  function SortByChange(s: seq<StockMover>): (r: seq<StockMover>)
    ensures multiset(r) == multiset(s)
    ensures |r| == |s|
    ensures DescendingByChange(r)
  {
    if s == [] then []
    else
      var init := SortByChange(s[..|s| - 1]);
      InsertDescending(s[|s| - 1], init);
      LastSplit(s);
      Insert(s[|s| - 1], init)
  }

  lemma LastSplit(s: seq<StockMover>)
    requires s != []
    ensures multiset(s) == multiset(s[..|s| - 1]) + multiset{s[|s| - 1]}
  {
    assert s == s[..|s| - 1] + [s[|s| - 1]];
  }

  function Reversed<T>(s: seq<T>): (r: seq<T>)
    ensures |r| == |s| && forall i :: 0 <= i < |s| ==> r[i] == s[|s| - 1 - i]
  {
    seq(|s|, i requires 0 <= i < |s| => s[|s| - 1 - i])
  }

  /** `slice(0, n)`. */
  function Take<T>(s: seq<T>, n: nat): (r: seq<T>)
    ensures |r| == if n < |s| then n else |s|
    ensures r == s[..|r|]
  {
    if n < |s| then s[..n] else s
  }

  /** `Array.prototype.reverse`: reverses the array in place. */
  method ReverseInPlace(a: array<StockMover>)
    modifies a
    ensures a[..] == Reversed(old(a[..]))
  {
    var i, j := 0, a.Length - 1;
    while i < j
      invariant 0 <= i && j == a.Length - 1 - i && i <= a.Length - i
      invariant forall k :: 0 <= k < i ==> a[k] == old(a[a.Length - 1 - k])
      invariant forall k :: 0 <= k < i ==> a[a.Length - 1 - k] == old(a[k])
      invariant forall k :: i <= k < a.Length - i ==> a[k] == old(a[k])
    {
      a[i], a[j] := a[j], a[i];
      i, j := i + 1, j - 1;
    }
  }

  /** The live path: map, sort a copy, take the first five as gainers, then
      reverse the sorted copy in place and take its first five as losers. */
  method SelectMovers(quotes: seq<Quote>) returns (gainers: seq<StockMover>, losers: seq<StockMover>)
    ensures gainers == Take(SortByChange(MapQuotes(quotes)), TopCount)
    ensures losers == Take(Reversed(SortByChange(MapQuotes(quotes))), TopCount)
  {
    var movers := MapQuotes(quotes);
    var sorted := SortByChange(movers);
    gainers := Take(sorted, TopCount);
    var a := new StockMover[|sorted|];
    forall i | 0 <= i < a.Length {
      a[i] := sorted[i];
    }
    assert a[..] == sorted;
    ReverseInPlace(a);
    assert a[..] == Reversed(sorted);
    losers := Take(a[..], TopCount);
  }

  /** `GET`: `quotes` is the outcome of the quote request (`Err` when it
      throws). No quotes, or an error, serve the mock lists. */
  method Get(quotes: Result<seq<Quote>>) returns (resp: MoversResponse)
    ensures resp.success
    ensures quotes.Ok? && quotes.value != [] ==>
      && resp.source == "live" && resp.error == None
      && resp.gainers == Take(SortByChange(MapQuotes(quotes.value)), TopCount)
      && resp.losers == Take(Reversed(SortByChange(MapQuotes(quotes.value))), TopCount)
    ensures quotes.Err? || quotes.value == [] ==>
      resp == MoversResponse(true, MockTopGainers, MockTopLosers, "mock", Some("Failed to fetch live movers"))
  {
    if quotes.Err? || quotes.value == [] {
      return MoversResponse(true, MockTopGainers, MockTopLosers, "mock", Some("Failed to fetch live movers"));
    }
    var gainers, losers := SelectMovers(quotes.value);
    resp := MoversResponse(true, gainers, losers, "live", None);
  }

  // ---------------------------------------------------------------------
  // Properties of the selection
  // ---------------------------------------------------------------------

  /** Gainers: at most five, a sub-multiset of the movers, in non-increasing
      order, and each at least every mover that is not a gainer. */
  lemma GainersAreTop(movers: seq<StockMover>)
    ensures var s := SortByChange(movers); var g := Take(s, TopCount);
      && |g| == (if |movers| < 5 then |movers| else 5)
      && multiset(g) <= multiset(movers)
      && DescendingByChange(g)
      && forall i, j :: 0 <= i < |g| <= j < |s| ==> g[i].changePercent >= s[j].changePercent
  {
    var s := SortByChange(movers);
    var k := if |s| < 5 then |s| else 5;
    assert Take(s, TopCount) == s[..k];
    PrefixMultiset(s, k);
    TopOrder(s, k);
  }

  lemma PrefixMultiset(s: seq<StockMover>, k: nat)
    requires k <= |s|
    ensures multiset(s[..k]) <= multiset(s)
  {
    assert s == s[..k] + s[k..];
  }

  /** The first k of a descending list descend and lie above all the
      others. */
  lemma TopOrder(s: seq<StockMover>, k: nat)
    requires DescendingByChange(s) && k <= |s|
    ensures DescendingByChange(s[..k])
    ensures forall i, j :: 0 <= i < k <= j < |s| ==> s[..k][i].changePercent >= s[j].changePercent
  {
    assert forall i :: 0 <= i < k ==> s[..k][i] == s[i];
  }

  /** The first k of the reversed list are the last k, reversed. */
  lemma TakeReversed<T>(s: seq<T>, k: nat)
    requires k <= |s|
    ensures Take(Reversed(s), k) == Reversed(s[|s| - k..])
  {
    var a, b := Take(Reversed(s), k), Reversed(s[|s| - k..]);
    assert forall i :: 0 <= i < k ==> a[i] == b[i];
  }

  /** Losers: at most five, a sub-multiset of the movers, in non-decreasing
      order, and each at most every mover that is not a loser. */
  lemma LosersAreBottom(movers: seq<StockMover>)
    ensures var s := SortByChange(movers); var l := Take(Reversed(s), TopCount);
      && |l| == (if |movers| < 5 then |movers| else 5)
      && multiset(l) <= multiset(movers)
      && AscendingByChange(l)
      && forall i, j :: 0 <= i < |l| && 0 <= j < |s| - |l| ==> l[i].changePercent <= s[j].changePercent
  {
    var s := SortByChange(movers);
    var k := if |s| < 5 then |s| else 5;
    TakeReversed(s, k);
    BottomOfSorted(s, k);
  }

  /** The last k of a descending list, reversed, ascend, are drawn from the
      list and lie below all the others. */
  lemma BottomOfSorted(s: seq<StockMover>, k: nat)
    requires DescendingByChange(s) && k <= |s|
    ensures var l := Reversed(s[|s| - k..]);
      && multiset(l) <= multiset(s)
      && AscendingByChange(l)
      && forall i, j :: 0 <= i < |l| && 0 <= j < |s| - |l| ==> l[i].changePercent <= s[j].changePercent
  {
    var n := |s|;
    var tail := s[n - k..];
    ReversedMultiset(tail);
    assert s == s[..n - k] + tail;
    BottomOrder(s, k);
  }

  lemma BottomOrder(s: seq<StockMover>, k: nat)
    requires DescendingByChange(s) && k <= |s|
    ensures var l := Reversed(s[|s| - k..]);
      && AscendingByChange(l)
      && forall i, j :: 0 <= i < |l| && 0 <= j < |s| - |l| ==> l[i].changePercent <= s[j].changePercent
  {
    var n := |s|;
    var l := Reversed(s[n - k..]);
    assert forall i :: 0 <= i < |l| ==> l[i] == s[n - 1 - i];
  }

  lemma {:induction false} ReversedMultiset<T>(s: seq<T>)
    ensures multiset(Reversed(s)) == multiset(s)
  {
    if s != [] {
      var init := s[..|s| - 1];
      ReversedMultiset(init);
      assert s == init + [s[|s| - 1]];
      assert Reversed(s) == [s[|s| - 1]] + Reversed(init);
    }
  }

  /** From ten movers on, gainers and losers are taken from disjoint
      positions of the sorted list: together they are a sub-multiset of the
      movers. */
  lemma DisjointWhenTenOrMore(movers: seq<StockMover>)
    requires |movers| >= 10
    ensures var s := SortByChange(movers);
      multiset(Take(s, TopCount)) + multiset(Take(Reversed(s), TopCount)) <= multiset(movers)
  {
    var s := SortByChange(movers);
    TakeReversed(s, 5);
    EndsDisjoint(s);
  }

  lemma EndsDisjoint(s: seq<StockMover>)
    requires |s| >= 10
    ensures multiset(s[..5]) + multiset(Reversed(s[|s| - 5..])) <= multiset(s)
  {
    var n := |s|;
    ReversedMultiset(s[n - 5..]);
    assert s == s[..5] + s[5..n - 5] + s[n - 5..];
  }

  /** With at most five movers the losers are the gainers reversed. */
  lemma LosersReverseGainersWhenFew(movers: seq<StockMover>)
    requires |movers| <= 5
    ensures var s := SortByChange(movers);
      Take(Reversed(s), TopCount) == Reversed(Take(s, TopCount))
  {
  }
}
