/** The indices route: quotes of four index symbols are fetched one by one,
    the successful ones with a known symbol become `IndexData` entries, and
    when none succeed the mock indices are served. */
module Indices {
  import opened Util
  import opened MarketData

  /** Internal id and display name of a Yahoo Finance index symbol. */
  datatype IndexInfo = IndexInfo(id: string, name: string)

  /** `SYMBOLS`: internal id to Yahoo Finance symbol. */
  const Symbols: map<string, string> := map[
    "NIFTY50" := "^NSEI",
    "BANKNIFTY" := "^NSEBANK",
    "SENSEX" := "^BSESN",
    "INDIAVIX" := "^INDIAVIX",
    "NIFTYMIDCAP100" := "^NSEMDCP100",
    "NIFTYSMALLCAP100" := "^NSESCAP"]

  /** `SYMBOL_MAP`: the small-cap symbol has no entry. */
  const SymbolMap: map<string, IndexInfo> := map[
    "^NSEI" := IndexInfo("NIFTY50", "NIFTY 50"),
    "^NSEBANK" := IndexInfo("BANKNIFTY", "NIFTY BANK"),
    "^BSESN" := IndexInfo("SENSEX", "BSE SENSEX"),
    "^INDIAVIX" := IndexInfo("INDIAVIX", "INDIA VIX"),
    "^NSEMDCP100" := IndexInfo("NIFTYMIDCAP100", "NIFTY MIDCAP 100")]

  /** `symbolsToFetch`, in request order. */
  const SymbolsToFetch: seq<string> := ["^NSEI", "^NSEBANK", "^BSESN", "^INDIAVIX"]

  /** The numeric fields of a quote the route reads; any may be absent. */
  datatype IndexQuote = IndexQuote(
    regularMarketPrice: Option<real>,
    regularMarketChange: Option<real>,
    regularMarketChangePercent: Option<real>,
    regularMarketDayHigh: Option<real>,
    regularMarketDayLow: Option<real>,
    regularMarketOpen: Option<real>,
    regularMarketPreviousClose: Option<real>)

  /** What one per-symbol request settles to: the symbol, the quote (absent
      when the library returned nothing) and whether it failed. */
  datatype FetchResult = FetchResult(symbol: string, quote: Option<IndexQuote>, failed: bool)

  /** The JSON body of `GET`; the timestamp is not modelled. */
  datatype IndicesResponse = IndicesResponse(
    success: bool, data: seq<IndexData>, source: string, error: Option<string>)

  /** A result produces an entry: it has a quote, no error, and a symbol
      that `SYMBOL_MAP` knows. */
  predicate Produces(res: FetchResult)
  {
    res.quote.Some? && !res.failed && res.symbol in SymbolMap
  }

  /** The entry pushed for a producing result. */
  function Entry(res: FetchResult): (e: IndexData)
    requires Produces(res)
    ensures e.symbol == SymbolMap[res.symbol].id && e.name == SymbolMap[res.symbol].name
    ensures e.value == OrNumber(res.quote.value.regularMarketPrice, 0.0)
    ensures e.change == OrNumber(res.quote.value.regularMarketChange, 0.0)
    ensures e.changePercent == OrNumber(res.quote.value.regularMarketChangePercent, 0.0)
    ensures e.high == OrNumber(res.quote.value.regularMarketDayHigh, 0.0)
    ensures e.low == OrNumber(res.quote.value.regularMarketDayLow, 0.0)
    ensures e.open == OrNumber(res.quote.value.regularMarketOpen, 0.0)
    ensures e.prevClose == OrNumber(res.quote.value.regularMarketPreviousClose, 0.0)
  {
    var info := SymbolMap[res.symbol];
    var q := res.quote.value;
    IndexData(info.id, info.name,
      OrNumber(q.regularMarketPrice, 0.0),
      OrNumber(q.regularMarketChange, 0.0),
      OrNumber(q.regularMarketChangePercent, 0.0),
      OrNumber(q.regularMarketDayHigh, 0.0),
      OrNumber(q.regularMarketDayLow, 0.0),
      OrNumber(q.regularMarketOpen, 0.0),
      OrNumber(q.regularMarketPreviousClose, 0.0))
  }

  /** The entries the `forEach` collects from the first results, in order. */
  function Collected(results: seq<FetchResult>): seq<IndexData>
  {
    if results == [] then []
    else
      var last := results[|results| - 1];
      Collected(results[..|results| - 1]) + (if Produces(last) then [Entry(last)] else [])
  }

  /** `results.forEach(...)`: pushes one entry per producing result. */
  method CollectIndices(results: seq<FetchResult>) returns (indices: seq<IndexData>)
    ensures indices == Collected(results)
  {
    indices := [];
    var i := 0;
    while i < |results|
      invariant 0 <= i <= |results|
      invariant indices == Collected(results[..i])
    {
      var res := results[i];
      assert results[..i + 1][..i] == results[..i];
      if res.quote.Some? && !res.failed {
        if res.symbol in SymbolMap {
          indices := indices + [Entry(res)];
        }
      }
      i := i + 1;
    }
    assert results[..|results|] == results;
  }

  /** The entries come from producing results, in their order: `idx`
      lists, increasing, the positions of the results that produced them
      (`CollectedLength` shows that every producing result is used). */
  ghost predicate TracedTo(entries: seq<IndexData>, results: seq<FetchResult>, idx: seq<nat>)
  {
    && |idx| == |entries|
    && (forall k :: 0 <= k < |idx| ==> idx[k] < |results| && Produces(results[idx[k]])
                                       && entries[k] == Entry(results[idx[k]]))
    && (forall k, l :: 0 <= k < l < |idx| ==> idx[k] < idx[l])
  }

  lemma {:induction false} CollectedTraced(results: seq<FetchResult>)
    ensures exists idx :: TracedTo(Collected(results), results, idx)
  {
    if results == [] {
      assert Collected(results) == [];
      assert TracedTo([], results, []);
    } else {
      var n := |results| - 1;
      CollectedTraced(results[..n]);
      var idx :| TracedTo(Collected(results[..n]), results[..n], idx);
      var idx' := TracedStep(results, idx);
    }
  }

  lemma TracedStep(results: seq<FetchResult>, idx: seq<nat>) returns (idx': seq<nat>)
    requires results != []
    requires TracedTo(Collected(results[..|results| - 1]), results[..|results| - 1], idx)
    ensures TracedTo(Collected(results), results, idx')
  {
    var n := |results| - 1;
    var init := results[..n];
    var prev := Collected(init);
    assert forall i :: 0 <= i < n ==> init[i] == results[i];
    if Produces(results[n]) {
      idx' := idx + [n];
      assert Collected(results) == prev + [Entry(results[n])];
    } else {
      idx' := idx;
      assert Collected(results) == prev;
    }
    var entries := Collected(results);
    forall k | 0 <= k < |idx'|
      ensures idx'[k] < |results| && Produces(results[idx'[k]]) && entries[k] == Entry(results[idx'[k]])
    {
      if k < |idx| {
        var j := idx[k];
        assert idx'[k] == j && entries[k] == prev[k];
        assert j < n && Produces(init[j]) && prev[k] == Entry(init[j]);
        assert init[j] == results[j];
      }
    }
  }

  /** The number of results that produce an entry. */
  function ProducingCount(results: seq<FetchResult>): nat
  {
    if results == [] then 0
    else ProducingCount(results[..|results| - 1]) + (if Produces(results[|results| - 1]) then 1 else 0)
  }

  /** One entry per producing result, so at most one per symbol requested,
      and none exactly when no result produces. */
  lemma {:induction false} CollectedLength(results: seq<FetchResult>)
    ensures |Collected(results)| == ProducingCount(results) <= |results|
    ensures |Collected(results)| == 0 <==> forall i :: 0 <= i < |results| ==> !Produces(results[i])
  {
    if results != [] {
      var n := |results| - 1;
      CollectedLength(results[..n]);
      assert forall i :: 0 <= i < n ==> results[..n][i] == results[i];
    }
  }

  /** `fetchLiveIndices`: every request is issued, each one's failure is
      caught on its own, and the entries are collected. */
  method FetchLiveIndices(results: seq<FetchResult>) returns (indices: seq<IndexData>)
    requires |results| == |SymbolsToFetch|
    requires forall i :: 0 <= i < |results| ==> results[i].symbol == SymbolsToFetch[i]
    ensures indices == Collected(results)
    ensures |indices| <= 4
  {
    indices := CollectIndices(results);
    CollectedLength(results);
  }

  /** `GET`: `live` is the outcome of `fetchLiveIndices` (`Err` when it
      throws). */
  function Get(live: Result<seq<IndexData>>): (r: IndicesResponse)
    ensures r.success
    ensures live.Ok? && live.value != [] ==> r.data == live.value && r.source == "live" && r.error == None
    ensures live.Ok? && live.value == [] ==> r.data == MockIndicesData && r.source == "mock" && r.error == None
    ensures live.Err? ==> r.data == MockIndicesData && r.source == "mock" && r.error == Some("Failed to fetch live data")
  {
    if live.Err? then IndicesResponse(true, MockIndicesData, "mock", Some("Failed to fetch live data"))
    else if |live.value| == 0 then IndicesResponse(true, MockIndicesData, "mock", None)
    else IndicesResponse(true, live.value, "live", None)
  }

  /** The served data is never empty, and it is live exactly when some
      request produced an entry. */
  lemma GetNeverEmpty(results: seq<FetchResult>)
    ensures Get(Ok(Collected(results))).data != []
    ensures Get(Ok(Collected(results))).source == "live" <==>
            exists i :: 0 <= i < |results| && Produces(results[i])
  {
    CollectedLength(results);
  }

  /** Only four of the six configured symbols are requested, and the
      small-cap index, having no `SYMBOL_MAP` entry, could never be shown. */
  lemma SymbolTables()
    ensures forall s :: s in SymbolsToFetch ==> s in SymbolMap
    ensures Symbols["NIFTYSMALLCAP100"] !in SymbolMap
    ensures forall id :: id in Symbols && id != "NIFTYSMALLCAP100" ==>
              Symbols[id] in SymbolMap && SymbolMap[Symbols[id]].id == id
  {
  }
}
