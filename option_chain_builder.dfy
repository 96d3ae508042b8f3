/** The option-chain builder of the quant engine: it selects, from the
    broker's instrument list, the contracts of one underlying at the nearest
    expiry, looks up lot sizes and picks the listed strike nearest to a
    target. The instrument list and the clock are inputs; expiries are day
    numbers (midnight of that day) and `now` a point in time measured in
    days. */
module OptionChainBuilder {
  import opened Util
  import opened RealMath
  import opened Nearest

  /** One entry of the broker's instrument list. */
  datatype Instrument = Instrument(
    token: int, tradingSymbol: string, name: string, strike: real, instrumentType: string,
    expiry: int, lotSize: int)

  /** The five columns `get_option_chain_data` keeps. */
  datatype ChainRow = ChainRow(token: int, tradingSymbol: string, strike: real, instrumentType: string, expiry: int)

  function Project(i: Instrument): ChainRow
  {
    ChainRow(i.token, i.tradingSymbol, i.strike, i.instrumentType, i.expiry)
  }

  /** An instrument of `symbol` that has not expired at `now`. */
  predicate Live(i: Instrument, symbol: string, now: real)
  {
    i.name == symbol && i.expiry as real >= now
  }

  /** The nearest expiry of `symbol` not before `now`, if any. */
  function EarliestExpiry(s: seq<Instrument>, symbol: string, now: real): (e: Option<int>)
    ensures e.None? <==> forall i :: i in s ==> !Live(i, symbol, now)
    ensures e.Some? ==> exists i :: i in s && Live(i, symbol, now) && i.expiry == e.value
    ensures e.Some? ==> forall i :: i in s && Live(i, symbol, now) ==> e.value <= i.expiry
  {
    if s == [] then None
    else
      var rest := EarliestExpiry(s[1..], symbol, now);
      assert forall i :: i in s <==> i == s[0] || i in s[1..];
      if !Live(s[0], symbol, now) then rest
      else if rest.Some? && rest.value < s[0].expiry then rest
      else Some(s[0].expiry)
  }

  /** The rows of `symbol` expiring on `expiry`, in list order. */
  function Expiring(s: seq<Instrument>, symbol: string, expiry: int): (rows: seq<ChainRow>)
    ensures |rows| <= |s|
  {
    if s == [] then []
    else
      var rest := Expiring(s[1..], symbol, expiry);
      if s[0].name == symbol && s[0].expiry == expiry then [Project(s[0])] + rest else rest
  }

  /** A row is selected exactly when it comes from an instrument of the
      symbol with that expiry. */
  lemma {:induction false} ExpiringMembers(s: seq<Instrument>, symbol: string, expiry: int, r: ChainRow)
    ensures r in Expiring(s, symbol, expiry) <==>
      exists i :: i in s && i.name == symbol && i.expiry == expiry && Project(i) == r
  {
    if s != [] {
      ExpiringMembers(s[1..], symbol, expiry, r);
      assert forall i :: i in s <==> i == s[0] || i in s[1..];
    }
  }

  /** `get_option_chain_data`: an error for an empty instrument list;
      otherwise the contracts of `symbol` at its nearest expiry not before
      `now`, none when there is no such expiry. */
  function GetOptionChainData(symbol: string, instruments: seq<Instrument>, now: real): (r: Result<seq<ChainRow>>)
    ensures r.Err? <==> instruments == []
    ensures r.Ok? ==> (r.value == [] <==> EarliestExpiry(instruments, symbol, now).None?)
  {
    if instruments == [] then
      Err("Failed to fetch instruments from Kite API. Cannot build option chain for " + symbol
          + ". Please check API connection.")
    else
      match EarliestExpiry(instruments, symbol, now)
      case None => Ok([])
      case Some(target) =>
        var rows := Expiring(instruments, symbol, target);
        var i :| i in instruments && Live(i, symbol, now) && i.expiry == target;
        ExpiringMembers(instruments, symbol, target, Project(i));
        Ok(rows)
  }

  /** Every returned row is a contract of the symbol at the nearest live
      expiry, and every such contract is returned. */
  lemma ChainIsNearestExpiry(symbol: string, instruments: seq<Instrument>, now: real, r: ChainRow)
    requires GetOptionChainData(symbol, instruments, now).Ok?
    requires GetOptionChainData(symbol, instruments, now).value != []
    ensures var e := EarliestExpiry(instruments, symbol, now);
      && e.Some?
      && (r in GetOptionChainData(symbol, instruments, now).value <==>
          exists i :: i in instruments && i.name == symbol && i.expiry == e.value && Project(i) == r)
  {
    ExpiringMembers(instruments, symbol, EarliestExpiry(instruments, symbol, now).value, r);
  }

  /** `get_expiry_date`: none for an empty chain, else the first row's expiry. */
  function GetExpiryDate(chain: seq<ChainRow>): (e: Option<int>)
    ensures e.None? <==> chain == []
    ensures e.Some? ==> e.value == chain[0].expiry
  {
    if chain == [] then None else Some(chain[0].expiry)
  }

  /** On a built chain, that expiry is the nearest live one and is shared by
      all rows. */
  lemma ExpiryOfBuiltChain(symbol: string, instruments: seq<Instrument>, now: real)
    requires GetOptionChainData(symbol, instruments, now).Ok?
    ensures var chain := GetOptionChainData(symbol, instruments, now).value;
      && GetExpiryDate(chain) == EarliestExpiry(instruments, symbol, now)
      && forall r :: r in chain ==> r.expiry == GetExpiryDate(chain).value
  {
    var chain := GetOptionChainData(symbol, instruments, now).value;
    if chain != [] {
      var e := EarliestExpiry(instruments, symbol, now).value;
      forall r | r in chain
        ensures r.expiry == e
      {
        ExpiringMembers(instruments, symbol, e, r);
      }
      assert chain[0] in chain;
    }
  }

  /** The lot sizes used when the broker gives none. */
  function KnownLotSize(symbol: string): (lot: int)
    ensures lot > 0
  {
    if symbol == "NIFTY" then 50
    else if symbol == "BANKNIFTY" then 15
    else if symbol == "FINNIFTY" then 40
    else if symbol == "MIDCPNIFTY" then 75
    else 50
  }

  /** The first instrument of `symbol`, if any. */
  function FirstOf(s: seq<Instrument>, symbol: string): (r: Option<Instrument>)
    ensures r.None? <==> forall i :: i in s ==> i.name != symbol
    ensures r.Some? ==> exists k :: (0 <= k < |s| && s[k] == r.value && r.value.name == symbol
                                     && forall j :: 0 <= j < k ==> s[j].name != symbol)
  {
    if s == [] then None
    else if s[0].name == symbol then Some(s[0])
    else
      var rest := FirstOf(s[1..], symbol);
      assert forall i :: i in s <==> i == s[0] || i in s[1..];
      assert rest.Some? ==> exists k :: (0 <= k < |s| && s[k] == rest.value && rest.value.name == symbol
                                         && forall j :: 0 <= j < k ==> s[j].name != symbol) by {
        if rest.Some? {
          var k :| 0 <= k < |s[1..]| && s[1..][k] == rest.value && rest.value.name == symbol
                   && forall j :: 0 <= j < k ==> s[1..][j].name != symbol;
          assert s[k + 1] == rest.value;
        }
      }
      rest
  }

  /** `get_lot_size`. `instruments` is the broker's list, `Err` when the
      request fails: the first instrument of the symbol decides when its lot
      size is non-zero, otherwise the known table. */
  function GetLotSize(symbol: string, instruments: Result<seq<Instrument>>): (lot: int)
    ensures instruments.Ok? && FirstOf(instruments.value, symbol).Some?
            && FirstOf(instruments.value, symbol).value.lotSize != 0
            ==> lot == FirstOf(instruments.value, symbol).value.lotSize
    ensures !(instruments.Ok? && FirstOf(instruments.value, symbol).Some?
              && FirstOf(instruments.value, symbol).value.lotSize != 0)
            ==> lot == KnownLotSize(symbol)
  {
    if instruments.Ok? && instruments.value != [] then
      var first := FirstOf(instruments.value, symbol);
      if first.Some? && first.value.lotSize != 0 then first.value.lotSize
      else KnownLotSize(symbol)
    else KnownLotSize(symbol)
  }

  /** With a broker that never lists a negative lot size the result is a
      positive lot size, whichever source it came from. */
  lemma LotSizePositive(symbol: string, instruments: Result<seq<Instrument>>)
    requires instruments.Ok? ==> forall i :: i in instruments.value ==> i.lotSize >= 0
    ensures GetLotSize(symbol, instruments) > 0
  {
    var lot := GetLotSize(symbol, instruments);
    if instruments.Ok? && FirstOf(instruments.value, symbol).Some? {
      var first := FirstOf(instruments.value, symbol).value;
      assert first in instruments.value;
    }
  }

  /** The rows of one option type, in chain order. */
  function OfType(chain: seq<ChainRow>, optionType: string): (rows: seq<ChainRow>)
    ensures forall r :: r in rows <==> r in chain && r.instrumentType == optionType
  {
    if chain == [] then []
    else
      var rest := OfType(chain[1..], optionType);
      assert forall r :: r in chain <==> r == chain[0] || r in chain[1..];
      if chain[0].instrumentType == optionType then [chain[0]] + rest else rest
  }

  function StrikesOf(rows: seq<ChainRow>): (xs: seq<real>)
    ensures |xs| == |rows| && forall k :: 0 <= k < |rows| ==> xs[k] == rows[k].strike
  {
    seq(|rows|, k requires 0 <= k < |rows| => rows[k].strike)
  }

  /** The dictionary `find_closest_strike_in_chain` returns. */
  datatype StrikePick = StrikePick(strike: int, tradingSymbol: string, token: int)

  /** `find_closest_strike_in_chain`: an error when no row has the type;
      otherwise the first row of that type at the least distance from the
      target, its strike truncated by `int()`. */
  function FindClosestStrikeInChain(chain: seq<ChainRow>, target: real, optionType: string): (r: Result<StrikePick>)
    ensures r.Err? <==> forall row :: row in chain ==> row.instrumentType != optionType
    ensures r.Err? ==> r.message == "No " + optionType + " options found in chain"
    ensures r.Ok? ==> exists row :: (
      && row in chain && row.instrumentType == optionType
      && r.value == StrikePick(Trunc(row.strike), row.tradingSymbol, row.token)
      && forall other :: other in chain && other.instrumentType == optionType
           ==> Dist(row.strike, target) <= Dist(other.strike, target))
  {
    var rows := OfType(chain, optionType);
    if rows == [] then Err("No " + optionType + " options found in chain")
    else
      var k := ClosestIndex(StrikesOf(rows), target);
      var row := rows[k];
      assert row in rows;
      assert forall other :: other in rows ==> Dist(row.strike, target) <= Dist(other.strike, target) by {
        forall other | other in rows
          ensures Dist(row.strike, target) <= Dist(other.strike, target)
        {
          var j :| 0 <= j < |rows| && rows[j] == other;
          assert StrikesOf(rows)[j] == other.strike;
        }
      }
      Ok(StrikePick(Trunc(row.strike), row.tradingSymbol, row.token))
  }

  /** Ties go to the row listed first: the pick is the row at the position
      `ClosestIndex` selects among the rows of that type. */
  lemma FirstOnTies(chain: seq<ChainRow>, target: real, optionType: string)
    requires OfType(chain, optionType) != []
    ensures var rows := OfType(chain, optionType);
      var row := rows[ClosestIndex(StrikesOf(rows), target)];
      FindClosestStrikeInChain(chain, target, optionType) == Ok(StrikePick(Trunc(row.strike), row.tradingSymbol, row.token))
      && forall j :: 0 <= j < ClosestIndex(StrikesOf(rows), target) ==> Dist(rows[j].strike, target) > Dist(row.strike, target)
  {
    var rows := OfType(chain, optionType);
    var k := ClosestIndex(StrikesOf(rows), target);
    assert forall j :: 0 <= j < k ==> StrikesOf(rows)[j] == rows[j].strike;
  }
}
