/** Market data types of the front end, the display helpers that format and
    colour a change, and the mock data every market route falls back on. */
module MarketData {
  import opened Util

  /** One index quote (`IndexData`); the `lastUpdated` timestamp is not
      modelled. */
  datatype IndexData = IndexData(
    symbol: string, name: string,
    value: real, change: real, changePercent: real,
    high: real, low: real, open: real, prevClose: real)

  /** One stock of the top-movers lists (`StockMover`). */
  datatype StockMover = StockMover(
    symbol: string, name: string,
    price: real, change: real, changePercent: real, volume: real)

  /** `OptionGreeks`; `rho` is optional. */
  datatype OptionGreeks = OptionGreeks(delta: real, gamma: real, theta: real, vega: real, rho: Option<real>)

  /** The call or put half of one row of an option chain. */
  datatype OptionSide = OptionSide(
    premium: real, openInterest: real, volume: real, changeInOI: real,
    impliedVolatility: real, greeks: OptionGreeks)

  /** One strike of an option chain (`OptionData`). */
  datatype OptionData = OptionData(strikePrice: real, expiryDate: string, call: OptionSide, put: OptionSide)

  /** `OptionsChainData`. */
  datatype OptionsChainData = OptionsChainData(
    underlying: string, spotPrice: real, expiries: seq<string>, atmStrike: real,
    options: seq<OptionData>)

  // ---------------------------------------------------------------------
  // Display helpers
  // ---------------------------------------------------------------------

  /** `toLocaleString('en-IN', …)` and `toFixed`: the digits of a number with
      a given count of decimals. Not modelled; supplied by the caller. */
  type NumberFormat = (real, nat) -> string

  /** A fixed-point rendering in the manner of `toFixed`: a negative number
      starts with '-', never with '+'. */
  ghost predicate FixedFormat(toFixed: NumberFormat)
  {
    forall x, d :: toFixed(x, d) == [] || toFixed(x, d)[0] != '+'
  }

  /** `formatNumber(num, decimals)`. */
  function FormatNumber(num: real, decimals: nat, toLocale: NumberFormat): string
  {
    toLocale(num, decimals)
  }

  /** `formatCurrency(num, decimals)`: the rupee sign before the formatted
      number. */
  function FormatCurrency(num: real, decimals: nat, toLocale: NumberFormat): (r: string)
    ensures |r| >= 1 && r[0] == '\U{20B9}' && r[1..] == FormatNumber(num, decimals, toLocale)
  {
    "\U{20B9}" + FormatNumber(num, decimals, toLocale)
  }

  /** `formatPercentage(num, decimals)`: a '+' sign for non-negative numbers,
      the fixed-point digits, then '%'. */
  function FormatPercentage(num: real, decimals: nat, toFixed: NumberFormat): (r: string)
    ensures |r| >= 1 && r[|r| - 1] == '%'
    ensures num >= 0.0 ==> r == "+" + toFixed(num, decimals) + "%"
    ensures num < 0.0 ==> r == toFixed(num, decimals) + "%"
  {
    var sign := if num >= 0.0 then "+" else "";
    sign + toFixed(num, decimals) + "%"
  }

  /** With a `toFixed`-like formatter the text starts with '+' exactly when
      the number is non-negative (so 0 shows as "+0.00%"). */
  lemma PercentageSign(num: real, decimals: nat, toFixed: NumberFormat)
    requires FixedFormat(toFixed)
    ensures StartsWith(FormatPercentage(num, decimals, toFixed), "+") <==> num >= 0.0
  {
    var f := toFixed(num, decimals);
    if num < 0.0 && f != [] {
      assert FormatPercentage(num, decimals, toFixed)[0] == f[0];
    }
  }

  /** The three ways a change is shown. */
  datatype Trend = Up | Down | Flat

  /** The three-way split both colour helpers make; NaN, which the model
      does not represent, falls in `Flat` in the source. */
  function TrendOf(change: real): (t: Trend)
    ensures t == Up <==> change > 0.0
    ensures t == Down <==> change < 0.0
    ensures t == Flat <==> change == 0.0
  {
    if change > 0.0 then Up else if change < 0.0 then Down else Flat
  }

  /** `getChangeColor(change)`. */
  function GetChangeColor(change: real): (r: string)
    ensures change > 0.0 ==> r == "text-green-400"
    ensures change < 0.0 ==> r == "text-red-400"
    ensures change == 0.0 ==> r == "text-white/60"
  {
    if change > 0.0 then "text-green-400"
    else if change < 0.0 then "text-red-400"
    else "text-white/60"
  }

  /** `getChangeBgColor(change)`. */
  function GetChangeBgColor(change: real): (r: string)
    ensures change > 0.0 ==> r == "from-green-500/20 to-emerald-500/20"
    ensures change < 0.0 ==> r == "from-red-500/20 to-rose-500/20"
    ensures change == 0.0 ==> r == "from-gray-500/20 to-slate-500/20"
  {
    if change > 0.0 then "from-green-500/20 to-emerald-500/20"
    else if change < 0.0 then "from-red-500/20 to-rose-500/20"
    else "from-gray-500/20 to-slate-500/20"
  }

  /** The text colour and the background agree: each is a function of the
      trend alone, and distinct trends give distinct colours. */
  lemma ColoursAgree(a: real, b: real)
    ensures GetChangeColor(a) == GetChangeColor(b) <==> TrendOf(a) == TrendOf(b)
    ensures GetChangeBgColor(a) == GetChangeBgColor(b) <==> TrendOf(a) == TrendOf(b)
  {
  }

  // ---------------------------------------------------------------------
  // Mock data
  // ---------------------------------------------------------------------

  const MockIndicesData: seq<IndexData> := [
    IndexData("NIFTY50", "NIFTY 50", 21731.4, 284.3, 1.33, 21850.25, 21450.8, 21500.0, 21447.1),
    IndexData("BANKNIFTY", "NIFTY BANK", 46125.85, -156.45, -0.34, 46450.2, 45980.15, 46280.0, 46282.3),
    IndexData("SENSEX", "BSE SENSEX", 71752.11, 445.29, 0.62, 71950.75, 71320.45, 71500.0, 71306.82),
    IndexData("NIFTYSMALLCAP100", "NIFTY SMALLCAP 100", 15234.6, 189.75, 1.26, 15301.2, 15045.85, 15100.0, 15044.85),
    IndexData("NIFTYMIDCAP100", "NIFTY MIDCAP 100", 48562.35, 512.8, 1.07, 48750.9, 48050.25, 48150.0, 48049.55),
    IndexData("INDIAVIX", "INDIA VIX", 13.42, -0.68, -4.83, 14.25, 13.15, 14.1, 14.1)
  ]

  const MockTopGainers: seq<StockMover> := [
    StockMover("ADANIPORTS", "Adani Ports", 1245.6, 87.3, 7.54, 8450000.0),
    StockMover("TATAMOTORS", "Tata Motors", 758.4, 45.2, 6.34, 12350000.0),
    StockMover("RELIANCE", "Reliance Ind.", 2486.75, 123.45, 5.22, 9870000.0),
    StockMover("HDFCBANK", "HDFC Bank", 1623.9, 67.8, 4.36, 7650000.0),
    StockMover("INFY", "Infosys", 1534.25, 58.35, 3.95, 6234000.0)
  ]

  const MockTopLosers: seq<StockMover> := [
    StockMover("WIPRO", "Wipro", 432.15, -28.4, -6.17, 5430000.0),
    StockMover("TECHM", "Tech Mahindra", 1187.6, -65.3, -5.21, 4120000.0),
    StockMover("BAJFINANCE", "Bajaj Finance", 6842.3, -298.5, -4.18, 3890000.0),
    StockMover("ICICIBANK", "ICICI Bank", 1045.8, -38.7, -3.57, 8760000.0),
    StockMover("SBIN", "SBI", 612.45, -19.85, -3.14, 11230000.0)
  ]

  const MockOptionsData: OptionsChainData := OptionsChainData(
    "NIFTY", 21731.4,
    ["25-Jan-2024", "01-Feb-2024", "08-Feb-2024"],
    21750.0,
    [
      OptionData(21600.0, "25-Jan-2024",
        OptionSide(185.5, 1245000.0, 234500.0, 45000.0, 12.45,
                 OptionGreeks(0.68, 0.0012, -15.4, 8.2, None)),
        OptionSide(42.3, 987000.0, 156700.0, -12000.0, 13.12,
                 OptionGreeks(-0.32, 0.0011, -12.8, 7.9, None))),
      OptionData(21700.0, "25-Jan-2024",
        OptionSide(125.75, 1567000.0, 345600.0, 78000.0, 12.78,
                 OptionGreeks(0.55, 0.0014, -16.2, 9.1, None)),
        OptionSide(68.9, 1234000.0, 234500.0, 23000.0, 13.45,
                 OptionGreeks(-0.45, 0.0013, -14.5, 8.8, None))),
      OptionData(21750.0, "25-Jan-2024",
        OptionSide(95.4, 2345000.0, 567800.0, 123000.0, 13.05,
                 OptionGreeks(0.5, 0.0015, -17.8, 10.2, None)),
        OptionSide(94.85, 2123000.0, 456700.0, 89000.0, 13.25,
                 OptionGreeks(-0.5, 0.0015, -17.5, 10.0, None))),
      OptionData(21800.0, "25-Jan-2024",
        OptionSide(68.25, 1876000.0, 345600.0, 56000.0, 13.42,
                 OptionGreeks(0.42, 0.0014, -16.3, 9.5, None)),
        OptionSide(135.6, 1654000.0, 278900.0, 34000.0, 13.68,
                 OptionGreeks(-0.58, 0.0013, -15.9, 9.3, None))),
      OptionData(21900.0, "25-Jan-2024",
        OptionSide(38.75, 1345000.0, 189400.0, 23000.0, 13.95,
                 OptionGreeks(0.28, 0.0011, -13.7, 7.8, None)),
        OptionSide(198.4, 1123000.0, 156700.0, -8000.0, 14.25,
                 OptionGreeks(-0.72, 0.001, -13.2, 7.5, None)))
    ])

  const MockBankNiftyOptionsData: OptionsChainData := OptionsChainData(
    "BANK NIFTY", 46125.85,
    ["25-Jan-2024", "01-Feb-2024", "08-Feb-2024"],
    46100.0,
    [
      OptionData(45900.0, "25-Jan-2024",
        OptionSide(412.3, 987000.0, 145600.0, 34000.0, 14.82,
                 OptionGreeks(0.72, 0.0009, -18.5, 12.4, None)),
        OptionSide(156.75, 754000.0, 98700.0, -8000.0, 15.31,
                 OptionGreeks(-0.28, 0.0008, -16.2, 11.8, None))),
      OptionData(46000.0, "25-Jan-2024",
        OptionSide(298.6, 1234000.0, 234500.0, 56000.0, 15.15,
                 OptionGreeks(0.61, 0.0011, -19.8, 13.6, None)),
        OptionSide(198.4, 987000.0, 167800.0, 12000.0, 15.64,
                 OptionGreeks(-0.39, 0.001, -18.1, 13.2, None))),
      OptionData(46100.0, "25-Jan-2024",
        OptionSide(215.8, 1876000.0, 345600.0, 89000.0, 15.48,
                 OptionGreeks(0.5, 0.0012, -21.3, 14.8, None)),
        OptionSide(213.25, 1654000.0, 298700.0, 67000.0, 15.72,
                 OptionGreeks(-0.5, 0.0012, -21.0, 14.5, None))),
      OptionData(46200.0, "25-Jan-2024",
        OptionSide(156.9, 1456000.0, 256700.0, 45000.0, 15.89,
                 OptionGreeks(0.41, 0.0011, -19.7, 13.9, None)),
        OptionSide(284.5, 1234000.0, 189400.0, 23000.0, 16.15,
                 OptionGreeks(-0.59, 0.001, -18.9, 13.4, None))),
      OptionData(46300.0, "25-Jan-2024",
        OptionSide(98.45, 1123000.0, 134500.0, 18000.0, 16.34,
                 OptionGreeks(0.29, 0.0009, -17.2, 12.1, None)),
        OptionSide(378.9, 987000.0, 123400.0, -6000.0, 16.68,
                 OptionGreeks(-0.71, 0.0008, -16.5, 11.7, None)))
    ])

  const MockFinServicesOptionsData: OptionsChainData := OptionsChainData(
    "NIFTY FIN SERVICES", 19845.3,
    ["25-Jan-2024", "01-Feb-2024", "08-Feb-2024"],
    19850.0,
    [
      OptionData(19700.0, "25-Jan-2024",
        OptionSide(234.6, 756000.0, 98700.0, 23000.0, 13.92,
                 OptionGreeks(0.7, 0.001, -16.8, 9.8, None)),
        OptionSide(78.4, 543000.0, 67800.0, -5000.0, 14.28,
                 OptionGreeks(-0.3, 0.0009, -14.5, 9.2, None))),
      OptionData(19800.0, "25-Jan-2024",
        OptionSide(165.9, 987000.0, 145600.0, 34000.0, 14.18,
                 OptionGreeks(0.58, 0.0012, -17.9, 10.6, None)),
        OptionSide(112.3, 765000.0, 98700.0, 8000.0, 14.56,
                 OptionGreeks(-0.42, 0.0011, -16.3, 10.1, None))),
      OptionData(19850.0, "25-Jan-2024",
        OptionSide(126.75, 1345000.0, 234500.0, 56000.0, 14.45,
                 OptionGreeks(0.5, 0.0013, -18.9, 11.4, None)),
        OptionSide(125.8, 1234000.0, 198700.0, 45000.0, 14.62,
                 OptionGreeks(-0.5, 0.0013, -18.6, 11.2, None))),
      OptionData(19900.0, "25-Jan-2024",
        OptionSide(89.6, 1123000.0, 167800.0, 28000.0, 14.78,
                 OptionGreeks(0.39, 0.0012, -17.4, 10.5, None)),
        OptionSide(178.45, 987000.0, 134500.0, 15000.0, 15.04,
                 OptionGreeks(-0.61, 0.0011, -16.8, 10.2, None))),
      OptionData(20000.0, "25-Jan-2024",
        OptionSide(54.25, 876000.0, 98700.0, 12000.0, 15.15,
                 OptionGreeks(0.26, 0.001, -15.2, 9.1, None)),
        OptionSide(245.9, 754000.0, 89600.0, -4000.0, 15.48,
                 OptionGreeks(-0.74, 0.0009, -14.7, 8.8, None)))
    ])

  /** A consistent index quote: the change is measured from the previous
      close, and the open and the value lie within the day's range. */
  predicate ConsistentIndex(q: IndexData)
  {
    && q.change == q.value - q.prevClose
    && q.low <= q.open <= q.high
    && q.low <= q.value <= q.high
  }

  lemma MockIndicesConsistent()
    ensures forall i :: 0 <= i < |MockIndicesData| ==> ConsistentIndex(MockIndicesData[i])
  {
  }

  /** Non-increasing change percentage: the order of a gainers list. */
  predicate DescendingByChange(s: seq<StockMover>)
  {
    forall i, j :: 0 <= i < j < |s| ==> s[i].changePercent >= s[j].changePercent
  }

  /** Non-decreasing change percentage: the order of a losers list. */
  predicate AscendingByChange(s: seq<StockMover>)
  {
    forall i, j :: 0 <= i < j < |s| ==> s[i].changePercent <= s[j].changePercent
  }

  lemma MockMoversOrdered()
    ensures DescendingByChange(MockTopGainers) && |MockTopGainers| == 5
    ensures AscendingByChange(MockTopLosers) && |MockTopLosers| == 5
  {
  }

  /** A consistent chain: strikes strictly ascend, the ATM strike is one of
      them, and every put delta is the call delta minus one. */
  predicate ConsistentChain(c: OptionsChainData)
  {
    && (forall i, j :: 0 <= i < j < |c.options| ==> c.options[i].strikePrice < c.options[j].strikePrice)
    && (exists i :: 0 <= i < |c.options| && c.options[i].strikePrice == c.atmStrike)
    && (forall i :: 0 <= i < |c.options| ==>
          c.options[i].put.greeks.delta == c.options[i].call.greeks.delta - 1.0)
  }

  lemma MockNiftyChainConsistent()
    ensures ConsistentChain(MockOptionsData)
  {
    assert MockOptionsData.options[2].strikePrice == MockOptionsData.atmStrike;
  }

  lemma MockBankNiftyChainConsistent()
    ensures ConsistentChain(MockBankNiftyOptionsData)
  {
    assert MockBankNiftyOptionsData.options[2].strikePrice == MockBankNiftyOptionsData.atmStrike;
  }

  lemma MockFinServicesChainConsistent()
    ensures ConsistentChain(MockFinServicesOptionsData)
  {
    assert MockFinServicesOptionsData.options[2].strikePrice == MockFinServicesOptionsData.atmStrike;
  }
}
