# Portfolio site and options-trading agents — a Dafny model

This project models the logic core of a personal portfolio website and of the options-trading research system it showcases. On the web side, that means:

- the Black–Scholes pricer (`lib/blackScholes.ts`);
- the market API routes for indices, top movers, option chains and expiry dates;
- the demo route that picks a strategy and builds its payoff (`app/api/projects/rag-trading/run/route.ts`);
- the trading page that reveals the agents' steps and plots the payoff;
- the mock market data and blog helpers (`lib/marketData.ts`, `lib/blogData.ts`);
- the zoomable travel map.

On the Python side, it covers the quant engine (sigma bands, Greeks, chain builder), the option-chain client with its mock chain, the LLM client, the four agents (strategist, executor, risk manager, position monitor) and the script that renames the hero-animation frames.

Pure code becomes datatypes, functions and lemmas. State that the source changes step by step becomes classes with `modifies` clauses, or methods with loops proved against specification functions. Some parts come from outside the program and are parameters or inputs, each with only the facts the code relies on:

- quotes;
- LLM replies;
- JSON decoding outcomes;
- regular-expression hits;
- `Math.random` draws;
- the transcendental functions;
- number and date formatting.

Reals are exact and dates are day numbers counted from 1 January 1970.

Files:

- `util.dfy`, `real_math.dfy`: shared strings, Option/Result, rounding (JavaScript `Math.round`, Python `round`, `int()`), transcendentals.
- `black_scholes.dfy`, `market_data.dfy`, `blog_data.dfy`: the front-end libraries.
- `movers.dfy`, `indices.dfy`, `options_route.dfy`, `expiry_route.dfy`, `rag_run.dfy`: the API routes.
- `rag_page.dfy`, `travel.dfy`: the two stateful pages.
- `nearest.dfy`, `sigma_calculator.dfy`, `normal_pricing.dfy`, `greeks.dfy`, `option_chain_builder.dfy`: the quant engine.
- `option_chain_client.dfy`, `llm_client.dfy`: the integration layer.
- `strategist.dfy`, `executor.dfy`, `risk_manager.dfy`, `position_monitor.dfy`: the agents.
- `rename_images.dfy`: the frame-renaming script.

## Model

| member | source | states |
|---|---|---|
| BlackScholes.Pdf | lib/blackScholes.ts:15-17 | the standard normal density is positive at every point |
| BlackScholes.Intrinsic | lib/blackScholes.ts:53 | the degenerate price is max(0, S − K) for a call and max(0, K − S) for a put, never negative |
| BlackScholes.CalculateBlackScholes | lib/blackScholes.ts:42-96 | when T ≤ 0 or sigma ≤ 0 the result is the intrinsic value with all five Greeks 0, so the price is never negative there |
| BlackScholes.CdfSymmetric | lib/blackScholes.ts:7-12 | the polynomial approximation is point-symmetric away from 0: cdf(−x) = 1 − cdf(x) for every x ≠ 0 |
| BlackScholes.CdfAtZero | lib/blackScholes.ts:7-12 | at x = 0 the approximation returns 0.3989422804014337 × 1.253314136 < 0.5, so the symmetry fails exactly there |
| BlackScholes.DegenerateBranch | lib/blackScholes.ts:51-56 | with T ≤ 0 or sigma ≤ 0 the call is (max(0, S − K), zero Greeks) and the put (max(0, K − S), zero Greeks) |
| BlackScholes.PriceParity | lib/blackScholes.ts:70-80 | the call formula minus the put formula is S − K·e^(−rT) whenever d1 and d2 are non-zero |
| BlackScholes.PutCallParity | lib/blackScholes.ts:58-80 | put-call parity of calculateBlackScholes: CALL price − PUT price = S − K·exp(−rT) in the non-degenerate branch, d1, d2 ≠ 0 |
| BlackScholes.DeltaRelation | lib/blackScholes.ts:51-77 | PUT delta = CALL delta − 1 in the non-degenerate branch; both 0 otherwise |
| BlackScholes.GammaVegaKindIndependent | lib/blackScholes.ts:82-84 | gamma and vega are the same for a call and a put |
| BlackScholes.RhoThetaDifferences | lib/blackScholes.ts:73-79 | CALL rho − PUT rho = K·T·e^(−rT) and CALL theta − PUT theta = −r·K·e^(−rT)/365 (d2 ≠ 0) |
| BlackScholes.GammaVegaPositive | lib/blackScholes.ts:83-84 | for a positive spot, gamma and vega are positive in the non-degenerate branch |
| BlogData.CategoryKey | lib/blogData.ts:5-27 | every post's category is one of the two keys of `blogCategories` |
| BlogData.CategoryKeyInjective | lib/blogData.ts:5-27 | two categories have the same key exactly when they are the same category |
| BlogData.BlogPostsHaveDistinctSlugs | lib/blogData.ts:29-344 | no two posts of the catalogue share a slug |
| BlogData.ByCategory | lib/blogData.ts:346-348 | the filtered list is never longer than the catalogue |
| BlogData.ByCategoryMembers | lib/blogData.ts:346-348 | a post is returned for a category exactly when it is in the list and its category is that key |
| BlogData.UnknownCategoryEmpty | lib/blogData.ts:346-348 | a category string naming neither category returns no post |
| BlogData.ByCategoryAppend | lib/blogData.ts:346-348 | the filter keeps list order: filtering a + b is filtering a followed by filtering b |
| BlogData.CategoryCountsSum | lib/blogData.ts:5-348 | the two category pages together list every post exactly once (their lengths sum to the catalogue's) |
| BlogData.BlogBySlug | lib/blogData.ts:350-352 | `find` returns nothing exactly when no post has the slug, otherwise the first post that has it |
| BlogData.SlugFindsPost | lib/blogData.ts:350-352 | with distinct slugs, looking up a post's slug returns that post |
| BlogData.EveryPostHasItsPage | lib/blogData.ts:29-352 | every post of the catalogue is found by its own slug |
| BlogData.FeaturedBlogs | lib/blogData.ts:354-356 | `slice(0, count)` is a prefix of the list of length min(count, n) for count ≥ 0, and n + count clamped at 0 for a negative count |
| BlogData.FeaturedGrows | lib/blogData.ts:354-356 | a smaller non-negative count gives a prefix of a larger one's result, and every featured post is a catalogue post |
| BlogData.DefaultFeaturedPosts | lib/blogData.ts:29-356 | with the default count 3 the home page features three project-management posts, the first "top-10-project-manager-qualities" |
| Executor.PlanStrikes | Project/RAG_Production/src/agents/executor.py:28-51 | "Short Straddle" sells both legs at the ATM strike, "Iron Fly" at the ATM strike with 300-point wings, any other name takes the sigma strangle, which fails exactly when the days are negative |
| Executor.LegsToProcess | Project/RAG_Production/src/agents/executor.py:55-64 | the legs are sell CE at the call strike, sell PE at the put strike, plus two buy legs exactly for "Iron Fly" (4 legs, else 2) |
| Executor.IronFlyWings | Project/RAG_Production/src/agents/executor.py:37-64 | an iron fly sells both legs at the ATM strike and buys the call 300 above and the put 300 below |
| Executor.RowAt | Project/RAG_Production/src/agents/executor.py:79 | the row at a strike is absent exactly when no chain row lists it, otherwise a chain row at that strike |
| Executor.ResolvedLeg | Project/RAG_Production/src/agents/executor.py:73-96 | a resolved leg keeps side and action, carries the lot size, sits at a listed strike nearest the target and names the non-empty symbol listed there; it is dropped exactly when that symbol is empty |
| Executor.ResolveAll | Project/RAG_Production/src/agents/executor.py:73-96 | never more final legs than requested legs |
| Executor.ResolveAllAppend | Project/RAG_Production/src/agents/executor.py:73-96 | legs are resolved one by one: the final legs keep the order of the requests |
| Executor.NothingDropped | Project/RAG_Production/src/agents/executor.py:82-96 | when every row has both symbols, every requested leg appears in the order |
| Executor.ResolveLegs | Project/RAG_Production/src/agents/executor.py:66-96 | the loop over the legs yields exactly the legs resolved in order, with `get_lot_size(symbol)` as quantity |
| Executor.ExecuteOrder | Project/RAG_Production/src/agents/executor.py:6-113 | no market data gives the error reply; a failing strangle or a missing/empty chain raises; otherwise a COMBINATION order of the strategy, its resolved legs and the strike plan |
| ExpiryRoute.Accumulate | app/api/market/expiry/route.ts:35-44 | the `data` handlers leave the concatenation of all chunks in arrival order |
| ExpiryRoute.JsSubstring | app/api/market/expiry/route.ts:55 | `substring` clamps both bounds to the string and swaps them when the first exceeds the second; the result is the characters between them |
| ExpiryRoute.Extract | app/api/market/expiry/route.ts:49-63 | the cut fails exactly when a marker is missing, with "No JSON output found. Logs: " followed by the whole output |
| ExpiryRoute.ExtractBounds | app/api/market/expiry/route.ts:49-55 | with both markers present the text between the first start marker's end and the first end marker is parsed; an end marker found earlier makes `substring` swap its bounds |
| ExpiryRoute.OverlappingMarkers | app/api/market/expiry/route.ts:49-55 | the markers can overlap: on "__JSON_START__JSON_END__" the parsed text is "__" |
| ExpiryRoute.PayloadRoundTrip | app/api/market/expiry/route.ts:19-55 | printing a payload between the markers (no underscore before the start marker or in the payload) and cutting it out gives back the payload |
| ExpiryRoute.Settle | app/api/market/expiry/route.ts:46-74 | the timer rejects with "Python execution timeout"; a non-zero or missing exit code rejects with the code and the stderr text; a resolution needs a clean exit, both markers and a successful parse |
| ExpiryRoute.Respond | app/api/market/expiry/route.ts:76-91 | status 200 exactly for a success; a success exactly when a non-null value without a truthy `error` arrived, listing its expiries or none; a truthy `error` becomes the 500 body's message |
| ExpiryRoute.Get | app/api/market/expiry/route.ts:5-92 | the reply is the envelope of the settled promise over the concatenated stdout and stderr |
| ExpiryRoute.SuccessNeedsCleanRun | app/api/market/expiry/route.ts:46-83 | a success reply implies no timeout, exit code 0 and both markers printed |
| Nearest.ClosestIndex | Project/RAG_Production/src/quant_engine/sigma_calculator.py:62 | `min(xs, key=abs(x − target))` settles on an index at the least distance, with every earlier element strictly farther |
| Nearest.Closest | Project/RAG_Production/src/agents/executor.py:76 | the chosen strike is one of the listed strikes and no listed strike is nearer to the target |
| Nearest.ClosestIndexUnique | Project/RAG_Production/src/quant_engine/sigma_calculator.py:62 | the first index at the least distance is the one `min` returns (ties go to the earliest) |
| Nearest.ExactHit | Project/RAG_Production/src/quant_engine/sigma_calculator.py:62 | a target that is itself listed is returned unchanged |
| NormalPricing.PriceParity | Project/RAG_Production/src/quant_engine/greeks.py:23-32 | with a symmetric normal distribution, call price − put price = S − K·exp(−rT) at every d1, d2 |
| Greeks.CalculateGreeks | Project/RAG_Production/src/quant_engine/greeks.py:7-43 | at or past expiry every value is 0; otherwise price, delta, gamma, theta and vega are the Black-Scholes values at T = days/365, v = iv/100, rounded to 2, 4, 6, 4 and 4 places |
| Greeks.OtherTypesArePuts | Project/RAG_Production/src/quant_engine/greeks.py:23-32 | any option type other than "CE" gives the same result as "PE" |
| Greeks.GammaVegaShared | Project/RAG_Production/src/quant_engine/greeks.py:34-35 | gamma and vega do not depend on the option type |
| Greeks.RawDeltaRelation | Project/RAG_Production/src/quant_engine/greeks.py:25-30 | before rounding, put delta = call delta − 1 |
| Greeks.RawParity | Project/RAG_Production/src/quant_engine/greeks.py:24-29 | before rounding, call and put prices satisfy put-call parity at the 7% rate |
| Greeks.RawGammaVegaPositive | Project/RAG_Production/src/quant_engine/greeks.py:34-35 | for a positive spot gamma and vega are positive before rounding |
| SigmaCalculator.CalculateRange | Project/RAG_Production/src/quant_engine/sigma_calculator.py:3-8 | the range exists exactly for non-negative days (`math.sqrt` raises otherwise) and is non-negative for non-negative spot and IV |
| SigmaCalculator.RoundToNearestIsNearest | Project/RAG_Production/src/quant_engine/sigma_calculator.py:10-12 | in units of `base` the result is the whole number nearest to value/base, a tie going to the even one |
| SigmaCalculator.RoundToNearestMonotone | Project/RAG_Production/src/quant_engine/sigma_calculator.py:10-12 | rounding to a positive grid never reverses the order of two values |
| SigmaCalculator.BoundsAroundSpot | Project/RAG_Production/src/quant_engine/sigma_calculator.py:25-29 | with non-negative inputs the upper bound is at or above the spot and the lower bound at or below it |
| SigmaCalculator.GetStrangleStrikes | Project/RAG_Production/src/quant_engine/sigma_calculator.py:14-41 | fails exactly for negative days; the call and put strikes are spot ± range·sigma_mult rounded to 50, and sigma_mult is echoed |
| SigmaCalculator.GetAtmStrike | Project/RAG_Production/src/quant_engine/sigma_calculator.py:43-45 | the ATM strike is a multiple of 50 |
| SigmaCalculator.StrangleAroundAtm | Project/RAG_Production/src/quant_engine/sigma_calculator.py:14-45 | with non-negative inputs the call strike is at or above the ATM strike and the put strike at or below it |
| SigmaCalculator.ZeroSigmaIsStraddle | Project/RAG_Production/src/quant_engine/sigma_calculator.py:14-45 | with sigma_mult 0 both strikes are the ATM strike |
| SigmaCalculator.FindClosestAvailableStrike | Project/RAG_Production/src/quant_engine/sigma_calculator.py:47-63 | without listed strikes the target rounded to `base`; otherwise the first nearest listed strike truncated by `int()` |
| SigmaCalculator.ClosestAvailableIsListed | Project/RAG_Production/src/quant_engine/sigma_calculator.py:61-63 | for whole-number listed strikes the result is listed and no listed strike is nearer the target |
| Indices.Entry | app/api/market/indices/route.ts:53-70 | the entry takes id and name from `SYMBOL_MAP` and each price field from the quote, 0 when absent or zero |
| Indices.CollectIndices | app/api/market/indices/route.ts:49-72 | the `forEach` pushes, in order, one entry per result that has a quote, no error and a mapped symbol |
| Indices.CollectedTraced | app/api/market/indices/route.ts:51-72 | every collected entry is the entry of a producing result, and the entries follow the order of the results |
| Indices.CollectedLength | app/api/market/indices/route.ts:51-72 | there is one entry per producing result, so never more than requests, and none exactly when no result produces |
| Indices.FetchLiveIndices | app/api/market/indices/route.ts:28-80 | the live list is the collected entries of the four requests, at most four of them |
| Indices.Get | app/api/market/indices/route.ts:82-116 | always `success: true`; a non-empty live list is served as "live"; an empty one gives the mock data as "mock"; a throw gives the mock data with "Failed to fetch live data" |
| Indices.GetNeverEmpty | app/api/market/indices/route.ts:82-104 | the served data is never empty, and it is "live" exactly when some request produced an entry |
| Indices.SymbolTables | app/api/market/indices/route.ts:8-34 | every requested symbol is mapped, the small-cap symbol is not, and every other configured symbol maps back to its own id |
| LlmClient.SelectionRules | Project/RAG_Production/src/integration/llm_client.py:44-63 | Groq is used exactly when asked for and available, with the caller's model or "llama-3.3-70b-versatile"; asked for but unavailable, OpenAI with "gpt-4-turbo" whatever model was named; any other provider, OpenAI with the caller's model or "gpt-4-turbo"; no client, no selection; a chosen model is never empty |
| LlmClient.LlmClients.constructor | Project/RAG_Production/src/integration/llm_client.py:8-32 | a client exists exactly when its key is set (non-empty) and constructing it did not fail |
| LlmClient.LlmClients.QueryLlm | Project/RAG_Production/src/integration/llm_client.py:34-80 | without a client the reply is the "Error: No LLM Client initialized" text; otherwise the chosen client's reply, or "Error calling LLM: " followed by the exception's message |
| LlmClient.FailuresStartWithError | Project/RAG_Production/src/integration/llm_client.py:60-80 | both failure replies begin with, and so contain, "Error" |
| MarketData.FormatCurrency | lib/marketData.ts:488-490 | the text is the rupee sign followed by exactly the locale-formatted number |
| MarketData.FormatPercentage | lib/marketData.ts:492-495 | the text always ends in '%'; a non-negative number gets a leading '+', a negative one gets no added sign |
| MarketData.PercentageSign | lib/marketData.ts:492-495 | with a toFixed-like formatter (never emits a leading '+'), the text starts with '+' exactly when the number is ≥ 0, so zero shows as "+…%" |
| MarketData.TrendOf | lib/marketData.ts:497-507 | the three-way split of a change: Up iff > 0, Down iff < 0, Flat iff = 0 |
| MarketData.GetChangeColor | lib/marketData.ts:497-501 | green text for a rise, red for a fall, muted white for no change |
| MarketData.GetChangeBgColor | lib/marketData.ts:503-507 | green/emerald gradient for a rise, red/rose for a fall, gray/slate for no change |
| MarketData.ColoursAgree | lib/marketData.ts:497-507 | two changes get the same text colour iff they have the same trend, and likewise the same background, so the two helpers always agree |
| MarketData.MockIndicesConsistent | lib/marketData.ts:62-135 | every mock index quote has change = value − previous close and its open and value inside the day's low–high range |
| MarketData.MockMoversOrdered | lib/marketData.ts:137-151 | the five mock gainers are in non-increasing and the five mock losers in non-decreasing order of change percentage |
| MarketData.MockNiftyChainConsistent | lib/marketData.ts:153-260 | the NIFTY mock chain has strictly ascending strikes, contains its ATM strike, and every put delta is the call delta minus one |
| MarketData.MockBankNiftyChainConsistent | lib/marketData.ts:262-369 | the same consistency for the BANKNIFTY mock chain |
| MarketData.MockFinServicesChainConsistent | lib/marketData.ts:371-478 | the same consistency for the FINNIFTY mock chain |
| Movers.ToMover | app/api/market/movers/route.ts:31-38 | the symbol loses its first ".NS"; the name falls back short name → long name → raw symbol; each missing or zero number becomes 0 |
| Movers.MapQuotes | app/api/market/movers/route.ts:31-38 | one mover per quote, in the same order |
| Movers.Insert | app/api/market/movers/route.ts:41 | inserting one mover adds exactly that mover to the multiset of the list |
| Movers.InsertDescending | app/api/market/movers/route.ts:41 | inserting into a list in non-increasing change percentage keeps it non-increasing |
| Movers.SortByChange | app/api/market/movers/route.ts:41 | the sorted copy is a permutation of the movers, in non-increasing change percentage |
| Movers.ReverseInPlace | app/api/market/movers/route.ts:44 | reversing the array in place leaves it equal to the reverse of its old contents |
| Movers.SelectMovers | app/api/market/movers/route.ts:40-44 | gainers are the first five of the sorted list; losers are the first five of that list reversed |
| Movers.Get | app/api/market/movers/route.ts:22-69 | with quotes, a live response holding the selected gainers and losers; with no quotes or a failed request, success with the mock lists, source "mock" and the error text |
| Movers.GainersAreTop | app/api/market/movers/route.ts:41-43 | at most five gainers (exactly min(n, 5)), drawn from the movers, non-increasing, each at least every mover not chosen |
| Movers.LosersAreBottom | app/api/market/movers/route.ts:41-44 | exactly min(n, 5) losers, drawn from the movers, non-decreasing, each at most every mover not chosen |
| Movers.TakeReversed | app/api/market/movers/route.ts:44 | the first k of the reversed list are the last k of the list, reversed |
| Movers.ReversedMultiset | app/api/market/movers/route.ts:44 | reversing keeps the multiset of movers |
| Movers.DisjointWhenTenOrMore | app/api/market/movers/route.ts:43-44 | from ten movers on, no mover is both a gainer and a loser: the two lists together are a sub-multiset of the movers |
| Movers.LosersReverseGainersWhenFew | app/api/market/movers/route.ts:43-44 | with five movers or fewer the losers are exactly the gainers in reverse order |
| OptionChainBuilder.EarliestExpiry | Project/RAG_Production/src/quant_engine/option_chain_builder.py:28-36 | none exactly when the symbol has no contract expiring at or after now; otherwise an expiry of such a contract that is no later than any other |
| OptionChainBuilder.ExpiringMembers | Project/RAG_Production/src/quant_engine/option_chain_builder.py:23-43 | a row is kept exactly when it is the five-column projection of an instrument of the symbol with that expiry |
| OptionChainBuilder.GetOptionChainData | Project/RAG_Production/src/quant_engine/option_chain_builder.py:5-43 | an error exactly when the instrument list is empty; otherwise an empty chain exactly when there is no live expiry for the symbol |
| OptionChainBuilder.ChainIsNearestExpiry | Project/RAG_Production/src/quant_engine/option_chain_builder.py:30-43 | a non-empty chain holds every contract of the symbol at the nearest live expiry and nothing else |
| OptionChainBuilder.GetExpiryDate | Project/RAG_Production/src/quant_engine/option_chain_builder.py:55-63 | none exactly for an empty chain, else the first row's expiry |
| OptionChainBuilder.ExpiryOfBuiltChain | Project/RAG_Production/src/quant_engine/option_chain_builder.py:55-63 | on a built chain the reported expiry is the nearest live one and every row shares it |
| OptionChainBuilder.KnownLotSize | Project/RAG_Production/src/quant_engine/option_chain_builder.py:70-92 | the fallback table (NIFTY 50, BANKNIFTY 15, FINNIFTY 40, MIDCPNIFTY 75, otherwise 50) is always positive |
| OptionChainBuilder.FirstOf | Project/RAG_Production/src/quant_engine/option_chain_builder.py:82-85 | none exactly when no instrument has the symbol; otherwise the earliest-listed one that does |
| OptionChainBuilder.GetLotSize | Project/RAG_Production/src/quant_engine/option_chain_builder.py:65-92 | the first listed instrument's lot size when the request succeeds and that size is non-zero, else the fallback table |
| OptionChainBuilder.LotSizePositive | Project/RAG_Production/src/quant_engine/option_chain_builder.py:65-92 | when the broker never lists a negative lot size the lot size returned is positive |
| OptionChainBuilder.OfType | Project/RAG_Production/src/quant_engine/option_chain_builder.py:105 | a row is kept exactly when it is in the chain and has the option type |
| OptionChainBuilder.FindClosestStrikeInChain | Project/RAG_Production/src/quant_engine/option_chain_builder.py:94-118 | an error "No <type> options found in chain" exactly when no row has the type; otherwise a row of that type at least distance from the target, its strike truncated to an integer |
| OptionChainBuilder.FirstOnTies | Project/RAG_Production/src/quant_engine/option_chain_builder.py:111-112 | among equally near rows the first listed wins: every earlier row of the type is strictly farther |
| OptionChainClient.BlackScholesPrice | Project/RAG_Production/src/integration/option_chain_client.py:98-115 | the price is never below the 0.05 tick, never below the theoretical value, and is one of the two |
| OptionChainClient.NonCallIsPut | Project/RAG_Production/src/integration/option_chain_client.py:110-113 | any option type other than "CE" is priced exactly as a put |
| OptionChainClient.TickedParity | Project/RAG_Production/src/integration/option_chain_client.py:107-115 | where neither price is lifted to the tick, call − put = S − K·e^(−rT) |
| OptionChainClient.DaysUntilThursday | Project/RAG_Production/src/integration/option_chain_client.py:143-145 | between 1 and 7 days, landing on a Thursday with no Thursday strictly in between (a full week on a Thursday) |
| OptionChainClient.WeekdayShift | Project/RAG_Production/src/integration/option_chain_client.py:143 | the weekday k days on is the weekday shifted by k modulo 7 |
| OptionChainClient.TimeToExpiry | Project/RAG_Production/src/integration/option_chain_client.py:150-151 | the time to expiry lies between 1/365 and 7/365 of a year |
| OptionChainClient.MockAtmIsQuantAtm | Project/RAG_Production/src/integration/option_chain_client.py:157 | the generated chain's ATM strike equals the quant engine's ATM strike and is the multiple of 50 within 25 points of the spot |
| OptionChainClient.StrikeLadder | Project/RAG_Production/src/integration/option_chain_client.py:157-161 | the ladder runs from ATM − 1000 to ATM + 1000 with the ATM strike in the middle; its lowest strike is positive exactly when spot/50 > 20.5 |
| OptionChainClient.SymbolsDifferInSuffix | Project/RAG_Production/src/integration/option_chain_client.py:167-169 | the call and put symbols of a strike are equal but for their last two characters, "CE" and "PE" |
| OptionChainClient.SymbolsIdentifyStrike | Project/RAG_Production/src/integration/option_chain_client.py:167-169 | within one underlying, expiry and type, equal symbols mean equal strikes |
| OptionChainClient.Smile | Project/RAG_Production/src/integration/option_chain_client.py:171-181 | for a positive spot neither volatility is below the index's; the call side is raised exactly above the spot, the put side exactly below it |
| OptionChainClient.OiRange | Project/RAG_Production/src/integration/option_chain_client.py:182-183 | open interest lies between 0 and 1,000,000 |
| OptionChainClient.RowRules | Project/RAG_Production/src/integration/option_chain_client.py:160-187 | every generated row keeps the smile, has equal in-range call and put open interest and distinct call and put symbols |
| OptionChainClient.Ladder | Project/RAG_Production/src/integration/option_chain_client.py:160-187 | the generated chain has 41 rows |
| OptionChainClient.MockChainShape | Project/RAG_Production/src/integration/option_chain_client.py:155-196 | 41 strikes ascending in steps of 50, centred on the ATM strike, with no call symbol and no put symbol repeated |
| OptionChainClient.BuildRow | Project/RAG_Production/src/integration/option_chain_client.py:161-187 | one loop iteration produces the row for that strike |
| OptionChainClient.BuildLadder | Project/RAG_Production/src/integration/option_chain_client.py:155-187 | the loop over range(−20, 21) produces exactly the 41-row ladder, lowest strike first |
| OptionChainClient.GenerateMockChain | Project/RAG_Production/src/integration/option_chain_client.py:117-196 | the chain uses the caller's spot, else the live close, else 25200; the live VIX, else 13.5; and expires on the next Thursday |
| OptionChainClient.MockChainOfParts | Project/RAG_Production/src/integration/option_chain_client.py:191-196 | the returned dictionary is assembled from the expiry day and the ladder |
| OptionChainClient.FetchOptionChain | Project/RAG_Production/src/integration/option_chain_client.py:5-93 | with a non-empty expiry listing, only the symbol and nearest expiry; with an empty one or a failure, the generated chain |
| OptionsRoute.JsDay | app/api/market/options/route.ts:29 | the weekday number is always in 0..6 |
| OptionsRoute.NextThursday | app/api/market/options/route.ts:20-41 | the first Thursday on or after today: within a week, a Thursday, and no Thursday before it from today on |
| OptionsRoute.GetNextExpiries | app/api/market/options/route.ts:20-43 | exactly three labels: the next Thursday on or after today and the two following Thursdays one week apart, each formatted |
| OptionsRoute.WeekLater | app/api/market/options/route.ts:37 | a whole number of weeks after a Thursday is a Thursday |
| OptionsRoute.AtmStrikeNearest | app/api/market/options/route.ts:62 | in units of the step the ATM strike is a whole number within half a step of the spot, a half-way spot going up |
| OptionsRoute.LadderNext | app/api/market/options/route.ts:77 | adding one step moves the strike one position up the ladder |
| OptionsRoute.LadderTop | app/api/market/options/route.ts:66-77 | the loop condition k ≤ ATM + 8·step holds exactly for positions 0 to 16 |
| OptionsRoute.LadderAbovePositive | app/api/market/options/route.ts:62-66 | when the spot exceeds 8.5 steps every strike of the ladder is positive |
| OptionsRoute.GenerateChain | app/api/market/options/route.ts:59-113 | the chain carries the index name, spot, expiries and ATM strike and exactly 17 rows; row i is strike ATM − 8·step + i·step, positive, priced with the first expiry and its own pair of random draws |
| OptionsRoute.ChainRowsAppend | app/api/market/options/route.ts:77-103 | appending the next strike's row keeps the rows built so far equal to the ladder's |
| OptionsRoute.RowLiquidity | app/api/market/options/route.ts:90-99 | call open interest ≥ put open interest ≥ 0, with the call at most 2,000,000; likewise call volume ≥ put volume ≥ 0, the call at most 500,000 |
| OptionsRoute.ScaledFloors | app/api/market/options/route.ts:90-99 | damping two base quantities by the same factor in (0, 1] keeps their order, keeps both non-negative and keeps the larger within its base |
| OptionsRoute.ChangeInOIRange | app/api/market/options/route.ts:92-100 | for a draw in [0, 1) the change in open interest is a whole number in [−25000, 24999] |
| OptionsRoute.ImpliedVolatilityIsVix | app/api/market/options/route.ts:54-101 | both sides report the VIX value as implied volatility, or 13 when it is missing or zero |
| OptionsRoute.RowParity | app/api/market/options/route.ts:79-96 | the call and put premiums of a row satisfy put-call parity wherever d1 and d2 are not 0 |
| OptionsRoute.LadderShape | app/api/market/options/route.ts:64-77 | 17 strikes one step apart, from ATM − 8·step through the ATM strike to ATM + 8·step |
| OptionsRoute.Get | app/api/market/options/route.ts:45-132 | on any failure, success false, the error text and status 500; otherwise a NIFTY and a BANK NIFTY chain, each exactly what `generateChain` builds from its live spot and step, sigma the VIX (13 when missing or zero) over 100 and the three next-Thursday labels: its ATM strike, the 17 ladder rows with their premiums, each labelled with the first expiry, the first chain using the first 34 random draws and the second the rest; both sides echo the VIX volatility |
| PositionMonitor.PositionContext | Project/RAG_Production/src/agents/position_monitor.py:19-31 | with a log of more than one line (a header and at least one trade) the last line stripped, otherwise "No active positions found in log." |
| PositionMonitor.Prompt | Project/RAG_Production/src/agents/position_monitor.py:33-59 | the defaults only: the prompt's spot, IV and news fall back to 22000, 12 and "No news." when absent, and its position is the log context |
| PositionMonitor.MonitorPositions | Project/RAG_Production/src/agents/position_monitor.py:61-77 | a failed model call gives no adjustment and no analysis; otherwise the reply is the analysis and an adjustment is flagged exactly when the lower-cased reply contains "adjust" or "exit" |
| PositionMonitor.NegationStillFlags | Project/RAG_Production/src/agents/position_monitor.py:67 | the substring rule flags "No exit needed" as an adjustment |
| PositionMonitor.HoldDoesNotFlag | Project/RAG_Production/src/agents/position_monitor.py:67 | a reply of "HOLD" is not flagged |
| PositionMonitor.CaseInsensitive | Project/RAG_Production/src/agents/position_monitor.py:67 | a reply and its lower-cased form are flagged alike |
| RagPage.RevealShape | app/projects/rag-trading-system/page.tsx:61-67 | each reveal ends with the incoming step; after a "System" step it drops the first step shown (same length), otherwise it keeps every step shown (one longer) |
| RagPage.PlaceholderReplaced | app/projects/rag-trading-system/page.tsx:45-68 | the placeholder is replaced by the first real step; when no incoming step is a "System" one the page ends up showing exactly the steps received |
| RagPage.FirstReveal | app/projects/rag-trading-system/page.tsx:45-67 | the first reveal replaces the placeholder with the incoming step |
| RagPage.RevealNext | app/projects/rag-trading-system/page.tsx:61-67 | once the steps shown equal those received so far, revealing one more after a non-"System" step keeps them equal |
| RagPage.RunStepsShown | app/projects/rag-trading-system/page.tsx:54-68 | the four steps of a completed run are all shown, in order, once revealed |
| RagPage.SystemStepDropsFirst | app/projects/rag-trading-system/page.tsx:63-65 | a "System" step arriving after the placeholder has gone makes the next reveal drop the first step shown, not the "System" one |
| RagPage.MinOf | app/projects/rag-trading-system/page.tsx:93-95 | the minimum is one of the values and at most every value |
| RagPage.MaxOf | app/projects/rag-trading-system/page.tsx:94-96 | the maximum is one of the values and at least every value |
| RagPage.ScaleOf | app/projects/rag-trading-system/page.tsx:93-98 | minX is the least x and minY the least of the ys and 0; each range is max − min, or 1 when that span is 0, so both are positive; every point lies within the x and y ranges |
| RagPage.PayoffChart | app/projects/rag-trading-system/page.tsx:88-106 | nothing to draw exactly when there is no payoff data; otherwise one plotted point per payoff point |
| RagPage.ChartInView | app/projects/rag-trading-system/page.tsx:91-106 | every plotted point lies inside the 100 by 50 view box, and so does the zero line whenever some payoff is not negative |
| RagPage.ZeroLineInView | app/projects/rag-trading-system/page.tsx:95-106 | when some payoff is not negative the zero line's relative height lies in [0, 1] |
| RagPage.ChartKeepsOrder | app/projects/rag-trading-system/page.tsx:100-103 | a larger strike is plotted further right and a larger payoff higher up |
| RagPage.PlotKeepsX | app/projects/rag-trading-system/page.tsx:101 | the x mapping keeps order |
| RagPage.PlotKeepsY | app/projects/rag-trading-system/page.tsx:102 | the y mapping inverts order, for SVG |
| RagPage.TradingPage.constructor | app/projects/rag-trading-system/page.tsx:25-33 | the page starts idle, with no steps, no results, no payoff data and strategy "Auto" |
| RagPage.TradingPage.SetStrategyMode | app/projects/rag-trading-system/page.tsx:150-154 | the selector sets the strategy to one of the four modes and changes nothing else |
| RagPage.TradingPage.RevealStep | app/projects/rag-trading-system/page.tsx:61-67 | one reveal sets the steps to the reveal of the old steps and changes nothing else |
| RagPage.TradingPage.RunAgentSystem | app/projects/rag-trading-system/page.tsx:35-81 | a run clears the previous one; on success the steps are the reveal of the returned steps and the results are those returned; on failure only the placeholder remains; the strategy is unchanged and the page is idle at the end |
| RagRun.TrendOf | app/api/projects/rag-trading/run/route.ts:20 | bullish exactly when the change percentage is positive |
| RagRun.Snapshot | app/api/projects/rag-trading/run/route.ts:17-20 | spot falls back to 22000 and VIX to 13 when absent or zero; the trend is bullish exactly when the change percentage (0 when absent) is positive |
| RagRun.Decide | app/api/projects/rag-trading/run/route.ts:28-45 | a manual override is taken as the strategy; under "Auto", VIX above 15 gives "Iron Fly", else a move above 1% gives "Bull Call Spread" or "Bear Put Spread" by direction, else "Short Strangle" |
| RagRun.RoundToStrike | app/api/projects/rag-trading/run/route.ts:48 | in units of 50 the strike is the whole number within half a unit of the price, halves going up |
| RagRun.Strikes | app/api/projects/rag-trading/run/route.ts:52-65 | straddles and iron flies sell both legs at the ATM strike; others sell 500 (VIX above 15) or 300 points either side of it |
| RagRun.BuildLegs | app/api/projects/rag-trading/run/route.ts:67-80 | a short call at the call strike and a short put at the put strike, then for hedged strategies a long call 200 above and a long put 200 below: four legs if hedged, else two |
| RagRun.Margin | app/api/projects/rag-trading/run/route.ts:88 | 60000 exactly when the name contains "Iron" or "Spread", else 125000 |
| RagRun.Risk | app/api/projects/rag-trading/run/route.ts:87-96 | the risk check always passes and carries that margin |
| RagRun.Intrinsic | app/api/projects/rag-trading/run/route.ts:110-112 | a call's intrinsic value is max(0, price − strike), a put's max(0, strike − price), never negative |
| RagRun.PnlAt | app/api/projects/rag-trading/run/route.ts:103-119 | the loop over the legs sums each leg's profit at that price: (intrinsic − premium)·qty for a buy, (premium − intrinsic)·qty for a sell |
| RagRun.PayoffGrid | app/api/projects/rag-trading/run/route.ts:98-121 | exactly 21 points; point i is at price ATM − 1000 + 100·i with the total profit of the legs there |
| RagRun.GridShape | app/api/projects/rag-trading/run/route.ts:101-102 | the grid runs from ATM − 1000 through ATM (the middle point) to ATM + 1000 in steps of 100 |
| RagRun.PayoffCap | app/api/projects/rag-trading/run/route.ts:67-121 | the plan never earns more than its net premium: 10000 unhedged, 8000 hedged |
| RagRun.PnlOfTwo | app/api/projects/rag-trading/run/route.ts:104-119 | the profit of two legs is the sum of their profits |
| RagRun.HedgeCovers | app/api/projects/rag-trading/run/route.ts:74-111 | a long call 200 further out is worth no more than the short one and at most 200 less |
| RagRun.HedgedLossFloor | app/api/projects/rag-trading/run/route.ts:73-121 | a hedged plan whose put strike is not above its call strike loses at most 2000 at any price |
| RagRun.Steps | app/api/projects/rag-trading/run/route.ts:125-150 | four completed steps numbered 1 to 4: Market Scanner, Market Researcher, Strategist, Risk Manager |
| RagRun.Post | app/api/projects/rag-trading/run/route.ts:6-169 | a failed quote request gives exactly the 500 failure; otherwise the snapshot, the decided plan with its legs, the risk check, the four steps and the 21-point payoff of those legs around the ATM strike |
| RagRun.AutoPlanHedging | app/api/projects/rag-trading/run/route.ts:36-88 | under "Auto" the plan is hedged exactly when VIX is above 15 or the market moved more than 1%, and it gets the lower margin exactly when hedged |
| RagRun.IronFlyHedged | app/api/projects/rag-trading/run/route.ts:73-88 | "Iron Fly" is hedged and gets the 60000 margin |
| RagRun.SpreadsHedged | app/api/projects/rag-trading/run/route.ts:73-88 | both spreads are hedged and get the 60000 margin |
| RagRun.StrangleNaked | app/api/projects/rag-trading/run/route.ts:73-88 | "Short Strangle" is not hedged and gets the 125000 margin |
| RiskManager.KeywordDecision | Project/RAG_Production/src/agents/risk_manager.py:62-73 | the fallback approves exactly when an approval word appears and no rejection word does; the verdict is always "approved" or "rejected" |
| RiskManager.ValidateOrder | Project/RAG_Production/src/agents/risk_manager.py:5-83 | no order gives exactly the "No order to validate." error; a failed model call gives "rejected" with "LLM Failure"; with a reply, a JSON decision string gives its lower-cased form, a missing decision gives "approved", a non-JSON reply gives the keyword verdict, each with the reply as the analysis; a decoded value that is not an object, or a decision that is not a string, gives "rejected" with "LLM Failure" |
| RiskManager.ApprovalNeedsConsent | Project/RAG_Production/src/agents/risk_manager.py:49-73 | an approval needs a reply that either is a JSON object whose decision is missing or reads "approved" in any case, or is not JSON and has an approval word but no rejection word |
| RiskManager.VerdictIgnoresCase | Project/RAG_Production/src/agents/risk_manager.py:57 | every JSON decision text is read as its lower-case form, so lower-casing it beforehand changes nothing |
| Strategist.RegexStrategy | Project/RAG_Production/src/agents/strategist.py:76-83 | no strategy exactly when no pattern matches; otherwise "Short Straddle" or "Short Strangle" |
| Strategist.AnalyzeStrategy | Project/RAG_Production/src/agents/strategist.py:5-115 | an override is taken as is with sigma 1.0 and the analysis skipped; a reply containing "Error" gives "Short Strangle" with sigma 1.0; otherwise a non-empty strategy with the reply as analysis; the constraints always match the strategy and the sentiment is the news |
| Strategist.OverrideIgnoresModel | Project/RAG_Production/src/agents/strategist.py:23-29 | with an override the decision does not depend on the model's reply |
| Strategist.JsonPathReads | Project/RAG_Production/src/agents/strategist.py:58-104 | a reply decoded as a JSON object whose sigma is missing or converts gives its strategy ("Short Strangle" when missing or empty), its sigma (1.0 when missing) and its rationale (the reply when missing), with the rules of that strategy, the news and the reply as analysis |
| Strategist.PatternPrecedence | Project/RAG_Production/src/agents/strategist.py:71-98 | a reply that is not JSON is read by the patterns in precedence order, defaulting to "Short Strangle"; sigma is the number after "sigma", else 1.0; the rationale is the reply |
| Strategist.JsonStrategySurvivesBadSigma | Project/RAG_Production/src/agents/strategist.py:65-83 | when float() rejects the JSON sigma with a ValueError the JSON strategy is kept unless a pattern names one, and the rationale is the reply |
| Strategist.WhenAnalysisRaises | Project/RAG_Production/src/agents/strategist.py:58-92 | the step raises exactly when there is no override, no "Error" in the reply, and the reply decodes to a non-object or to an object whose sigma float() rejects with a TypeError |
| Strategist.FailedQueryDefaults | Project/RAG_Production/src/agents/strategist.py:40-48 | a model call that failed, for want of a client or by raising, leads to "Short Strangle" with sigma 1.0 |
| Travel.ExactlyOneLevel | components/TravelSection.tsx:80-85 | every zoom is at exactly one of country, regional and city level |
| Travel.ZoomStaysInBounds | components/TravelSection.tsx:87-101 | from a zoom within [1, 80] both buttons stay within [1, 80]; each moves the zoom strictly unless it is at its bound, where it leaves it unchanged |
| Travel.ZoomOutUndoesZoomIn | components/TravelSection.tsx:87-101 | away from the upper cap, zooming out undoes zooming in |
| Travel.MapView.constructor | components/TravelSection.tsx:73 | the map starts at (70, 20) with zoom 1.5, within bounds and at country level |
| Travel.MapView.MoveEnd | components/TravelSection.tsx:75-188 | the position becomes the one the map reports, whose zoom the map keeps within [1, 80] |
| Travel.MapView.ZoomIn | components/TravelSection.tsx:87-93 | the zoom becomes one step in (capped at 80, unchanged at or above it), the centre is unchanged, and the bounds are kept |
| Travel.MapView.ZoomOut | components/TravelSection.tsx:95-101 | the zoom becomes one step out (floored at 1, unchanged at or below it), the centre is unchanged, and the bounds are kept |
| Travel.MapView.Radius | components/TravelSection.tsx:241 | the marker radius times the zoom is always 6, so the radius lies between 6/80 and 6 |
| Travel.DivisionBounds | components/TravelSection.tsx:241 | for a zoom in [1, 80], 6/zoom lies in [6/80, 6] |
| Travel.ClicksToEachLevel | components/TravelSection.tsx:73-93 | from the initial zoom, one "+" click stays at country level, the second and third are at regional level, and the fourth reaches city level |
| Travel.MarkerColour | components/TravelSection.tsx:245-247 | countries are purple, states lime, cities orange, and distinct kinds get distinct colours |
| Travel.Shown | components/TravelSection.tsx:107-120 | each location becomes one visible marker, in order |
| Travel.FilterId | components/TravelSection.tsx:112-120 | a location is kept exactly when its id equality with the given id matches the filter |
| Travel.BuildMarkers | components/TravelSection.tsx:103-125 | the markers are the places of the zoom's level in push order, all visible |
| Travel.Push | components/TravelSection.tsx:107-120 | a push appends the locations, all visible, after the markers already there |
| Travel.NotIndia | components/TravelSection.tsx:112 | filtering out "IN" leaves UAE, Bahrain and the Maldives |
| Travel.OnlyBahrain | components/TravelSection.tsx:120 | keeping "BH" leaves Bahrain alone |
| Travel.MarkerCounts | components/TravelSection.tsx:103-150 | 4 markers at country level, 14 at regional level, 18 at city level; India itself is not marked below country level; no place is marked twice |
| RenameImages.DigitRun | rename_images.py:7 | the run of digits starting at a position: all digits, and ending at the end of the name or at a non-digit |
| RenameImages.MatchIsUnique | rename_images.py:7 | the regular expression matches at a position with n digits exactly when the maximal digit run there is followed by "_" and has length n, so the captured group is unique |
| RenameImages.SearchFrom | rename_images.py:10 | the search returns the leftmost position where the pattern matches, or none when it matches nowhere |
| RenameImages.Group | rename_images.py:12 | the captured group is a non-empty run of digits |
| RenameImages.PadStart | rename_images.py:13 | the padded text has length max(length, width), ends with the original text and is filled in front with the pad character |
| RenameImages.RenamedIffMatch | rename_images.py:10-11 | a file is renamed exactly when the pattern occurs somewhere in its name |
| RenameImages.LeadingZeros | rename_images.py:12-13 | zeros in front of a run of digits do not change its value |
| RenameImages.FrameFileNameReadsBack | rename_images.py:12-13 | the new name is at least four digits then ".png", and its digits read back as the frame index (original leading zeros dropped, padding added) |
| RenameImages.FrameFileNameInjective | rename_images.py:13 | distinct indices give distinct new names |
| RenameImages.NoMatchWithoutF | rename_images.py:7 | a name without the letter "f" never matches |
| RenameImages.FrameFileNameUnmatched | rename_images.py:7-13 | a new name never matches the pattern, so running the script again leaves the renamed frames alone |
| RenameImages.MatchAtStart | rename_images.py:10-13 | a name starting with "frame_", digits and "_" is renamed after those digits |
| RenameImages.FramePartsAt | rename_images.py:7 | the positions of the prefix, digits and underscore in a composed name |
| RenameImages.FrameNameRead | rename_images.py:10-13 | "frame_" + digits + "_" + anything is renamed to the number those digits spell, padded, with ".png" |
| RenameImages.HeroFramesProvided | components/Hero.tsx:27-31 | every frame 0 to 119 the hero animation loads is produced by renaming an exported frame with that number, however it was padded |
| RenameImages.LexTotal | rename_images.py:6 | Python's string order is total |
| RenameImages.Insert | rename_images.py:6 | insertion into an ascending list adds exactly that name, keeps it ascending and keeps names distinct |
| RenameImages.SortNames | rename_images.py:6 | sorted() keeps the length and the names, gives ascending order and keeps distinct names distinct |
| RenameImages.PlanStep | rename_images.py:9-14 | one more name extends the loop's renames by its own rename, if any |
| RenameImages.AppliedStep | rename_images.py:14 | one more rename is applied after the earlier ones |
| RenameImages.TargetNotMatching | rename_images.py:7-13 | a new name is never the name of a matching file |
| RenameImages.NewNameNeverChains | rename_images.py:9-14 | the script never renames a file twice |
| RenameImages.ApplyKeeps | rename_images.py:14 | a name no rename touches keeps its contents |
| RenameImages.ApplyMoves | rename_images.py:14 | with distinct sources and no chains, every source is gone and every new name is there |
| RenameImages.ApplyUniqueTarget | rename_images.py:14 | a new name that no other rename produces holds its source's contents |
| RenameImages.PlanSound | rename_images.py:9-14 | each rename comes from a listed file and gives it the rule's new name |
| RenameImages.PlanComplete | rename_images.py:9-14 | every listed file the rule renames is renamed |
| RenameImages.PlanSourcesDistinct | rename_images.py:6-14 | distinct files give distinct sources |
| RenameImages.PlanHasNoChain | rename_images.py:9-14 | a rule that never chains gives a plan with no new name used as a source |
| RenameImages.RuleMovesFiles | rename_images.py:9-14 | every renamed file of the listing is gone and its new name is there |
| RenameImages.RuleUniqueTarget | rename_images.py:9-14 | a new name only one listed file maps to ends up with that file's contents |
| RenameImages.MatchesRenamed | rename_images.py:9-14 | every matching file is gone after the script and its new name is there |
| RenameImages.OthersUntouched | rename_images.py:9-14 | a file that does not match and is nobody's new name keeps its contents |
| RenameImages.UniqueTargetGetsContents | rename_images.py:9-14 | a frame number only one file carries: the new name holds that file's contents |
| RenameImages.StillPresent | rename_images.py:9-14 | when the loop reaches a matching file it is still in the folder |
| RenameImages.Folder.constructor | rename_images.py:5 | the folder holds the given files |
| RenameImages.Folder.RenameFrames | rename_images.py:5-14 | the folder after the script is the folder with the sorted listing's renames applied in order |
| RealMath.JsRound | app/api/market/options/route.ts:62 | Math.round gives the integer within half of x, a half going up |
| RealMath.PyRound | Project/RAG_Production/src/integration/option_chain_client.py:157 | Python's round gives the integer within half of x, and a tie goes to the even neighbour |
| RealMath.PyRoundMonotone | Project/RAG_Production/src/integration/option_chain_client.py:157 | Python's round never reverses order |
| RealMath.Trunc | Project/RAG_Production/src/quant_engine/option_chain_builder.py:115 | int() on a float truncates towards zero: within one below a non-negative x, within one above a negative x |
| RealMath.TruncWhole | Project/RAG_Production/src/quant_engine/option_chain_builder.py:115 | int() keeps a whole number unchanged |
| Util.OrNumber | app/api/market/movers/route.ts:34-37 | the logical-or default on a number: the value when present and non-zero, else the default |
| Util.OrString | app/api/market/movers/route.ts:33 | the logical-or default on a string: the value when present and non-empty, else the default |
| Util.IndexOf | app/api/market/movers/route.ts:32 | −1 exactly when the text does not occur; otherwise the first position where it occurs |
| Util.ReplaceFirst | app/api/market/movers/route.ts:32 | String.replace with a string pattern: unchanged when the pattern does not occur, else its first occurrence replaced |
| Util.Lower | Project/RAG_Production/src/agents/position_monitor.py:67 | lower-casing keeps the length and maps each character on its own |
| Util.Strip | Project/RAG_Production/src/agents/position_monitor.py:27 | str.strip gives a slice of the text that neither starts nor ends with whitespace, and everything cut off before and after the slice is whitespace |
| Util.NatToString | rename_images.py:13 | a decimal rendering of a natural number: at least one digit, all digits, no leading zero except for 0 itself, one digit exactly below 10 |
| Util.NatToStringValue | rename_images.py:13 | the decimal digits read back as the number |
| Util.NatToStringInjective | rename_images.py:13 | distinct numbers print differently |
| Util.IntToStringInjective | Project/RAG_Production/src/integration/option_chain_client.py:168-169 | distinct integers print differently |

## Left out

- Network access and market-data retrieval: yahoo-finance2, yfinance, KiteConnect and the live path of `fetch_option_chain`. Quotes, expiry lists and instruments are inputs. `fetch_live_chain_snapshot` is I/O and is not modelled.
- The LLM HTTP call itself, plus the vector store, retrieval, news loading and the market researcher. A reply is an input, either text or an exception. `mock_query_llm` is not part of this model.
- Console and `print` logging, timestamps and `datetime.now`. Today's date is a parameter.
- The child process in the expiry route: the spawn, the streaming of stdout and stderr, and the 10-second timeout. The exit code and the accumulated output are inputs.
- `Promise.all` fan-out, the React render cycle, timers (`setTimeout` delays between revealed steps) and intermediate render states of the trading page. The page's `alert` in `handleExecute` and the request body are not modelled.
- Floating point: NaN, infinities, rounding error and the accuracy of the Abramowitz–Stegun approximation. Reals are exact, so equalities such as the implied-volatility fallback equalling VIX hold exactly.
- BlackScholes.CalculateBlackScholes: in the priced branch it requires a non-zero spot and strike (`Priceable`). The TypeScript source divides by them there and yields Infinity or NaN.
- OptionChainClient.BlackScholesPrice: requires T > 0, sigma > 0 and K ≠ 0 (`NonDegenerate`, `K ≠ 0`). There the Python source raises: ZeroDivisionError for K = 0, sigma = 0 or T = 0, and ValueError from `math.sqrt` for T < 0. A negative sigma, which the source prices without error, is excluded too. For S/K ≤ 0 the source raises ValueError from `math.log`, while the model, whose logarithm is a parameter, returns a value.
- Greeks.CalculateGreeks: when days > 0 it requires a non-zero spot and strike and an IV above 0 (`Greeks.Computable`). A zero strike raises ZeroDivisionError at `S / K` in the source. A zero spot or a zero IV reaches numpy and gives infinities or NaN. A negative IV, which the source computes with, is excluded too.
- `exp`, `log`, `sqrt` and scipy's `norm`: they are parameters with only the facts the code relies on (positivity, monotonicity, symmetry of the normal distribution).
- `toFixed`, `toLocaleString`, Python `round(x, n)` and `strftime`/`toLocaleDateString`: they are abstract parameters. `Math.round` and Python's integer `round` are modelled exactly.
- Regular-expression matching and `json.loads`: they are inputs, the hits and the parse outcome respectively. The model keeps the order in which the code consults them.
- PositionMonitor.Prompt: modelled for its defaults only. The prompt text itself is not built, and the reply, an independent input, does not depend on it in the model.
- Util.Lower: ASCII only. Python's `lower` follows Unicode.
- Util.Strip: strips ASCII whitespace only. Python's `strip` follows Unicode, and so does its `\d`, which `Util.IsDigit` reads as an ASCII digit.
- OptionChainClient.GenerateMockChain: one spot input stands for both quote fetches. On the failure path the source retries the symbol's own ticker, but `generate_mock_chain` fetches `^NSEI`.
- OptionChainClient.FetchOptionChain: the chain data assembled on the live path, which the source builds and then does not use, is left out. `get_available_expiry_dates`, imported by the expiry route, is not part of this model.
- The `expiry_date_str` keyword that the orchestration graph passes to `fetch_option_chain` (which does not accept it) is not modelled. The graph wiring is not part of this model.
- Greeks.CalculateGreeks: at expiry, the quant engine's zero price and the front end's intrinsic value differ. Each side is modelled as written.
- BlackScholes.CdfSymmetric: stated for x ≠ 0. At 0 the approximation gives slightly less than 0.5 (see `BlackScholes.CdfAtZero`).
- Display-only fields: blog excerpts, contents and images, the travel markers' labels, and SVG path strings.
- Strategist.AnalyzeStrategy: a JSON strategy or rationale that is null or not a string is treated as absent.
- RenameImages.SortNames: stated by membership, length, ascending order and distinctness, not as a multiset permutation. The directory listing order is an input.
- RenameImages.Folder.RenameFrames: `os.rename` is modelled as a map update of the folder. Failures of the file system are not modelled.
- ExpiryRoute.PayloadRoundTrip: assumes no underscore before the start marker or inside the payload. Otherwise the first `__JSON_END__` could be found earlier.
- OptionsRoute.GenerateChain: requires the spot to exceed 8.5 strike steps (`LadderPositive`) so that every strike is positive. Below that the source would take the logarithm of a non-positive ratio.
- OptionsRoute.Get: requires `LadderPositive` for both fetched index spots, for the same reason.
- OptionChainClient.GenerateMockChain: requires `MockInputs` (VIX > 0 and spot/50 > 20.5). Otherwise the pricer would divide by zero or take the logarithm of a non-positive ratio.
- OptionChainClient.FetchOptionChain: requires `MockInputs` for the mock path's inputs, for the same reason.
- Travel.MapView.MoveEnd: requires the zoom reported by the map to lie in [1, 80], which the map library enforces through `minZoom`/`maxZoom`.
- RagPage.TradingPage.SetStrategyMode: requires one of the four modes offered by the selector.
- The FINNIFTY configuration in the options route is declared (`OptionsRoute.FinNifty`) but, as in the source, never served.
- The Streamlit dashboard, the other React components, the chain logger, the mock-PDF generator, the OAuth helper and the Google Photos extraction script: I/O or display only.
