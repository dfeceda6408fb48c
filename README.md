# LI.FI transfer dashboard: a verified model of its data pipeline

The dashboard reads the LI.FI analytics feed of completed cross-chain
transfers for one UTC day, page by page. It can keep only the transfers that
touch a BTC token. It then aggregates them into per-pair, per-chain and
per-route volumes and a top-twenty ranking. This project models that
pipeline in Dafny and proves what it promises. It also models the earlier
single-page version of the dashboard (`index.js`).

The model covers:

- `analyzeData` (`analyze_data.dfy`, with `tallies.dfy`, `ranking.dfy` and
  `transfers.dfy`):
  - the direction-independent pair key;
  - the route rule that skips fee-collection steps;
  - the dictionary upserts as a fold, together with the in-place loop that
    computes it;
  - the conservation laws over exact (real) volumes;
  - the stable top-twenty ranking.
- `useTransferData` (`transfer_data.dfy`, `fetch_retry.dfy`, `utc_dates.dfy`):
  - the day-to-window conversion;
  - the bounded retry loop;
  - the BTC filter;
  - the paging loop with its four exit causes and its 100-page cap;
  - the shared abort flag between overlapping runs;
  - the published state (`allData`, `analysis`, `loading`, `fetching`,
    `error`, `fetchedCount`) as a class whose methods are the hook's callbacks.
- `getChainName` (`chain_names.dfy`): the 22-entry table with its
  `Chain <id>` fallback.
- `getRouteColor` / `getRouteColorMap` (`route_colors.dfy`): the memoised
  cyclic palette, as a class with an invariant.
- `formatRawUSD` (`format_usd.dfy`): thousands separators inserted where the
  source's regular expression matches, and decimals cut to two.
- The legacy `index.js` (`legacy.dfy`):
  - its route rule, which does not skip fee collection;
  - its aggregation, which has no integrators and no ranking;
  - its relation to the current aggregation;
  - the `allData` / cursor state of `fetchData`, `loadMoreData` and
    `refreshData`.

The network, the clock and `parseFloat` are parameters:

- A page request is an oracle `net(n)(k)`: the reply to attempt `k` at page `n`.
- The legacy page's request is an oracle keyed by the cursor it sends.
- Today's date is a constructor argument.
- `parseFloat` is a `Parser` that returns a number or nothing (NaN).

## Model

| member | source | states |
|---|---|---|
| `AnalyzeData.OrientOrders` | src/utils/analyzeData.js:21-41 | side1/side2 are the two ends in some order, side2's label is never the smaller, and equal labels put the receiving end first (the else branch) |
| `AnalyzeData.PairKeySymmetric` | src/utils/analyzeData.js:21-41 | swapping sending and receiving gives the same pair key; with distinct labels the same sides too |
| `AnalyzeData.FirstRouteStep` | src/utils/analyzeData.js:47-50 | the index found is within the step list (or is its length when nothing is found) |
| `AnalyzeData.FirstRouteStepFinds` | src/utils/analyzeData.js:47-50 | the index is the first step with a tool other than `feeCollection`, or the length when no step has one |
| `AnalyzeData.ResolveTool` | src/utils/analyzeData.js:46-52 | the route is never empty, and is `feeCollection` only when the transfer's own tool is |
| `AnalyzeData.ResolveToolChoice` | src/utils/analyzeData.js:46-52 | the route is the tool of the first non-fee step; without one it is the transfer's tool, else "Unknown" |
| `AnalyzeData.Integrator` | src/utils/analyzeData.js:54 | the metadata's integrator when present, "unknown" otherwise; never empty |
| `Transfers.Volume` | src/utils/analyzeData.js:43 | an absent or unparsable amount contributes 0, a parsable one its value |
| `AnalyzeData.Contributions` | src/utils/analyzeData.js:10-54 | one contribution per transfer, in input order |
| `AnalyzeData.UpsertPair` | src/utils/analyzeData.js:56-84 | the in-place pair upsert (create with zero totals, then add to pair, route and integrator) equals the functional upsert |
| `AnalyzeData.BumpEntry` | src/utils/analyzeData.js:93-97 | the in-place `{volume, count}` upsert equals `Bump` |
| `AnalyzeData.AddToChainEntry` | src/utils/analyzeData.js:88-91 | the in-place chain upsert starts a missing chain at 0 and adds the volume |
| `Tallies.Bump` | src/utils/analyzeData.js:93-97 | after the upsert the key is present with volume and count grown by the transfer; every other entry is unchanged |
| `Tallies.BumpKeys` | src/utils/analyzeData.js:93-97 | the upsert adds exactly its key to the dictionary's keys |
| `Tallies.SumBump` | src/utils/analyzeData.js:93-97 | an upsert adds exactly one transfer of its volume to the dictionary's sum |
| `Tallies.SumByRemove` | src/utils/analyzeData.js:71-97 | a dictionary's sum is any one entry plus the sum of the rest |
| `Tallies.SumByReplace` | src/utils/analyzeData.js:71-97 | overwriting an entry changes the sum by the difference |
| `Tallies.SumByInsert` | src/utils/analyzeData.js:71-97 | a new entry adds its value to the sum |
| `AnalyzeData.AddToPairConserves` | src/utils/analyzeData.js:71-84 | adding a transfer to a pair keeps its route and integrator sums equal to the pair's total |
| `AnalyzeData.AddToPairsKeepsConserved` | src/utils/analyzeData.js:56-84 | the pair upsert keeps every pair conserved, including a newly created one |
| `AnalyzeData.AddToPairsSum` | src/utils/analyzeData.js:56-72 | the pair upsert adds one transfer of its volume to the sum over pairs |
| `AnalyzeData.PairSumStep` | src/utils/analyzeData.js:56-72 | replacing or inserting a pair whose totals grew by one transfer grows the sum by one transfer |
| `AnalyzeData.AddToChainsSum` | src/utils/analyzeData.js:88-91 | the chain upsert adds the volume to the sum over chains |
| `AnalyzeData.UpsertBalanced` | src/utils/analyzeData.js:71-97 | one callback run keeps pairs, routes and chains summing to the total volume, with one more transfer counted |
| `AnalyzeData.UpsertConserves` | src/utils/analyzeData.js:56-97 | one callback run keeps every conservation law |
| `AnalyzeData.AbsorbConserves` | src/utils/analyzeData.js:10-98 | running the callback over a list adds its length to every law |
| `AnalyzeData.FoldConserves` | src/utils/analyzeData.js:3-98 | after the pass: per pair, route counts and integrator counts (and volumes) add up to the pair; pair counts and route counts add up to `totalTxs`; pairs, routes and chains add up to `totalVolume` |
| `AnalyzeData.UpsertPairEntry` | src/utils/analyzeData.js:56-72 | one transfer grows its own pair's totals by its volume and one, and leaves every other pair's totals alone |
| `AnalyzeData.AbsorbPairEntry` | src/utils/analyzeData.js:56-72 | a pair's totals grow by exactly the transfers that land in it |
| `AnalyzeData.LandingOfContributions` | src/utils/analyzeData.js:10-72 | the contributions landing in a key are the input transfers with that key |
| `AnalyzeData.PairEntryIsKeyTally` | src/utils/analyzeData.js:43-72 | a pair's count is the number of input transfers with its key (a zero-volume transfer included) and its volume their summed volume |
| `AnalyzeData.AbsorbKeepsSides` | src/utils/analyzeData.js:56-69 | an existing pair's sides are never overwritten |
| `AnalyzeData.AbsorbSidesFromFirst` | src/utils/analyzeData.js:56-69 | a new pair takes its sides from the first contribution with its key |
| `AnalyzeData.SidesFromFirstTransfer` | src/utils/analyzeData.js:56-69 | the stored sides are those of the first transfer with that key, oriented as it orients them |
| `AnalyzeData.AnalyzeDataMethod` | src/utils/analyzeData.js:3-139 | the in-place pass returns `Analyze(data)`, counts every transfer and obeys the conservation laws |
| `AnalyzeData.Project` | src/utils/analyzeData.js:102-133 | an entry has the parsed volume, the resolved route and integrator, and the amount string exactly as received whenever it is non-empty, else "0" |
| `AnalyzeData.Projections` | src/utils/analyzeData.js:101-134 | one entry per transfer, in input order |
| `AnalyzeData.TopTransactions` | src/utils/analyzeData.js:101-136 | min(20, n) entries, volume non-increasing, drawn from the projections, the stable sort's prefix, and every omitted record no larger than the last kept |
| `Ranking.Insert` | src/utils/analyzeData.js:135 | insertion lengthens the list by one |
| `Ranking.InsertSorted` | src/utils/analyzeData.js:135 | insertion keeps the list sorted by descending volume, and bounded |
| `Ranking.InsertPermutes` | src/utils/analyzeData.js:135 | insertion adds exactly the entry (as a multiset) |
| `Ranking.InsertStable` | src/utils/analyzeData.js:135 | entries of equal volume keep their relative order |
| `Ranking.SortByVolume` | src/utils/analyzeData.js:135 | the sort is a permutation, sorted by descending volume, and stable (equal volumes in input order) |
| `Ranking.PrefixKeepsLargest` | src/utils/analyzeData.js:135-136 | a prefix of the sorted list is sorted, drawn from the input, and no left-out entry exceeds its last |
| `Ranking.Top` | src/utils/analyzeData.js:135-136 | the kept list has min(20, n) entries with the properties of the sorted prefix |
| `ChainNames.LookupFinds` | src/utils/chainNames.js:26-28 | the lookup returns a name exactly when the table has an entry with that id, and that entry's name |
| `ChainNames.TableWellFormed` | src/utils/chainNames.js:1-24 | the 22 ids are distinct, the names are distinct, non-empty, and none starts with `Chain ` |
| `ChainNames.IsFallbackName` | src/utils/chainNames.js:26-28 | a name starts with `Chain ` exactly when the id is not in the table |
| `ChainNames.ChainNameNonEmpty` | src/utils/chainNames.js:26-28 | every display name is non-empty |
| `ChainNames.WellKnownNames` | src/utils/chainNames.js:1-28 | 1, 8453 and 42161 map to Ethereum, Base and Arbitrum; the unlisted 7 maps to `Chain 7` |
| `ChainNames.ChainNameInjective` | src/utils/chainNames.js:1-28 | different chain ids never share a display name |
| `Text.LessIrreflexive` | src/utils/analyzeData.js:25 | no label is smaller than itself |
| `Text.LessAsymmetric` | src/utils/analyzeData.js:25 | two labels are never each smaller than the other |
| `Text.LessTotal` | src/utils/analyzeData.js:25 | of two different labels one is the smaller |
| `Text.ContainsAt` | src/hooks/useTransferData.js:59 | substring search succeeds exactly when the text occurs at some position |
| `Text.Lower` | src/hooks/useTransferData.js:57-58 | lower-casing keeps the length and lower-cases each character |
| `Text.IntToStringInjective` | src/utils/chainNames.js:27 | different ids give different decimal renderings |
| `UtcDates.DayWindow` | src/hooks/useTransferData.js:12-17 | a day's window spans 86399 seconds and starts at a multiple of 86400, at the day's epoch day |
| `UtcDates.DateToUtcRange` | src/hooks/useTransferData.js:12-17 | a window exists exactly for a valid `YYYY-MM-DD` string, and has `to - from == 86399` with `from` a multiple of 86400 |
| `UtcDates.ParseIsoDate` | src/hooks/useTransferData.js:12-15 | only a calendar day is parsed |
| `UtcDates.FormatIsoDate` | src/hooks/useTransferData.js:7-9 | today's date is written in ten characters |
| `UtcDates.ParseFormat` | src/hooks/useTransferData.js:7-17 | reading back the written form of a day gives the day |
| `UtcDates.NextDayAdjacent` | src/hooks/useTransferData.js:12-17 | the next day's window starts one second after this day's ends |
| `UtcDates.WindowsOrdered` | src/hooks/useTransferData.js:12-17 | an earlier day's window ends before a later day's begins |
| `UtcDates.WindowInjective` | src/hooks/useTransferData.js:12-17 | different days have different windows |
| `FetchRetry.FirstOkMeans` | src/hooks/useTransferData.js:20-37 | no response exactly when every attempt fails; otherwise the body of the first ok attempt |
| `FetchRetry.FetchWithRetry` | src/hooks/useTransferData.js:20-37 | at most `retries` attempts, the first ok response, all attempts made when none succeeds, and a pause after every failed attempt including the last |
| `FetchRetry.DefaultBounds` | src/hooks/useTransferData.js:20 | with the defaults at most three attempts, and no response exactly when all three fail |
| `TransferData.BtcOnly` | src/hooks/useTransferData.js:150 | the filter never adds transfers |
| `TransferData.BtcOnlyMembers` | src/hooks/useTransferData.js:56-60 | a transfer is kept exactly when its lower-cased sending or receiving symbol contains "btc" |
| `TransferData.IsBtcTxSymmetric` | src/hooks/useTransferData.js:56-60 | the BTC test does not depend on direction |
| `TransferData.FilterIdempotent` | src/hooks/useTransferData.js:150 | filtering twice is filtering once |
| `TransferData.BtcOnlyAppend` | src/hooks/useTransferData.js:116-150 | filtering the concatenated pages is concatenating the filtered pages |
| `TransferData.Crawl` | src/hooks/useTransferData.js:79-136 | a run makes between one and 100 requests |
| `TransferData.CrawlCollects` | src/hooks/useTransferData.js:108-116 | the accumulated data is the in-order concatenation of every page received |
| `TransferData.CrawlContinues` | src/hooks/useTransferData.js:85-135 | every page before the last was non-empty and announced another |
| `TransferData.CrawlStops` | src/hooks/useTransferData.js:85-138 | the loop stops on an error, an empty page, `hasNext` not true, a repeated non-null cursor, or the 100th page, and the last reply shows which |
| `TransferData.CrawlNoRepeatBeforeStop` | src/hooks/useTransferData.js:121-135 | the converse of the repeated-cursor exit: no page before the last returns a non-null cursor equal to the one its request carried (the initial cursor for the first page, the previous page's after that) |
| `TransferData.TransferStore.constructor` | src/hooks/useTransferData.js:40-53 | today's window, filter on, no data, loading, no run |
| `TransferData.TransferStore.FilteredCount` | src/hooks/useTransferData.js:202 | the filtered count never exceeds the loaded count and equals it with the filter off |
| `TransferData.TransferStore.StartRun` | src/hooks/useTransferData.js:62-101 | the previous run is aborted and its loop state (accumulated data, cursor, page number, flags) is otherwise untouched, the published state is reset, and page 1 is requested without a cursor |
| `TransferData.TransferStore.ResetPublished` | src/hooks/useTransferData.js:70-75 | a new run clears the data, analysis, error and count and sets loading and fetching, leaving the date, window, filter and current run alone |
| `TransferData.TransferStore.Resume` | src/hooks/useTransferData.js:106-164 | an aborted run publishes nothing; otherwise `fetchedCount` follows the accumulated data, the run goes on with the next cursor, or it publishes the error or the data and their analysis under the filter it captured |
| `TransferData.TransferStore.Complete` | src/hooks/useTransferData.js:138-163 | after the loop, unless aborted, the data and their analysis are published and loading ends |
| `TransferData.TransferStore.Publish` | src/hooks/useTransferData.js:148-163 | the data and the analysis of what the filter lets through are published |
| `TransferData.TransferStore.FetchPage` | src/hooks/useTransferData.js:85-164 | one iteration either leaves the rest of `Crawl` unchanged or publishes `Crawl`'s result; `fetchedCount` never decreases and equals the length of the data accumulated so far (the whole of `Crawl`'s data at the end); the selected date and its window are unchanged |
| `TransferData.TransferStore.FetchAllPages` | src/hooks/useTransferData.js:62-165 | an uninterrupted run makes `Crawl`'s number of requests (at most 100) and publishes `Crawl`'s data and their analysis, or its error; `fetchedCount` ends as the length of `Crawl`'s data; the selected date and its window are unchanged |
| `TransferData.TransferStore.ToggleBtcFilter` | src/hooks/useTransferData.js:168-178 | the flag flips and the loaded data is re-analysed with the new flag, with no request |
| `TransferData.TransferStore.SetDate` | src/hooks/useTransferData.js:181-190 | the day and its window are recorded, the previous run is aborted, the published state is reset (no data, analysis, error or count; loading), the filter is unchanged, and a run for that window starts with page 1 |
| `TransferData.TransferStore.Refresh` | src/hooks/useTransferData.js:192-199 | the day and window are kept, the previous run is aborted, the published state is reset (no data, analysis, error or count; loading), the filter is unchanged, and a run for the current window starts with page 1 |
| `TransferData.StaleReplyIgnored` | src/hooks/useTransferData.js:63-68 | a late reply to a run superseded by a date change publishes nothing: data, analysis, error and fetched count stay as the newer run reset them, and loading and fetching stay on |
| `RouteColors.PalettesGood` | src/utils/colors.js:1-22 | the palette has 20 distinct non-empty colours (the legacy one too) |
| `RouteColors.Cyclic` | src/utils/colors.js:29 | the k-th colour is a palette member, the k-th entry for k < 20 |
| `RouteColors.CyclicPeriodic` | src/utils/colors.js:29 | with a 20-colour palette the k-th and (k + 20)-th colours agree, and the k-th is the entry at k mod 20 |
| `RouteColors.SameColorTwentyApart` | src/utils/colors.js:27-33 | in a valid memo over 20 colours, the k-th and (k + 20)-th distinct routes have the same colour |
| `RouteColors.ColorCache.constructor` | src/utils/colors.js:24-25 | the memo starts empty with index 0 |
| `RouteColors.ColorCache.GetRouteColor` | src/utils/colors.js:27-33 | a seen route keeps its colour and nothing changes; a new route gets the palette entry at `colorIndex` mod 20 and the index grows by one; the index is the number of distinct routes seen |
| `RouteColors.ColorCache.RouteColorMap` | src/utils/colors.js:35-37 | the copy has one entry per distinct route seen, each a palette colour, the k-th route's the k-th colour |
| `RouteColors.DistinctCardinality` | src/utils/colors.js:28-31 | as many memo entries as distinct routes seen |
| `RouteColors.RepeatedRouteSameColor` | src/utils/colors.js:27-33 | two calls with the same route return the same colour |
| `RouteColors.FirstColorsInOrder` | src/utils/colors.js:1-33 | on a fresh memo two new routes get the first two colours and a repeat keeps its colour |
| `FormatUsd.IndexOf` | src/components/TopTransactions.jsx:7 | the split point is the first `.` or the end |
| `FormatUsd.FormatRawUsd` | src/components/TopTransactions.jsx:4-15 | the output always starts with `$` |
| `FormatUsd.ZeroAmounts` | src/components/TopTransactions.jsx:5 | "" and "0" give `$0`, while "0.5" gives `$0.5` |
| `FormatUsd.StripCommasFrom` | src/components/TopTransactions.jsx:9 | deleting the inserted commas gives back the text they went into |
| `FormatUsd.CommasRoundTrip` | src/components/TopTransactions.jsx:7-9 | for an integer part without commas, deleting the commas of the output gives the integer part |
| `FormatUsd.CommaPlacement` | src/components/TopTransactions.jsx:9 | in a digit string a comma goes before position p exactly when p > 0 and the digits from p on are a multiple of three |
| `FormatUsd.LeadingGroup` | src/components/TopTransactions.jsx:9 | the leading group has one to three digits, copied as is, and a comma follows when more digits do |
| `FormatUsd.FormatTruncates` | src/components/TopTransactions.jsx:7-14 | without its commas the output is `$`, the integer part and the kept fraction, a prefix of `$` followed by the input (cut, never rounded) |
| `FormatUsd.FractionShape` | src/components/TopTransactions.jsx:11-12 | a fraction is kept only when the decimal part is non-empty, and then it is `.` and its first one or two characters |
| `FormatUsd.NoFractionNoPoint` | src/components/TopTransactions.jsx:11-14 | without a decimal part (no `.` or a trailing one) the output has no decimal point |
| `FormatUsd.SecondPointIgnored` | src/components/TopTransactions.jsx:7 | text from a second `.` on does not change the output |
| `Legacy.LegacyTool` | index.js:192-195 | the first step's tool when it has one (fee collection included), else the transfer's tool, else "Unknown" |
| `Legacy.LegacyToolAgrees` | index.js:192-195 | the legacy and current rules agree without steps or when the first step is a real route |
| `Legacy.LegacyToolKeepsFeeCollection` | index.js:192-195 | a fee-collection first step names the legacy route, while the current rule skips it |
| `Legacy.LegacyContributions` | index.js:146-195 | one legacy contribution per transfer, in input order |
| `Legacy.LegacyPairsKeepConserved` | index.js:197-222 | the legacy pair upsert keeps each pair's routes summing to the pair |
| `Legacy.LegacyPairsSum` | index.js:197-212 | the legacy pair upsert adds one transfer to the sum over pairs |
| `Legacy.LegacyUpsertBalanced` | index.js:211-239 | one legacy callback run keeps pairs, routes and chains summing to the total |
| `Legacy.LegacyUpsertConserves` | index.js:197-239 | one legacy callback run keeps every law |
| `Legacy.LegacyAbsorbConserves` | index.js:146-240 | the legacy pass over a list adds its length to every law |
| `Legacy.LegacyFoldConserves` | index.js:139-243 | legacy pair count equals the sum of its route counts, and pair counts and route counts add up to `totalTxs` (the input length) |
| `Legacy.PairsForget` | index.js:197-222 | the current pair upsert without integrators is the legacy pair upsert |
| `Legacy.UpsertForgets` | index.js:197-239 | one current upsert without integrators is one legacy upsert |
| `Legacy.AbsorbForgets` | index.js:146-240 | the current pass without integrators is the legacy pass over the same contributions |
| `Legacy.LegacyMatchesCurrent` | index.js:139-243 | where the two route rules agree, the legacy tables are the current ones without integrators (same pair keys and sides, as the key code is the same) |
| `Legacy.UpsertLegacyPair` | index.js:197-222 | the in-place legacy pair upsert equals the functional one |
| `Legacy.LegacyAnalyzeMethod` | index.js:139-243 | the in-place legacy pass returns `LegacyAnalyze(data)` and obeys its laws |
| `Legacy.Truthy` | index.js:54-55 | a cursor is kept exactly when it is a non-empty string |
| `Legacy.LegacyDashboard.constructor` | index.js:1-5 | no data, no cursors |
| `Legacy.LegacyDashboard.FetchData` | index.js:42-73 | an exception changes no data or cursor and returns nothing; an empty page keeps the data, load-more appends, otherwise the page replaces the data; the cursors become the reply's |
| `Legacy.LegacyDashboard.Start` | index.js:583-588 | the first page replaces the data when non-empty and is drawn when there is data; the cursors become the reply's, or on an exception stay and the error is shown |
| `Legacy.LegacyDashboard.LoadMoreData` | index.js:86-97 | nothing changes without a next cursor; otherwise the next page is appended, both cursors become the reply's (or stay, with the error shown, on an exception), and the whole data is drawn |
| `Legacy.LegacyDashboard.RefreshData` | index.js:99-109 | the first page replaces the data when non-empty, both cursors become the reply's (or stay, with the error shown, on an exception), and the data is drawn |

`Transfers.Swap` (a transfer with its legs exchanged) and `Legacy.ForgetPairs` (current pairs without their integrators) are helpers used to state `AnalyzeData.PairKeySymmetric` and `Legacy.LegacyMatchesCurrent`; the source has no such operations.

## Left out

- Floating point: volumes are exact reals. `parseFloat` is an abstract parser, and float rounding, `toLocaleString` and `toFixed` are not modelled. The conservation laws hold over exact numbers only.
- I/O and timing: `fetch`, `response.ok`, `keepalive`, the URLs, console logging and the `setTimeout` pauses. The network is an oracle of replies. `FetchWithRetry` reports the time it would have waited instead of waiting.
- React: `useState`, `useCallback`, `useEffect`, `useRef` and rendering. The hook's state is a class, and each callback is a method that runs to its next suspension point. Each `fetchAllPages` run takes the value of `btcFilter` current when it starts. An older stale closure that captured an earlier value is not modelled.
- `TransferData.TransferStore.constructor`: the analysis is a constant function fixed to `Analyze` with the store's parser, not a direct call. Later methods state their results in terms of that function.
- `Legacy.LegacyDashboard.constructor`: the analysis is injected as a constant function in the same way.
- JavaScript `Date` on malformed strings: only the `YYYY-MM-DD` form with a four-digit year is parsed. Any other string gives no window, which stands for NaN.
- A JSON body that is not an object (`result.data` on `null`) is not modelled. A body that cannot be read at all is modelled, as an error message.
- Unicode: `toLowerCase` is modelled on ASCII letters. String `<` is modelled on code points, which differs from UTF-16 order only outside the Basic Multilingual Plane.
- Malformed records: every leg has a `token` and every `symbol` is a string. A record without `token` makes `analyzeData` throw; in `fetchAllPages` that throw comes after `allData` is published, so the error is set while the data stays and the analysis stays null, a state `Publish` and `Complete` never reach. A missing `symbol` becomes the text "undefined" in the pair key, where the model uses "". The feed is not expected to send such records.
- Object-prototype keys (a route called `constructor`) are not modelled: dictionaries are plain finite maps.
- `RouteColors.Cyclic`: periodicity is proved only for palettes of exactly 20 colours (both real palettes), by `CyclicPeriodic`; for other lengths only the modulo rule is stated.
- `Legacy.LegacyDashboard.LoadMoreData`, `RefreshData` and `Start`: each runs its request and its reply as one step, as if every legacy callback finished before the next one starts. On the page, Refresh stays enabled while a Load More request is waiting, so the replies can interleave. For example, Load More sends cursor c, Refresh sends no cursor, and Refresh's first page P1 arrives first. The Load More reply then appends page c, giving P1 followed by page c, with page c's cursor. No sequence of the model's methods reaches that state.
- DOM code is not modelled: `updateDashboard`, `createRouteLegend`, `updateCursorInfo`, and the button texts and disabled states. The legacy page's `previousCursor` is stored but never read.
- Legacy page: the error text it shows is modelled as a flag, and drawing the dashboard as the last analysis shown.
- `getRouteColorMap` returns a copy. Maps are values in Dafny, so changing the copy cannot change the memo, and there is nothing further to prove.
