/**
 * The legacy single-page dashboard (`index.js`): an earlier copy of the
 * aggregation, with its own route rule and without integrators or the
 * ranking, and the global state that `fetchData`, `loadMoreData` and
 * `refreshData` update. Chain names and pair keys are those of the current
 * dashboard; the route colours are a `RouteColors.ColorCache` over the legacy
 * palette.
 */
module Legacy {
  import opened Wrappers
  import opened Tallies
  import opened Transfers
  import opened AnalyzeData

  // ----- The route rule -----

  /**
   * The legacy route: the tool of the first included step when it names
   * one, whatever it is; otherwise the transfer's own tool, otherwise
   * "Unknown". Fee-collection steps are not skipped.
   */
  function LegacyTool(tx: Transfer): (tool: string)
    ensures tool != ""
    ensures |tx.sending.includedSteps| > 0 && tx.sending.includedSteps[0].tool != "" ==> tool == tx.sending.includedSteps[0].tool
    ensures (|tx.sending.includedSteps| == 0 || tx.sending.includedSteps[0].tool == "") ==> tool == FallbackTool(tx)
  {
    var steps := tx.sending.includedSteps;
    if |steps| > 0 && steps[0].tool != "" then steps[0].tool else FallbackTool(tx)
  }

  /** Both rules agree when there are no steps, or when the first step names a route that is not fee collection. */
  lemma LegacyToolAgrees(tx: Transfer)
    requires |tx.sending.includedSteps| == 0 || IsRouteStep(tx.sending.includedSteps[0])
    ensures LegacyTool(tx) == ResolveTool(tx)
  {
    FirstRouteStepFinds(tx.sending.includedSteps);
  }

  /** A transfer whose first step is a fee collection: the legacy page files it under that step, the dashboard under the real route. */
  lemma LegacyToolKeepsFeeCollection()
    ensures var tx := Transfer("t", FeeFirstLeg(), FeeFirstLeg(), "", "", "");
      LegacyTool(tx) == FeeCollection && ResolveTool(tx) == "stargate"
  {
    var tx := Transfer("t", FeeFirstLeg(), FeeFirstLeg(), "", "", "");
    assert FirstRouteStep(tx.sending.includedSteps[1..]) == 0;
  }

  /** A leg whose steps are a fee collection followed by a bridge. */
  function FeeFirstLeg(): Leg
  {
    Leg(Token("WBTC", None), 1, Some("10"), None, [Step(FeeCollection), Step("stargate")])
  }

  // ----- The legacy aggregation -----

  /** A legacy `pairVolumes` entry: no integrators. */
  datatype LegacyPair = LegacyPair(volume: real, count: nat, side1: Side, side2: Side, routes: map<string, Tally>)

  function LegacyPairTotal(p: LegacyPair): Tally
  {
    Tally(p.volume, p.count)
  }

  /** The dictionaries and running total of the legacy pass. */
  datatype LegacyTables = LegacyTables(
    pairVolumes: map<string, LegacyPair>,
    chainVolumes: map<string, real>,
    routeVolumes: map<string, Tally>,
    totalVolume: real)

  const NoLegacyTables := LegacyTables(map[], map[], map[], 0.0)

  /** The result of the legacy `analyzeData`: no integrators and no ranking. */
  datatype LegacyAnalysis = LegacyAnalysis(
    pairVolumes: map<string, LegacyPair>,
    chainVolumes: map<string, real>,
    routeVolumes: map<string, Tally>,
    totalVolume: real,
    totalTxs: nat)

  /** What one transfer contributes on the legacy page: the same pair, sides, chain and volume, and the legacy route. */
  function LegacyContributionOf(tx: Transfer, parse: Parser): Contribution
  {
    ContributionOf(tx, parse).(tool := LegacyTool(tx))
  }

  function LegacyContributions(data: seq<Transfer>, parse: Parser): (cs: seq<Contribution>)
    ensures |cs| == |data|
    ensures forall i :: 0 <= i < |data| ==> cs[i] == LegacyContributionOf(data[i], parse)
  {
    seq(|data|, i requires 0 <= i < |data| => LegacyContributionOf(data[i], parse))
  }

  function LegacyPairBefore(pairs: map<string, LegacyPair>, c: Contribution): LegacyPair
  {
    if c.pair in pairs then pairs[c.pair]
    else LegacyPair(0.0, 0, c.sides.0, c.sides.1, map[])
  }

  function AddToLegacyPair(p: LegacyPair, tool: string, v: real): LegacyPair
  {
    p.(volume := p.volume + v, count := p.count + 1, routes := Bump(p.routes, tool, v))
  }

  function AddToLegacyPairs(pairs: map<string, LegacyPair>, c: Contribution): map<string, LegacyPair>
  {
    pairs[c.pair := AddToLegacyPair(LegacyPairBefore(pairs, c), c.tool, c.volume)]
  }

  /** The upserts of one run of the legacy callback. */
  function LegacyUpsert(acc: LegacyTables, c: Contribution): LegacyTables
  {
    LegacyTables(
      AddToLegacyPairs(acc.pairVolumes, c),
      AddToChains(acc.chainVolumes, c.chain, c.volume),
      Bump(acc.routeVolumes, c.tool, c.volume),
      acc.totalVolume + c.volume)
  }

  function LegacyAbsorb(acc: LegacyTables, cs: seq<Contribution>): LegacyTables
    decreases |cs|
  {
    if cs == [] then acc
    else LegacyAbsorb(LegacyUpsert(acc, cs[0]), cs[1..])
  }

  function LegacyFold(data: seq<Transfer>, parse: Parser): LegacyTables
  {
    LegacyAbsorb(NoLegacyTables, LegacyContributions(data, parse))
  }

  /** The legacy `analyzeData(data)`, as a function of the input. */
  function LegacyAnalyze(data: seq<Transfer>, parse: Parser): LegacyAnalysis
  {
    var t := LegacyFold(data, parse);
    LegacyAnalysis(t.pairVolumes, t.chainVolumes, t.routeVolumes, t.totalVolume, |data|)
  }

  // ----- Conservation -----

  ghost predicate LegacyPairsConserved(pairs: map<string, LegacyPair>)
  {
    forall key :: key in pairs ==> SumBy(pairs[key].routes, Itself) == LegacyPairTotal(pairs[key])
  }

  ghost predicate LegacyBalanced(t: LegacyTables, n: nat)
  {
    && SumBy(t.pairVolumes, LegacyPairTotal) == Tally(t.totalVolume, n)
    && SumBy(t.routeVolumes, Itself) == Tally(t.totalVolume, n)
    && SumBy(t.chainVolumes, ChainTally) == Tally(t.totalVolume, 0)
  }

  ghost predicate LegacyConserved(t: LegacyTables, n: nat)
  {
    LegacyPairsConserved(t.pairVolumes) && LegacyBalanced(t, n)
  }

  lemma LegacyPairsKeepConserved(pairs: map<string, LegacyPair>, c: Contribution)
    requires LegacyPairsConserved(pairs)
    ensures LegacyPairsConserved(AddToLegacyPairs(pairs, c))
  {
    var p := LegacyPairBefore(pairs, c);
    assert SumBy(p.routes, Itself) == LegacyPairTotal(p);
    SumBump(p.routes, c.tool, c.volume);
  }

  lemma LegacyPairsSum(pairs: map<string, LegacyPair>, c: Contribution)
    ensures SumBy(AddToLegacyPairs(pairs, c), LegacyPairTotal) == Plus(SumBy(pairs, LegacyPairTotal), One(c.volume))
  {
    var p := LegacyPairBefore(pairs, c);
    var p' := AddToLegacyPair(p, c.tool, c.volume);
    if c.pair in pairs {
      SumByReplace(pairs, c.pair, p', LegacyPairTotal);
    } else {
      SumByInsert(pairs, c.pair, p', LegacyPairTotal);
    }
  }

  lemma LegacyUpsertBalanced(acc: LegacyTables, c: Contribution, n: nat)
    requires LegacyBalanced(acc, n)
    ensures LegacyBalanced(LegacyUpsert(acc, c), n + 1)
  {
    LegacyPairsSum(acc.pairVolumes, c);
    AddToChainsSum(acc.chainVolumes, c.chain, c.volume);
    SumBump(acc.routeVolumes, c.tool, c.volume);
  }

  lemma LegacyUpsertConserves(acc: LegacyTables, c: Contribution, n: nat)
    requires LegacyConserved(acc, n)
    ensures LegacyConserved(LegacyUpsert(acc, c), n + 1)
  {
    LegacyPairsKeepConserved(acc.pairVolumes, c);
    LegacyUpsertBalanced(acc, c, n);
  }

  lemma {:induction false} LegacyAbsorbConserves(acc: LegacyTables, cs: seq<Contribution>, n: nat)
    requires LegacyConserved(acc, n)
    ensures LegacyConserved(LegacyAbsorb(acc, cs), n + |cs|)
    decreases |cs|
  {
    if cs != [] {
      LegacyUpsertConserves(acc, cs[0], n);
      LegacyAbsorbConserves(LegacyUpsert(acc, cs[0]), cs[1..], n + 1);
    }
  }

  /**
   * The legacy pass keeps the same laws: each pair's routes add up to the
   * pair, and the pairs, the routes and the chains each add up to the total
   * volume, the pairs and the routes to every input transfer.
   */
  lemma LegacyFoldConserves(data: seq<Transfer>, parse: Parser)
    ensures LegacyConserved(LegacyFold(data, parse), |data|)
  {
    assert LegacyConserved(NoLegacyTables, 0);
    LegacyAbsorbConserves(NoLegacyTables, LegacyContributions(data, parse), 0);
  }

  // ----- Against the current aggregation -----

  /** A current pair entry without its integrators. */
  function Forget(p: PairAggregate): LegacyPair
  {
    LegacyPair(p.volume, p.count, p.side1, p.side2, p.routes)
  }

  function ForgetPairs(pairs: map<string, PairAggregate>): (r: map<string, LegacyPair>)
    ensures r.Keys == pairs.Keys
    ensures forall k :: k in pairs ==> r[k] == Forget(pairs[k])
  {
    map k | k in pairs :: Forget(pairs[k])
  }

  function ForgetTables(t: Tables): LegacyTables
  {
    LegacyTables(ForgetPairs(t.pairVolumes), t.chainVolumes, t.routeVolumes, t.totalVolume)
  }

  lemma UpsertForgets(acc: Tables, c: Contribution)
    ensures ForgetTables(Upsert(acc, c)) == LegacyUpsert(ForgetTables(acc), c)
  {
    PairsForget(acc.pairVolumes, c);
  }

  /** The pair upsert without integrators is the legacy pair upsert. */
  lemma PairsForget(pairs: map<string, PairAggregate>, c: Contribution)
    ensures ForgetPairs(AddToPairs(pairs, c)) == AddToLegacyPairs(ForgetPairs(pairs), c)
  {
    var before := ForgetPairs(pairs);
    assert Forget(PairBefore(pairs, c)) == LegacyPairBefore(before, c);
  }

  lemma {:induction false} AbsorbForgets(acc: Tables, cs: seq<Contribution>)
    ensures ForgetTables(Absorb(acc, cs)) == LegacyAbsorb(ForgetTables(acc), cs)
    decreases |cs|
  {
    if cs != [] {
      UpsertForgets(acc, cs[0]);
      AbsorbForgets(Upsert(acc, cs[0]), cs[1..]);
    }
  }

  /**
   * Where the two route rules agree on every transfer, the legacy tables are
   * the current ones without the integrators.
   */
  lemma LegacyMatchesCurrent(data: seq<Transfer>, parse: Parser)
    requires forall i :: 0 <= i < |data| ==> LegacyTool(data[i]) == ResolveTool(data[i])
    ensures LegacyFold(data, parse) == ForgetTables(Fold(data, parse))
  {
    assert LegacyContributions(data, parse) == Contributions(data, parse);
    AbsorbForgets(NoTables, Contributions(data, parse));
    assert ForgetPairs(map[]) == map[];
  }

  /** The legacy pair upsert: create the pair with zero totals if it is new, then add the transfer to it and to its route. */
  method UpsertLegacyPair(pairs: map<string, LegacyPair>, c: Contribution) returns (r: map<string, LegacyPair>)
    ensures r == AddToLegacyPairs(pairs, c)
  {
    r := pairs;
    if c.pair !in r {
      r := r[c.pair := LegacyPair(0.0, 0, c.sides.0, c.sides.1, map[])];
    }
    var p := r[c.pair];
    assert p == LegacyPairBefore(pairs, c);
    var routes := BumpEntry(p.routes, c.tool, c.volume);
    r := r[c.pair := p.(volume := p.volume + c.volume, count := p.count + 1, routes := routes)];
  }

  /** The legacy callback run over the input with its in-place upserts. */
  method LegacyAnalyzeMethod(data: seq<Transfer>, parse: Parser) returns (a: LegacyAnalysis)
    ensures a == LegacyAnalyze(data, parse)
    ensures LegacyConserved(LegacyTables(a.pairVolumes, a.chainVolumes, a.routeVolumes, a.totalVolume), a.totalTxs)
  {
    var pairVolumes: map<string, LegacyPair> := map[];
    var chainVolumes: map<string, real> := map[];
    var routeVolumes: map<string, Tally> := map[];
    var totalVolume := 0.0;
    var totalTxs := |data|;
    ghost var cs := LegacyContributions(data, parse);
    for i := 0 to |data|
      invariant LegacyAbsorb(LegacyTables(pairVolumes, chainVolumes, routeVolumes, totalVolume), cs[i..]) == LegacyFold(data, parse)
    {
      var c := LegacyContributionOf(data[i], parse);
      ghost var acc := LegacyTables(pairVolumes, chainVolumes, routeVolumes, totalVolume);
      pairVolumes := UpsertLegacyPair(pairVolumes, c);
      totalVolume := totalVolume + c.volume;
      chainVolumes := AddToChainEntry(chainVolumes, c.chain, c.volume);
      routeVolumes := BumpEntry(routeVolumes, c.tool, c.volume);
      assert LegacyTables(pairVolumes, chainVolumes, routeVolumes, totalVolume) == LegacyUpsert(acc, c);
      assert cs[i..][0] == c && cs[i..][1..] == cs[i + 1..];
    }
    assert cs[|data|..] == [];
    LegacyFoldConserves(data, parse);
    a := LegacyAnalysis(pairVolumes, chainVolumes, routeVolumes, totalVolume, totalTxs);
  }

  // ----- The page's global state -----

  /** What `fetch` and `response.json()` give the page: an exception, or the parsed body. */
  datatype LegacyReply = Threw | Answered(data: seq<Transfer>, next: string, previous: string)

  /** The network as an oracle: the reply to the request that carries `cursor`, or none. */
  type LegacyNet = Option<string> -> LegacyReply

  /** A string that is kept only when it is not empty. */
  function Truthy(s: string): (r: Option<string>)
    ensures r.Some? <==> s != ""
    ensures r.Some? ==> r.value == s
  {
    if s != "" then Some(s) else None
  }

  /** `allData`, `nextCursor`, `previousCursor`, and what the page shows. */
  class LegacyDashboard {
    /** `analyzeData`, as the page calls it; the constructor fixes it to `LegacyAnalyze` with the page's parser. */
    const analyze: seq<Transfer> -> LegacyAnalysis
    var allData: seq<Transfer>
    var nextCursor: Option<string>
    var previousCursor: Option<string>
    /** The analysis `updateDashboard` last drew, if any. */
    var shown: Option<LegacyAnalysis>
    /** The loading element shows the error text. */
    var errorShown: bool

    /** A cursor is stored only when it is a non-empty string. */
    predicate Valid()
      reads this
    {
      (nextCursor.Some? ==> nextCursor.value != "") && (previousCursor.Some? ==> previousCursor.value != "")
    }

    /** The global state as the script starts. */
    constructor(parse: Parser)
      ensures forall data :: analyze(data) == LegacyAnalyze(data, parse)
      ensures Valid()
      ensures allData == [] && nextCursor == None && previousCursor == None && shown == None && !errorShown
    {
      analyze := (data: seq<Transfer>) => LegacyAnalyze(data, parse);
      allData := [];
      nextCursor := None;
      previousCursor := None;
      shown := None;
      errorShown := false;
    }

    /**
     * `fetchData(cursor, isLoadMore)`: the request carries the cursor when it
     * is a non-empty string. An exception leaves the data and the cursors as
     * they were and returns nothing. Otherwise the cursors become the reply's,
     * an empty page keeps the data, a non-empty page is appended on load-more
     * and replaces the data otherwise, and the data is returned.
     */
    method FetchData(cursor: Option<string>, isLoadMore: bool, net: LegacyNet) returns (result: seq<Transfer>)
      requires Valid()
      modifies this
      ensures Valid()
      ensures shown == old(shown)
      ensures var reply := net(if cursor.Some? && cursor.value != "" then cursor else None);
        && (reply.Threw? ==>
              && result == [] && errorShown
              && allData == old(allData) && nextCursor == old(nextCursor) && previousCursor == old(previousCursor))
        && (reply.Answered? ==>
              && result == allData && errorShown == old(errorShown)
              && nextCursor == Truthy(reply.next) && previousCursor == Truthy(reply.previous)
              && (reply.data == [] ==> allData == old(allData))
              && (reply.data != [] && isLoadMore ==> allData == old(allData) + reply.data)
              && (reply.data != [] && !isLoadMore ==> allData == reply.data))
    {
      var sent := if cursor.Some? && cursor.value != "" then cursor else None;
      var reply := net(sent);
      if reply.Threw? {
        errorShown := true;
        return [];
      }
      nextCursor := Truthy(reply.next);
      previousCursor := Truthy(reply.previous);
      var transfers := reply.data;
      if isLoadMore && |transfers| > 0 {
        allData := allData + transfers;
      } else if |transfers| > 0 {
        allData := transfers;
      }
      result := allData;
    }

    /** The start of the script: the first page, drawn when it has data. */
    method Start(net: LegacyNet)
      requires Valid()
      modifies this
      ensures Valid()
      ensures var reply := net(None);
        && (reply.Answered? && reply.data != [] ==> allData == reply.data)
        && (!(reply.Answered? && reply.data != []) ==> allData == old(allData))
        && (reply.Answered? && allData != [] ==> shown == Some(analyze(allData)))
        && (reply.Threw? || allData == [] ==> shown == old(shown))
        && (reply.Threw? ==> errorShown && nextCursor == old(nextCursor) && previousCursor == old(previousCursor))
        && (reply.Answered? ==>
              && errorShown == old(errorShown)
              && nextCursor == Truthy(reply.next) && previousCursor == Truthy(reply.previous))
    {
      var data := FetchData(None, false, net);
      if |data| > 0 {
        shown := Some(analyze(data));
      }
    }

    /** `loadMoreData()`: nothing without a next cursor; otherwise the next page is appended and everything loaded is drawn again. */
    method LoadMoreData(net: LegacyNet)
      requires Valid()
      modifies this
      ensures Valid()
      ensures old(nextCursor).None? ==>
                && allData == old(allData) && nextCursor == old(nextCursor) && previousCursor == old(previousCursor)
                && shown == old(shown) && errorShown == old(errorShown)
      ensures old(nextCursor).Some? ==>
                var reply := net(old(nextCursor));
                && (reply.Answered? ==>
                      && allData == old(allData) + reply.data && errorShown == old(errorShown)
                      && nextCursor == Truthy(reply.next) && previousCursor == Truthy(reply.previous))
                && (reply.Threw? ==>
                      && allData == old(allData) && errorShown
                      && nextCursor == old(nextCursor) && previousCursor == old(previousCursor))
                && shown == Some(analyze(allData))
    {
      if nextCursor.None? {
        return;
      }
      var _ := FetchData(nextCursor, true, net);
      shown := Some(analyze(allData));
    }

    /** `refreshData()`: the first page again, replacing the data when it has any, and everything loaded is drawn again. */
    method RefreshData(net: LegacyNet)
      requires Valid()
      modifies this
      ensures Valid()
      ensures var reply := net(None);
        && (reply.Answered? && reply.data != [] ==> allData == reply.data)
        && (!(reply.Answered? && reply.data != []) ==> allData == old(allData))
        && shown == Some(analyze(allData))
        && (reply.Threw? ==> errorShown && nextCursor == old(nextCursor) && previousCursor == old(previousCursor))
        && (reply.Answered? ==>
              && errorShown == old(errorShown)
              && nextCursor == Truthy(reply.next) && previousCursor == Truthy(reply.previous))
    {
      var _ := FetchData(None, false, net);
      shown := Some(analyze(allData));
    }
  }
}
