/**
 * `analyzeData`: one pass over the transfers that fills the per-pair,
 * per-chain and per-route dictionaries and the total volume, followed by the
 * top-twenty ranking.
 */
module AnalyzeData {
  import opened Wrappers
  import opened Text
  import opened ChainNames
  import opened Tallies
  import opened Transfers
  import opened Ranking

  /** The separator of the two halves of a pair key. */
  const Arrow := " \U{2194} "
  /** The internal step that never names the route. */
  const FeeCollection := "feeCollection"
  const UnknownTool := "Unknown"
  const UnknownIntegrator := "unknown"

  /** One end of a pair: token symbol, chain display name and token icon. */
  datatype Side = Side(token: string, chain: string, icon: Option<string>)

  function SendingSide(tx: Transfer): Side
  {
    Side(tx.sending.token.symbol, ChainName(tx.sending.chainId), tx.sending.token.logoURI)
  }

  function ReceivingSide(tx: Transfer): Side
  {
    Side(tx.receiving.token.symbol, ChainName(tx.receiving.chainId), tx.receiving.token.logoURI)
  }

  /** The symbol followed by the chain name in parentheses: the string the two ends are compared by. */
  function Label(s: Side): string
  {
    s.token + " (" + s.chain + ")"
  }

  /**
   * `(side1, side2)` of the pair a transfer belongs to: the two ends ordered
   * so that side1's label is not the greater one. When both labels are the
   * same string the comparison fails and the receiving end comes first.
   */
  function Orient(tx: Transfer): (sides: (Side, Side))
  {
    var s, r := SendingSide(tx), ReceivingSide(tx);
    if Less(Label(s), Label(r)) then (s, r) else (r, s)
  }

  /** The two ends, ordered so that side2's label is never the smaller. */
  lemma OrientOrders(tx: Transfer)
    ensures Orient(tx) == (SendingSide(tx), ReceivingSide(tx)) || Orient(tx) == (ReceivingSide(tx), SendingSide(tx))
    ensures !Less(Label(Orient(tx).1), Label(Orient(tx).0))
    ensures Label(SendingSide(tx)) == Label(ReceivingSide(tx)) ==> Orient(tx).0 == ReceivingSide(tx)
  {
    LessAsymmetric(Label(SendingSide(tx)), Label(ReceivingSide(tx)));
    LessIrreflexive(Label(SendingSide(tx)));
  }

  /** The two labels, side1 first, joined by a two-headed arrow. */
  function PairKey(tx: Transfer): string
  {
    var sides := Orient(tx);
    Label(sides.0) + Arrow + Label(sides.1)
  }

  /**
   * A transfer and its reverse belong to the same pair. Unless both labels
   * coincide, they also agree on which end is side1.
   */
  lemma PairKeySymmetric(tx: Transfer)
    ensures PairKey(Swap(tx)) == PairKey(tx)
    ensures Label(SendingSide(tx)) != Label(ReceivingSide(tx)) ==> Orient(Swap(tx)) == Orient(tx)
  {
    var ls, lr := Label(SendingSide(tx)), Label(ReceivingSide(tx));
    assert SendingSide(Swap(tx)) == ReceivingSide(tx) && ReceivingSide(Swap(tx)) == SendingSide(tx);
    LessAsymmetric(ls, lr);
    LessTotal(ls, lr);
    LessIrreflexive(ls);
  }

  /** A step that names the route: it has a tool, and not the fee-collection one. */
  predicate IsRouteStep(s: Step)
  {
    s.tool != "" && s.tool != FeeCollection
  }

  /** The index of the first step that names a route other than fee collection, or `|steps|` when none does. */
  function FirstRouteStep(steps: seq<Step>): (i: nat)
    ensures i <= |steps|
  {
    if steps == [] then 0
    else if IsRouteStep(steps[0]) then 0
    else 1 + FirstRouteStep(steps[1..])
  }

  /** The index found is the first step that names the route, or `|steps|` when no step does. */
  lemma {:induction false} FirstRouteStepFinds(steps: seq<Step>)
    ensures FirstRouteStep(steps) < |steps| ==> FirstRouteAt(steps, FirstRouteStep(steps))
    ensures FirstRouteStep(steps) == |steps| ==> forall j :: 0 <= j < |steps| ==> !IsRouteStep(steps[j])
    decreases |steps|
  {
    if steps != [] && !IsRouteStep(steps[0]) {
      FirstRouteStepFinds(steps[1..]);
      assert forall j :: 1 <= j < |steps| ==> steps[j] == steps[1..][j - 1];
    }
  }

  /** `steps[i]` is the first step that names the route. */
  predicate FirstRouteAt(steps: seq<Step>, i: int)
  {
    0 <= i < |steps| && IsRouteStep(steps[i]) && forall j :: 0 <= j < i ==> !IsRouteStep(steps[j])
  }

  /** The transfer's own tool, or "Unknown" when it has none. */
  function FallbackTool(tx: Transfer): string
  {
    if tx.tool != "" then tx.tool else UnknownTool
  }

  /**
   * The route of a transfer: the tool of the first included step that names
   * one and is not a fee-collection step; failing that the transfer's own
   * tool, failing that "Unknown".
   */
  function ResolveTool(tx: Transfer): (tool: string)
    ensures tool != ""
    ensures tool == FeeCollection ==> tx.tool == FeeCollection
  {
    var steps := tx.sending.includedSteps;
    var i := FirstRouteStep(steps);
    FirstRouteStepFinds(steps);
    if i < |steps| then steps[i].tool else FallbackTool(tx)
  }

  /**
   * The route is the tool of the first step that names one; only when no
   * step names one does the transfer's own tool, or "Unknown", stand in.
   */
  lemma ResolveToolChoice(tx: Transfer)
    ensures forall i :: FirstRouteAt(tx.sending.includedSteps, i) ==> ResolveTool(tx) == tx.sending.includedSteps[i].tool
    ensures (forall i :: 0 <= i < |tx.sending.includedSteps| ==> !IsRouteStep(tx.sending.includedSteps[i])) ==>
              ResolveTool(tx) == FallbackTool(tx)
  {
    FirstRouteStepFinds(tx.sending.includedSteps);
  }

  /** The integrator named in the metadata, or "unknown" when there is none. */
  function Integrator(tx: Transfer): (name: string)
    ensures name != ""
    ensures tx.integrator != "" ==> name == tx.integrator
    ensures tx.integrator == "" ==> name == UnknownIntegrator
  {
    if tx.integrator != "" then tx.integrator else UnknownIntegrator
  }

  /** A `pairVolumes` entry. */
  datatype PairAggregate = PairAggregate(
    volume: real,
    count: nat,
    side1: Side,
    side2: Side,
    routes: map<string, Tally>,
    integrators: map<string, Tally>)

  function PairTotal(p: PairAggregate): Tally
  {
    Tally(p.volume, p.count)
  }

  /** A `chainVolumes` value weighed as volume only (it carries no count). */
  function ChainTally(volume: real): Tally
  {
    Tally(volume, 0)
  }

  /** The dictionaries and the running total the pass fills in. */
  datatype Tables = Tables(
    pairVolumes: map<string, PairAggregate>,
    chainVolumes: map<string, real>,
    routeVolumes: map<string, Tally>,
    totalVolume: real)

  const NoTables := Tables(map[], map[], map[], 0.0)

  /** The result of `analyzeData`. */
  datatype Analysis = Analysis(
    pairVolumes: map<string, PairAggregate>,
    chainVolumes: map<string, real>,
    routeVolumes: map<string, Tally>,
    totalVolume: real,
    totalTxs: nat,
    topTransactions: seq<TopEntry>)

  /** One transfer added to a pair: its volume and count, its route and its integrator. */
  function AddToPair(p: PairAggregate, tool: string, integrator: string, v: real): PairAggregate
  {
    p.(volume := p.volume + v, count := p.count + 1,
       routes := Bump(p.routes, tool, v), integrators := Bump(p.integrators, integrator, v))
  }

  function ChainEntry(m: map<string, real>, chain: string): real
  {
    if chain in m then m[chain] else 0.0
  }

  /** What one transfer contributes: its pair and sides, route, integrator, sending chain and volume. */
  datatype Contribution = Contribution(
    pair: string,
    sides: (Side, Side),
    tool: string,
    integrator: string,
    chain: string,
    volume: real)

  function ContributionOf(tx: Transfer, parse: Parser): Contribution
  {
    Contribution(PairKey(tx), Orient(tx), ResolveTool(tx), Integrator(tx), ChainName(tx.sending.chainId), Volume(tx, parse))
  }

  /** The pair a contribution lands in, before it is added: the stored one, or a fresh one with zero totals. */
  function PairBefore(pairs: map<string, PairAggregate>, c: Contribution): PairAggregate
  {
    if c.pair in pairs then pairs[c.pair]
    else PairAggregate(0.0, 0, c.sides.0, c.sides.1, map[], map[])
  }

  /** The upsert into `pairVolumes`. */
  function AddToPairs(pairs: map<string, PairAggregate>, c: Contribution): map<string, PairAggregate>
  {
    pairs[c.pair := AddToPair(PairBefore(pairs, c), c.tool, c.integrator, c.volume)]
  }

  /** The upsert into `chainVolumes`. */
  function AddToChains(chains: map<string, real>, chain: string, v: real): map<string, real>
  {
    chains[chain := ChainEntry(chains, chain) + v]
  }

  /** The upserts of one callback run, with the transfer's contribution already computed. */
  function Upsert(acc: Tables, c: Contribution): Tables
  {
    Tables(
      AddToPairs(acc.pairVolumes, c),
      AddToChains(acc.chainVolumes, c.chain, c.volume),
      Bump(acc.routeVolumes, c.tool, c.volume),
      acc.totalVolume + c.volume)
  }

  /** The contribution of each transfer, in input order. */
  function Contributions(data: seq<Transfer>, parse: Parser): (cs: seq<Contribution>)
    ensures |cs| == |data|
    ensures forall i :: 0 <= i < |data| ==> cs[i] == ContributionOf(data[i], parse)
  {
    seq(|data|, i requires 0 <= i < |data| => ContributionOf(data[i], parse))
  }

  /** The tables after the callback has run on each contribution of `cs`, in order, starting from `acc`. */
  function Absorb(acc: Tables, cs: seq<Contribution>): Tables
    decreases |cs|
  {
    if cs == [] then acc
    else Absorb(Upsert(acc, cs[0]), cs[1..])
  }

  /** The tables after the callback has run on every transfer, starting from empty dictionaries. */
  function Fold(data: seq<Transfer>, parse: Parser): Tables
  {
    Absorb(NoTables, Contributions(data, parse))
  }

  /** The projection of one transfer into the ranking. */
  function Project(tx: Transfer, parse: Parser): (e: TopEntry)
    ensures e.volume == Volume(tx, parse) && e.route == ResolveTool(tx) && e.integrator == Integrator(tx)
    ensures e.rawVolume != ""
    ensures e.rawVolume == "0" || tx.sending.amountUSD == Some(e.rawVolume)
    ensures tx.sending.amountUSD.Some? && tx.sending.amountUSD.value != "" ==> e.rawVolume == tx.sending.amountUSD.value
  {
    TopEntry(
      transactionId := tx.transactionId,
      volume := Volume(tx, parse),
      rawVolume := RawVolume(tx),
      fromSymbol := OrQuestionMark(tx.sending.token.symbol),
      toSymbol := OrQuestionMark(tx.receiving.token.symbol),
      fromChain := ChainName(tx.sending.chainId),
      toChain := ChainName(tx.receiving.chainId),
      fromIcon := tx.sending.token.logoURI,
      toIcon := tx.receiving.token.logoURI,
      route := ResolveTool(tx),
      integrator := Integrator(tx),
      explorerLink := if tx.explorerLink != "" then Some(tx.explorerLink) else None,
      timestamp := Timestamp(tx))
  }

  /** The sending amount in USD exactly as the feed writes it, or "0" when it is absent or empty. */
  function RawVolume(tx: Transfer): string
  {
    match tx.sending.amountUSD
    case Some(s) => if s != "" then s else "0"
    case None => "0"
  }

  /** A token symbol, or "?" when it is empty. */
  function OrQuestionMark(symbol: string): string
  {
    if symbol != "" then symbol else "?"
  }

  /** The sending timestamp, or the receiving one when the sending one is absent or zero. */
  function Timestamp(tx: Transfer): Option<int>
  {
    if tx.sending.timestamp.Some? && tx.sending.timestamp.value != 0 then tx.sending.timestamp
    else tx.receiving.timestamp
  }

  function Projections(data: seq<Transfer>, parse: Parser): (es: seq<TopEntry>)
    ensures |es| == |data|
    ensures forall i :: 0 <= i < |data| ==> es[i] == Project(data[i], parse)
  {
    seq(|data|, i requires 0 <= i < |data| => Project(data[i], parse))
  }

  /**
   * The top-transactions list: `min(20, n)` projections of input records,
   * largest volume first, ties in input order; a record left out has a
   * volume no larger than the last one listed.
   */
  function TopTransactions(data: seq<Transfer>, parse: Parser): (top: seq<TopEntry>)
    ensures |top| == if |data| < TopCount then |data| else TopCount
    ensures SortedDesc(top)
    ensures multiset(top) <= multiset(Projections(data, parse))
    ensures top == SortByVolume(Projections(data, parse))[..|top|]
    ensures forall i :: 0 <= i < |data| ==>
              Project(data[i], parse) in top || Volume(data[i], parse) <= top[|top| - 1].volume
  {
    Top(Projections(data, parse))
  }

  /** The complete result, as a function of the input. */
  function Analyze(data: seq<Transfer>, parse: Parser): Analysis
  {
    var t := Fold(data, parse);
    Analysis(t.pairVolumes, t.chainVolumes, t.routeVolumes, t.totalVolume, |data|, TopTransactions(data, parse))
  }

  /** Per pair: the route tallies and the integrator tallies each add up to the pair's own. */
  ghost predicate PairConserved(p: PairAggregate)
  {
    SumBy(p.routes, Itself) == PairTotal(p) && SumBy(p.integrators, Itself) == PairTotal(p)
  }

  /** Every pair is conserved. */
  ghost predicate PairsConserved(pairs: map<string, PairAggregate>)
  {
    forall key :: key in pairs ==> PairConserved(pairs[key])
  }

  /** The pairs, the routes and the chains each add up to the total volume, and the pairs and the routes to `n` transfers. */
  ghost predicate Balanced(t: Tables, n: nat)
  {
    && SumBy(t.pairVolumes, PairTotal) == Tally(t.totalVolume, n)
    && SumBy(t.routeVolumes, Itself) == Tally(t.totalVolume, n)
    && SumBy(t.chainVolumes, ChainTally) == Tally(t.totalVolume, 0)
  }

  /** The conservation laws of the pass over `n` transfers. */
  ghost predicate Conserved(t: Tables, n: nat)
  {
    PairsConserved(t.pairVolumes) && Balanced(t, n)
  }

  lemma AddToPairConserves(p: PairAggregate, tool: string, integrator: string, v: real)
    requires PairConserved(p)
    ensures PairConserved(AddToPair(p, tool, integrator, v))
    ensures PairTotal(AddToPair(p, tool, integrator, v)) == Plus(PairTotal(p), One(v))
  {
    SumBump(p.routes, tool, v);
    SumBump(p.integrators, integrator, v);
  }

  lemma AddToPairsKeepsConserved(pairs: map<string, PairAggregate>, c: Contribution)
    requires PairsConserved(pairs)
    ensures PairsConserved(AddToPairs(pairs, c))
  {
    var p := PairBefore(pairs, c);
    assert PairConserved(p);
    AddToPairConserves(p, c.tool, c.integrator, c.volume);
  }

  lemma AddToPairsSum(pairs: map<string, PairAggregate>, c: Contribution)
    ensures SumBy(AddToPairs(pairs, c), PairTotal) == Plus(SumBy(pairs, PairTotal), One(c.volume))
  {
    var p := PairBefore(pairs, c);
    var p' := AddToPair(p, c.tool, c.integrator, c.volume);
    PairSumStep(pairs, c.pair, p, p', c.volume);
  }

  lemma PairSumStep(pairs: map<string, PairAggregate>, key: string, p: PairAggregate, p': PairAggregate, v: real)
    requires key in pairs ==> pairs[key] == p
    requires key !in pairs ==> p.volume == 0.0 && p.count == 0
    requires p'.volume == p.volume + v && p'.count == p.count + 1
    ensures SumBy(pairs[key := p'], PairTotal) == Plus(SumBy(pairs, PairTotal), One(v))
  {
    var after := SumBy(pairs[key := p'], PairTotal);
    var before := SumBy(pairs, PairTotal);
    if key in pairs {
      SumByReplace(pairs, key, p', PairTotal);
      assert Plus(after, PairTotal(p)) == Plus(before, PairTotal(p'));
    } else {
      SumByInsert(pairs, key, p', PairTotal);
    }
  }

  lemma AddToChainsSum(chains: map<string, real>, chain: string, v: real)
    ensures SumBy(AddToChains(chains, chain, v), ChainTally) == Plus(SumBy(chains, ChainTally), ChainTally(v))
  {
    var x := ChainEntry(chains, chain) + v;
    var after := SumBy(chains[chain := x], ChainTally);
    var before := SumBy(chains, ChainTally);
    if chain in chains {
      SumByReplace(chains, chain, x, ChainTally);
      assert Plus(after, ChainTally(chains[chain])) == Plus(before, ChainTally(x));
      assert after.volume + chains[chain] == before.volume + x;
    } else {
      SumByInsert(chains, chain, x, ChainTally);
    }
  }

  lemma UpsertBalanced(acc: Tables, c: Contribution, n: nat)
    requires Balanced(acc, n)
    ensures Balanced(Upsert(acc, c), n + 1)
  {
    AddToPairsSum(acc.pairVolumes, c);
    AddToChainsSum(acc.chainVolumes, c.chain, c.volume);
    SumBump(acc.routeVolumes, c.tool, c.volume);
  }

  /** One more transfer keeps every conservation law, with one more transfer counted. */
  lemma UpsertConserves(acc: Tables, c: Contribution, n: nat)
    requires Conserved(acc, n)
    ensures Conserved(Upsert(acc, c), n + 1)
  {
    AddToPairsKeepsConserved(acc.pairVolumes, c);
    UpsertBalanced(acc, c, n);
  }

  /** Running the callback on `cs` adds `|cs|` transfers to every conservation law. */
  lemma {:induction false} AbsorbConserves(acc: Tables, cs: seq<Contribution>, n: nat)
    requires Conserved(acc, n)
    ensures Conserved(Absorb(acc, cs), n + |cs|)
    decreases |cs|
  {
    if cs != [] {
      var next := Upsert(acc, cs[0]);
      UpsertConserves(acc, cs[0], n);
      AbsorbConserves(next, cs[1..], n + 1);
      assert Absorb(acc, cs) == Absorb(next, cs[1..]);
      assert n + 1 + |cs[1..]| == n + |cs|;
    }
  }

  lemma FoldConserves(data: seq<Transfer>, parse: Parser)
    ensures Conserved(Fold(data, parse), |data|)
  {
    assert Conserved(NoTables, 0);
    AbsorbConserves(NoTables, Contributions(data, parse), 0);
  }

  /** How many contributions land in pair `key`, and their summed volume. */
  function Landing(cs: seq<Contribution>, key: string): Tally
    decreases |cs|
  {
    if cs == [] then Zero
    else Plus(if cs[0].pair == key then One(cs[0].volume) else Zero, Landing(cs[1..], key))
  }

  /** How many input transfers have pair key `key`, and their summed volume. */
  function KeyTally(data: seq<Transfer>, parse: Parser, key: string): Tally
    decreases |data|
  {
    if data == [] then Zero
    else Plus(if PairKey(data[0]) == key then One(Volume(data[0], parse)) else Zero, KeyTally(data[1..], parse, key))
  }

  /** The volume and count stored for `key`, zero when there is no entry. */
  function PairEntry(pairs: map<string, PairAggregate>, key: string): Tally
  {
    if key in pairs then PairTotal(pairs[key]) else Zero
  }

  /** One upsert grows the entry for `key` by the contribution exactly when the contribution carries that key. */
  lemma UpsertPairEntry(acc: Tables, c: Contribution, key: string)
    ensures PairEntry(Upsert(acc, c).pairVolumes, key)
      == Plus(PairEntry(acc.pairVolumes, key), if c.pair == key then One(c.volume) else Zero)
  {
    if c.pair != key {
      assert Upsert(acc, c).pairVolumes == acc.pairVolumes[c.pair := AddToPair(PairBefore(acc.pairVolumes, c), c.tool, c.integrator, c.volume)];
    }
  }

  /** A pair's volume and count grow by exactly those of the transfers that land in it. */
  lemma {:induction false} AbsorbPairEntry(acc: Tables, cs: seq<Contribution>, key: string)
    ensures PairEntry(Absorb(acc, cs).pairVolumes, key) == Plus(PairEntry(acc.pairVolumes, key), Landing(cs, key))
    decreases |cs|
  {
    if cs != [] {
      var next := Upsert(acc, cs[0]);
      var here := if cs[0].pair == key then One(cs[0].volume) else Zero;
      var before := PairEntry(acc.pairVolumes, key);
      AbsorbLandingStep(acc, cs, key);
      calc {
        PairEntry(Absorb(acc, cs).pairVolumes, key);
        PairEntry(Absorb(next, cs[1..]).pairVolumes, key);
        { AbsorbPairEntry(next, cs[1..], key); }
        Plus(PairEntry(next.pairVolumes, key), Landing(cs[1..], key));
        { UpsertPairEntry(acc, cs[0], key); }
        Plus(Plus(before, here), Landing(cs[1..], key));
        { PlusAssociative(before, here, Landing(cs[1..], key)); }
        Plus(before, Landing(cs, key));
      }
    } else {
      assert Absorb(acc, cs) == acc;
      assert Landing(cs, key) == Zero;
      var e := PairEntry(acc.pairVolumes, key);
      assert Plus(e, Zero) == e;
    }
  }

  /** The first contribution of a non-empty list is absorbed first and lands first. */
  lemma AbsorbLandingStep(acc: Tables, cs: seq<Contribution>, key: string)
    requires cs != []
    ensures Absorb(acc, cs) == Absorb(Upsert(acc, cs[0]), cs[1..])
    ensures Landing(cs, key) == Plus(if cs[0].pair == key then One(cs[0].volume) else Zero, Landing(cs[1..], key))
  {
  }

  lemma {:induction false} LandingOfContributions(data: seq<Transfer>, parse: Parser, key: string)
    ensures Landing(Contributions(data, parse), key) == KeyTally(data, parse, key)
    decreases |data|
  {
    if data != [] {
      assert Contributions(data, parse)[1..] == Contributions(data[1..], parse);
      LandingOfContributions(data[1..], parse, key);
    }
  }

  /**
   * Every transfer is counted in its pair, whatever its volume: a pair's
   * count is the number of input transfers with that key and its volume is
   * the sum of their volumes.
   */
  lemma PairEntryIsKeyTally(data: seq<Transfer>, parse: Parser, key: string)
    ensures PairEntry(Fold(data, parse).pairVolumes, key) == KeyTally(data, parse, key)
  {
    AbsorbPairEntry(NoTables, Contributions(data, parse), key);
    LandingOfContributions(data, parse, key);
  }

  /** An existing pair keeps its sides whatever is added after it. */
  lemma {:induction false} AbsorbKeepsSides(acc: Tables, cs: seq<Contribution>, key: string)
    requires key in acc.pairVolumes
    ensures key in Absorb(acc, cs).pairVolumes
    ensures Absorb(acc, cs).pairVolumes[key].side1 == acc.pairVolumes[key].side1
    ensures Absorb(acc, cs).pairVolumes[key].side2 == acc.pairVolumes[key].side2
    decreases |cs|
  {
    if cs != [] {
      AbsorbKeepsSides(Upsert(acc, cs[0]), cs[1..], key);
    }
  }

  /** A new pair takes its sides from the first transfer that lands in it. */
  lemma {:induction false} AbsorbSidesFromFirst(acc: Tables, cs: seq<Contribution>, j: nat)
    requires j < |cs|
    requires cs[j].pair !in acc.pairVolumes
    requires forall k :: 0 <= k < j ==> cs[k].pair != cs[j].pair
    ensures cs[j].pair in Absorb(acc, cs).pairVolumes
    ensures Absorb(acc, cs).pairVolumes[cs[j].pair].side1 == cs[j].sides.0
    ensures Absorb(acc, cs).pairVolumes[cs[j].pair].side2 == cs[j].sides.1
    decreases |cs|
  {
    if j == 0 {
      AbsorbKeepsSides(Upsert(acc, cs[0]), cs[1..], cs[0].pair);
    } else {
      assert cs[1..][j - 1] == cs[j];
      AbsorbSidesFromFirst(Upsert(acc, cs[0]), cs[1..], j - 1);
    }
  }

  /**
   * The sides stored for a pair are those of the first transfer with that
   * key, oriented as that transfer orients them; later transfers never
   * overwrite them.
   */
  lemma SidesFromFirstTransfer(data: seq<Transfer>, parse: Parser, j: nat)
    requires j < |data|
    requires forall k :: 0 <= k < j ==> PairKey(data[k]) != PairKey(data[j])
    ensures PairKey(data[j]) in Fold(data, parse).pairVolumes
    ensures Fold(data, parse).pairVolumes[PairKey(data[j])].side1 == Orient(data[j]).0
    ensures Fold(data, parse).pairVolumes[PairKey(data[j])].side2 == Orient(data[j]).1
  {
    var cs := Contributions(data, parse);
    AbsorbSidesFromFirst(NoTables, cs, j);
  }

  /** The tally upsert: a missing key starts at zero volume and count, then gains the volume and one transfer. */
  method BumpEntry(m: map<string, Tally>, k: string, v: real) returns (r: map<string, Tally>)
    ensures r == Bump(m, k, v)
  {
    r := m;
    if k !in r {
      r := r[k := Zero];
    }
    r := r[k := Tally(r[k].volume + v, r[k].count + 1)];
  }

  /** The pair upsert: create the pair with zero totals if it is new, then add the transfer to it, its route and its integrator. */
  method UpsertPair(pairs: map<string, PairAggregate>, c: Contribution) returns (r: map<string, PairAggregate>)
    ensures r == AddToPairs(pairs, c)
  {
    r := pairs;
    if c.pair !in r {
      r := r[c.pair := PairAggregate(0.0, 0, c.sides.0, c.sides.1, map[], map[])];
    }
    var p := r[c.pair];
    assert p == PairBefore(pairs, c);
    p := p.(volume := p.volume + c.volume, count := p.count + 1);
    var routes := BumpEntry(p.routes, c.tool, c.volume);
    var integrators := BumpEntry(p.integrators, c.integrator, c.volume);
    p := p.(routes := routes, integrators := integrators);
    r := r[c.pair := p];
  }

  /** The chain upsert: a missing chain starts at zero, then gains the volume. */
  method AddToChainEntry(chains: map<string, real>, chain: string, v: real) returns (r: map<string, real>)
    ensures r == AddToChains(chains, chain, v)
  {
    r := chains;
    if chain !in r {
      r := r[chain := 0.0];
    }
    r := r[chain := r[chain] + v];
  }

  /**
   * `analyzeData(data)`: one pass over `data` upserting the three
   * dictionaries and the running total, then the ranking. The result is the
   * fold of the callback over the input, it counts every input transfer, and
   * it obeys the conservation laws.
   */
  method AnalyzeDataMethod(data: seq<Transfer>, parse: Parser) returns (a: Analysis)
    ensures a == Analyze(data, parse)
    ensures a.totalTxs == |data|
    ensures Conserved(Tables(a.pairVolumes, a.chainVolumes, a.routeVolumes, a.totalVolume), a.totalTxs)
  {
    var pairVolumes: map<string, PairAggregate> := map[];
    var chainVolumes: map<string, real> := map[];
    var routeVolumes: map<string, Tally> := map[];
    var totalVolume := 0.0;
    var totalTxs := |data|;
    var i := 0;
    ghost var cs := Contributions(data, parse);
    while i < |data|
      invariant 0 <= i <= |data|
      invariant Absorb(Tables(pairVolumes, chainVolumes, routeVolumes, totalVolume), cs[i..]) == Fold(data, parse)
    {
      var c := ContributionOf(data[i], parse);
      ghost var acc := Tables(pairVolumes, chainVolumes, routeVolumes, totalVolume);
      pairVolumes := UpsertPair(pairVolumes, c);
      totalVolume := totalVolume + c.volume;
      chainVolumes := AddToChainEntry(chainVolumes, c.chain, c.volume);
      routeVolumes := BumpEntry(routeVolumes, c.tool, c.volume);
      assert Tables(pairVolumes, chainVolumes, routeVolumes, totalVolume) == Upsert(acc, c);
      assert cs[i..][0] == c;
      assert cs[i..][1..] == cs[i + 1..];
      i := i + 1;
    }
    assert cs[i..] == [];
    FoldConserves(data, parse);
    a := Analysis(pairVolumes, chainVolumes, routeVolumes, totalVolume, totalTxs, TopTransactions(data, parse));
  }
}
