/** Today's refresh tasks and the load that follows them
    (src/automana/worker/tasks/pipelines.py). A tier task fetches the pairs of its slice,
    one chain link per market; the load recomputes what was due today, and stages it with
    one bulk_load + from_raw_to_staging cycle per market. Both run as Celery chains whose
    context carries every keyword argument onward, so what a link sees depends on what
    later links override. */
module IncrementalLoad {
  import opened Options
  import opened Sorting
  import opened TierSchedule
  import opened ServiceChain

  lemma Associative<T>(a: seq<T>, b: seq<T>, c: seq<T>)
    ensures (a + b) + c == a + (b + c)
  {
  }

  lemma UnionAssoc<T>(a: set<T>, b: set<T>, c: set<T>)
    ensures a + b + c == a + (b + c)
  {
  }

  // ---------------------------------------------------------------- the services

  datatype Service =
    | StartRun | FinishRun | RunListIdLoad
    | BulkLoad | FromRawToStaging | RetryRejects | FromStagingToPrices

  /** Keyword names that occur in these chains, or that these services accept. */
  datatype Param =
    | IngestionRunId | PipelineName | SourceName | RunKey | CeleryTaskId | Status | Notes
    | DestinationFolder | RootFolder | BatchSize | IdsList | IdsFilter | MarketName
    | StartId | EndId | Concurrency | Limit | OnlyUnresolved | Processed | Errored | RowsResolved

  datatype Value =
    | Text(text: string)
    | Number(number: int)
    | Ids(ids: seq<int>)
    | MarketIs(market: Market)

  datatype Staged = Staged(source: string, id: int, market: Market)

  /** `files`: the price files on disk, one per print id and market. `raw`: the raw table.
      `staged`: every row a raw-to-staging step has inserted. `promoted`: those that were staged
      when the last promotion into the price table ran. `finished`: the runs concluded as
      successes. */
  datatype World = World(
    files: set<Pair>, raw: set<Pair>, staged: multiset<Staged>, promoted: multiset<Staged>, finished: set<int>)

  type Context = map<Param, Value>
  type Link = Step<Service, Param, Value>
  type Plan = seq<Link>

  function MarketSource(m: Market): string {
    match m
    case Tcg => "tcg"
    case CardMarket => "cardmarket"
    case CardKingdom => "cardkingdom"
    case StarCity => "starcitygames"
  }

  /** A market's code in the price sources is its name, but for starcity. */
  lemma SourceIsName(m: Market)
    ensures MarketSource(m) == if m == StarCity then Name(m) + "games" else Name(m)
  {
  }

  function Accepts(s: Service): set<Param> {
    match s
    case StartRun => {RunKey, PipelineName, SourceName, CeleryTaskId}
    case FinishRun => {IngestionRunId, Status, Notes}
    case RunListIdLoad => {DestinationFolder, IngestionRunId, BatchSize, IdsList, MarketName}
    case BulkLoad => {RootFolder, BatchSize, IngestionRunId, MarketName, StartId, EndId, IdsFilter, Concurrency}
    case FromRawToStaging => {IngestionRunId, SourceName}
    case RetryRejects => {IngestionRunId, Limit, OnlyUnresolved}
    case FromStagingToPrices => {IngestionRunId}
  }

  /** Parameters without a default: a call that lacks one raises. */
  function Requires(s: Service): set<Param> {
    match s
    case StartRun => {RunKey, PipelineName, SourceName}
    case FinishRun => {IngestionRunId}
    case RunListIdLoad => {DestinationFolder, IngestionRunId, BatchSize, IdsList}
    case BulkLoad => {RootFolder}
    case FromRawToStaging => {}
    case RetryRejects => {}
    case FromStagingToPrices => {}
  }

  function MarketArg(args: Context): Market {
    if MarketName in args && args[MarketName].MarketIs? then args[MarketName].market else Tcg
  }

  function SourceArg(args: Context): string {
    if SourceName in args && args[SourceName].Text? then args[SourceName].text else "mtgstocks"
  }

  predicate FolderWanted(args: Context, id: int) {
    && (IdsFilter in args && args[IdsFilter].Ids? ==> id in args[IdsFilter].ids)
    && (StartId in args && args[StartId].Number? ==> args[StartId].number <= id)
    && (EndId in args && args[EndId].Number? ==> id <= args[EndId].number)
  }

  function StagedRows(rows: set<Pair>, source: string): set<Staged> {
    set p | p in rows :: Staged(source, p.0, p.1)
  }

  function ServedIds(served: set<Pair>, m: Market, ids: seq<int>): set<Pair> {
    set p | p in served && p.1 == m && p.0 in ids
  }

  /** `served`: the pairs the price API can deliver today; `run`: the id of the new run. */
  function Run(served: set<Pair>, run: int, s: Service, args: Context, w: World)
    : (World, Outcome<Param, Value>)
  {
    if !(Requires(s) <= args.Keys) then (w, Raised)
    else
      match s
      case StartRun => (w, Dict(map[IngestionRunId := Number(run)]))
      case RunListIdLoad =>
        if args[IdsList].Ids? then
          var fetched := ServedIds(served, MarketArg(args), args[IdsList].ids);
          (w.(files := w.files + fetched),
           Dict(map[Status := Text("success"), Processed := Number(|fetched|),
                    Errored := Number(|args[IdsList].ids| - |fetched|)]))
        else (w, Raised)
      case BulkLoad =>
        // clears the raw table, then copies the wanted folders that have a file for the market
        (w.(raw := set p | p in w.files && p.1 == MarketArg(args) && FolderWanted(args, p.0)), Other)
      case FromRawToStaging =>
        (w.(staged := w.staged + multiset(StagedRows(w.raw, SourceArg(args)))), Other)
      case RetryRejects => (w, Dict(map[RowsResolved := Number(0)]))
      case FromStagingToPrices => (w.(promoted := w.staged), Other)
      case FinishRun =>
        if args[IngestionRunId].Number? && (Status in args ==> args[Status] == Text("success")) then
          (w.(finished := w.finished + {args[IngestionRunId].number}), Other)
        else (w, Other)
  }

  function AllServices(served: set<Pair>, run: int): Services<Service, Param, Value, World> {
    Services(s => Some(Accepts(s)), (s, args, w) => Run(served, run, s, args, w))
  }

  /** The world a chain leaves behind. */
  function Execute(served: set<Pair>, run: int, w: World, ctx: Context, plan: Plan): World {
    Celery(AllServices(served, run), w, ctx, plan).1
  }

  /** One link of a chain that does not raise. */
  lemma ExecuteLink(served: set<Pair>, run: int, w: World, ctx: Context, plan: Plan)
    requires plan != []
    ensures
      var ctx' := ctx + plan[0].kwargs;
      var (w', o) := Run(served, run, plan[0].path, Filter(ctx', Accepts(plan[0].path)), w);
      !o.Raised? ==> Execute(served, run, w, ctx, plan) == Execute(served, run, w', Merge(ctx', o), plan[1..])
  {
  }

  // ---------------------------------------------------------------- a tier task

  /** The ids of a market's pairs, in list order. */
  function IdsOf(pairs: seq<Pair>, m: Market): seq<int> {
    if pairs == [] then []
    else IdsOf(pairs[..|pairs| - 1], m) +
         if pairs[|pairs| - 1].1 == m then [pairs[|pairs| - 1].0] else []
  }

  lemma {:induction false} IdsOfMember(pairs: seq<Pair>, m: Market, id: int)
    ensures id in IdsOf(pairs, m) <==> (id, m) in pairs
  {
    if pairs != [] {
      IdsOfMember(pairs[..|pairs| - 1], m, id);
      assert pairs == pairs[..|pairs| - 1] + [pairs[|pairs| - 1]];
    }
  }

  /** The non-empty groups of a list of pairs. */
  function Grouped(pairs: seq<Pair>): map<Market, seq<int>> {
    map m: Market | IdsOf(pairs, m) != [] :: IdsOf(pairs, m)
  }

  lemma GroupedStep(pairs: seq<Pair>, p: Pair)
    ensures Grouped(pairs + [p]) == Grouped(pairs)[p.1 := IdsOf(pairs, p.1) + [p.0]]
  {
    var longer := pairs + [p];
    assert longer[..|longer| - 1] == pairs;
    forall m: Market
      ensures IdsOf(longer, m) == IdsOf(pairs, m) + if m == p.1 then [p.0] else []
    {
    }
    var after, expected := Grouped(longer), Grouped(pairs)[p.1 := IdsOf(pairs, p.1) + [p.0]];
    forall m: Market ensures m in after <==> m in expected {
    }
    assert after.Keys == expected.Keys;
    assert forall m :: m in after ==> after[m] == expected[m];
  }

  method GroupPairsByMarket(pairs: seq<Pair>) returns (grouped: map<Market, seq<int>>)
    ensures grouped == Grouped(pairs)
  {
    grouped := map[];
    for i := 0 to |pairs|
      invariant grouped == Grouped(pairs[..i])
    {
      var (pid, market) := pairs[i];
      if market !in grouped {
        grouped := grouped[market := []];
      }
      grouped := grouped[market := grouped[market] + [pid]];
      GroupedStep(pairs[..i], pairs[i]);
      assert pairs[..i + 1] == pairs[..i] + [pairs[i]];
    }
    assert pairs[..|pairs|] == pairs;
  }

  /** Markets in the order of their names. */
  function NameOrder(): (ms: seq<Market>)
    ensures forall m: Market :: m in ms
    ensures forall i, j :: 0 <= i < j < |ms| ==> Rank(ms[i]) < Rank(ms[j])
  {
    var ms := [CardKingdom, CardMarket, StarCity, Tcg];
    assert forall m: Market :: m in ms by {
      forall m: Market ensures m in ms {
        assert m == ms[Rank(m)];
      }
    }
    ms
  }

  function StartLink(pipeline: string, runKey: string, task: string): Link {
    Step(StartRun, map[PipelineName := Text(pipeline), SourceName := Text("mtgstocks"),
                       RunKey := Text(runKey), CeleryTaskId := Text(task)])
  }

  function FinishLink(): Link {
    Step(FinishRun, map[Status := Text("success")])
  }

  function FetchLink(ids: seq<int>, m: Market): Link {
    Step(RunListIdLoad, map[DestinationFolder := Text("prints"), BatchSize := Number(500),
                            IdsList := Ids(ids), MarketName := MarketIs(m)])
  }

  function FetchLinksOf(m: Market, grouped: map<Market, seq<int>>): Plan {
    if m in grouped then [FetchLink(grouped[m], m)] else []
  }

  function FetchLinks(ms: seq<Market>, grouped: map<Market, seq<int>>): Plan {
    if ms == [] then []
    else FetchLinksOf(ms[0], grouped) + FetchLinks(ms[1..], grouped)
  }

  function TierPlan(pairs: seq<Pair>, order: seq<Market>, start: Link): Plan {
    [start] + FetchLinks(order, Grouped(pairs)) + [FinishLink()]
  }

  method MakeFetchLinks(order: seq<Market>, byMarket: map<Market, seq<int>>) returns (steps: Plan)
    ensures steps == FetchLinks(order, byMarket)
  {
    steps := [];
    for i := 0 to |order|
      invariant steps + FetchLinks(order[i..], byMarket) == FetchLinks(order, byMarket)
    {
      ghost var one := FetchLinksOf(order[i], byMarket);
      assert order[i..][1..] == order[i + 1..];
      Associative(steps, one, FetchLinks(order[i + 1..], byMarket));
      if order[i] in byMarket {
        steps := steps + [FetchLink(byMarket[order[i]], order[i])];
      } else {
        assert steps + one == steps;
      }
    }
    assert steps + [] == steps;
  }

  /** The chain a tier task starts; None when its run is already active. */
  method TierRefresh(
      ids: seq<int>, t: Tier, slot: int, day: int, isActive: bool, pipeline: string, runKey: string, task: string)
    returns (plan: Option<Plan>)
    ensures plan == if isActive then None
                    else Some(TierPlan(SlicePairs(ids, t, slot, day), NameOrder(), StartLink(pipeline, runKey, task)))
  {
    if isActive {
      return None;
    }
    var byMarket := GroupPairsByMarket(SlicePairs(ids, t, slot, day));
    var fetches := MakeFetchLinks(NameOrder(), byMarket);
    return Some([StartLink(pipeline, runKey, task)] + fetches + [FinishLink()]);
  }

  predicate OfRun(ctx: Context, run: int) {
    IngestionRunId in ctx && ctx[IngestionRunId] == Number(run)
  }

  /** What every later link of a chain may count on: the run's id is in the context, and
      nothing that would narrow a bulk load is. */
  ghost predicate LoadContext(ctx: Context, run: int) {
    OfRun(ctx, run) && StartId !in ctx && EndId !in ctx
  }

  lemma StartRuns(served: set<Pair>, run: int, w: World, pipeline: string, runKey: string, task: string, rest: Plan)
    returns (ctx: Context)
    ensures LoadContext(ctx, run)
    ensures Execute(served, run, w, map[], [StartLink(pipeline, runKey, task)] + rest) ==
      Execute(served, run, w, ctx, rest)
  {
    var start := StartLink(pipeline, runKey, task);
    var plan := [start] + rest;
    assert plan[0] == start && plan[1..] == rest;
    ExecuteLink(served, run, w, map[], plan);
    ctx := Merge(map[] + start.kwargs, Dict(map[IngestionRunId := Number(run)]));
  }

  lemma FetchArgs(ctx: Context, run: int, ids: seq<int>, m: Market)
    requires OfRun(ctx, run)
    ensures
      var args := Filter(ctx + FetchLink(ids, m).kwargs, Accepts(RunListIdLoad));
      Requires(RunListIdLoad) <= args.Keys && args[IdsList] == Ids(ids) && MarketArg(args) == m
    ensures OfRun(ctx + FetchLink(ids, m).kwargs, run)
  {
  }

  lemma FetchOutcome(served: set<Pair>, run: int, args: Context, w: World, ids: seq<int>, m: Market)
    requires Requires(RunListIdLoad) <= args.Keys && args[IdsList] == Ids(ids) && MarketArg(args) == m
    ensures
      var (w', o) := Run(served, run, RunListIdLoad, args, w);
      w' == w.(files := w.files + ServedIds(served, m, ids)) && o.Dict? && IngestionRunId !in o.entries
  {
  }

  lemma FetchLinkRuns(served: set<Pair>, run: int, w: World, ctx: Context, ids: seq<int>, m: Market, rest: Plan)
    returns (ctx': Context)
    requires OfRun(ctx, run)
    ensures OfRun(ctx', run)
    ensures Execute(served, run, w, ctx, [FetchLink(ids, m)] + rest) ==
            Execute(served, run, w.(files := w.files + ServedIds(served, m, ids)), ctx', rest)
  {
    var link := FetchLink(ids, m);
    var plan := [link] + rest;
    assert plan[0] == link && plan[1..] == rest;
    ExecuteLink(served, run, w, ctx, plan);
    FetchArgs(ctx, run, ids, m);
    var args := Filter(ctx + link.kwargs, Accepts(RunListIdLoad));
    FetchOutcome(served, run, args, w, ids, m);
    ctx' := Merge(ctx + link.kwargs, Run(served, run, RunListIdLoad, args, w).1);
  }

  function Finished(w: World, run: int): World {
    w.(finished := w.finished + {run})
  }

  lemma FinishLinkRuns(served: set<Pair>, run: int, w: World, ctx: Context)
    requires OfRun(ctx, run)
    ensures Execute(served, run, w, ctx, [FinishLink()]) == Finished(w, run)
  {
    ExecuteLink(served, run, w, ctx, [FinishLink()]);
  }

  /** The pairs of the given markets that the API serves. */
  function ServedOf(served: set<Pair>, pairs: seq<Pair>, ms: seq<Market>): set<Pair> {
    set p | p in served && p in pairs && p.1 in ms
  }

  lemma ServedSplits(served: set<Pair>, pairs: seq<Pair>, ms: seq<Market>)
    requires ms != []
    ensures ServedOf(served, pairs, ms) ==
            ServedIds(served, ms[0], IdsOf(pairs, ms[0])) + ServedOf(served, pairs, ms[1..])
  {
    forall p | p in served && p.1 == ms[0] ensures p.0 in IdsOf(pairs, ms[0]) <==> p in pairs {
      IdsOfMember(pairs, ms[0], p.0);
    }
    assert ms == [ms[0]] + ms[1..];
  }

  /** A market's fetch link, or nothing if the slice has none of it. */
  lemma MarketFetches(
      served: set<Pair>, run: int, w: World, ctx: Context, pairs: seq<Pair>, m: Market, rest: Plan, w': World)
    returns (ctx': Context)
    requires OfRun(ctx, run) && w' == w.(files := w.files + ServedIds(served, m, IdsOf(pairs, m)))
    ensures OfRun(ctx', run)
    ensures Execute(served, run, w, ctx, FetchLinksOf(m, Grouped(pairs)) + rest) == Execute(served, run, w', ctx', rest)
  {
    var ids := IdsOf(pairs, m);
    if ids == [] {
      ctx' := ctx;
      assert FetchLinksOf(m, Grouped(pairs)) + rest == rest;
      assert ServedIds(served, m, ids) == {} && w.files + {} == w.files;
    } else {
      ctx' := FetchLinkRuns(served, run, w, ctx, ids, m, rest);
    }
  }

  /** The fetch links add exactly the served pairs of the markets they cover. */
  lemma {:induction false} FetchLinksRun(
      served: set<Pair>, run: int, w: World, ctx: Context, ms: seq<Market>, pairs: seq<Pair>)
    requires OfRun(ctx, run)
    ensures Execute(served, run, w, ctx, FetchLinks(ms, Grouped(pairs)) + [FinishLink()]) ==
            Finished(w.(files := w.files + ServedOf(served, pairs, ms)), run)
    decreases |ms|
  {
    if ms == [] {
      assert FetchLinks(ms, Grouped(pairs)) + [FinishLink()] == [FinishLink()];
      FinishLinkRuns(served, run, w, ctx);
      assert w.files + ServedOf(served, pairs, []) == w.files;
    } else {
      var m, rest := ms[0], FetchLinks(ms[1..], Grouped(pairs));
      Associative(FetchLinksOf(m, Grouped(pairs)), rest, [FinishLink()]);
      var w' := w.(files := w.files + ServedIds(served, m, IdsOf(pairs, m)));
      var ctx' := MarketFetches(served, run, w, ctx, pairs, m, rest + [FinishLink()], w');
      FetchLinksRun(served, run, w', ctx', ms[1..], pairs);
      ServedSplits(served, pairs, ms);
      UnionAssoc(w.files, ServedIds(served, m, IdsOf(pairs, m)), ServedOf(served, pairs, ms[1..]));
    }
  }

  /** A tier task's chain fetches exactly the served pairs of its slice. */
  lemma TierPlanFetchesItsSlice(
      served: set<Pair>, run: int, w: World, pairs: seq<Pair>, order: seq<Market>,
      pipeline: string, runKey: string, task: string)
    requires forall m: Market :: m in order
    ensures Execute(served, run, w, map[], TierPlan(pairs, order, StartLink(pipeline, runKey, task))) ==
            Finished(w.(files := w.files + set p | p in served && p in pairs), run)
  {
    var start, rest := StartLink(pipeline, runKey, task), FetchLinks(order, Grouped(pairs)) + [FinishLink()];
    assert TierPlan(pairs, order, start) == [start] + rest;
    var ctx := StartRuns(served, run, w, pipeline, runKey, task, rest);
    FetchLinksRun(served, run, w, ctx, order, pairs);
    assert ServedOf(served, pairs, order) == set p | p in served && p in pairs;
  }

  // ---------------------------------------------------------------- what is due today

  function ToSet(pairs: seq<Pair>): set<Pair> {
    set p | p in pairs
  }

  function UpTo(f: nat -> set<Pair>, n: nat): set<Pair> {
    if n == 0 then {} else UpTo(f, n - 1) + f(n - 1)
  }

  lemma {:induction false} InUpTo(f: nat -> set<Pair>, n: nat, p: Pair)
    ensures p in UpTo(f, n) <==> exists i: nat :: i < n && p in f(i)
  {
    if n > 0 {
      InUpTo(f, n - 1, p);
    }
  }

  /** One reading of a tier's print ids: the ids it listed, and the date on which the slice
      of each slot is computed from them. */
  datatype Listing = Listing(ids: seq<int>, date: nat -> int)

  /** The load asks for the lists again for every tier and market. */
  type Readings = (Tier, Market) -> Listing

  function SlotPairs(l: Listing, t: Tier): nat -> set<Pair> {
    (slot: nat) => ToSet(SlicePairs(l.ids, t, slot, l.date(slot)))
  }

  function DueInTier(l: Listing, t: Tier): set<Pair> {
    UpTo(SlotPairs(l, t), WindowOf(t).slots)
  }

  function OfMarket(pairs: set<Pair>, m: Market): set<Pair> {
    set p | p in pairs && p.1 == m
  }

  function DueInMarkets(readings: Readings, t: Tier, ms: seq<Market>): set<Pair> {
    if ms == [] then {}
    else
      var m := ms[|ms| - 1];
      DueInMarkets(readings, t, ms[..|ms| - 1]) + OfMarket(DueInTier(readings(t, m), t), m)
  }

  function DueIn(readings: Readings, tiers: seq<Tier>): set<Pair> {
    if tiers == [] then {}
    else
      var t := tiers[|tiers| - 1];
      DueIn(readings, tiers[..|tiers| - 1]) + DueInMarkets(readings, t, Markets(t))
  }

  /** The pairs the load takes to be refreshed today. */
  function DueToday(readings: Readings): set<Pair> {
    DueIn(readings, [Tier1, Tier2, Tier3])
  }

  function IdsDue(due: set<Pair>, m: Market): set<int> {
    set p | p in due && p.1 == m :: p.0
  }

  method AddMatching(before: set<int>, slice: seq<Pair>, market: Market) returns (found: set<int>)
    ensures found == before + IdsDue(ToSet(slice), market)
  {
    found := before;
    for i := 0 to |slice|
      invariant found == before + IdsDue(ToSet(slice[..i]), market)
    {
      assert ToSet(slice[..i + 1]) == ToSet(slice[..i]) + {slice[i]};
      if slice[i].1 == market {
        found := found + {slice[i].0};
      }
    }
    assert slice[..|slice|] == slice;
  }

  method IdsOfSlots(slice: nat -> seq<Pair>, ghost due: nat -> set<Pair>, market: Market, slots: nat)
    returns (found: set<int>)
    requires forall i :: ToSet(slice(i)) == due(i)
    ensures found == IdsDue(UpTo(due, slots), market)
  {
    found := {};
    for slot := 0 to slots
      invariant found == IdsDue(UpTo(due, slot), market)
    {
      found := AddMatching(found, slice(slot), market);
      assert UpTo(due, slot + 1) == UpTo(due, slot) + ToSet(slice(slot));
    }
  }

  method TierTodayIdsForMarket(l: Listing, t: Tier, market: Market) returns (today: seq<int>)
    ensures today == Ascending(IdsDue(DueInTier(l, t), market))
  {
    var slice := (slot: nat) => SlicePairs(l.ids, t, slot, l.date(slot));
    var found := IdsOfSlots(slice, SlotPairs(l, t), market, WindowOf(t).slots);
    return Ascending(found);
  }

  // ---------------------------------------------------------------- the load

  function BulkLink(ids: seq<int>, m: Market): Link {
    Step(BulkLoad, map[RootFolder := Text("prints"), BatchSize := Number(2000),
                       IdsFilter := Ids(ids), MarketName := MarketIs(m)])
  }

  function StageLink(m: Market): Link {
    Step(FromRawToStaging, map[SourceName := Text(MarketSource(m))])
  }

  /** One cycle of a market with something due. */
  function CycleLinks(ids: seq<int>, m: Market): Plan {
    if ids == [] then [] else [BulkLink(ids, m), StageLink(m)]
  }

  function LoadLinks(ms: seq<Market>, due: set<Pair>): Plan {
    if ms == [] then [] else CycleLinks(Ascending(IdsDue(due, ms[0])), ms[0]) + LoadLinks(ms[1..], due)
  }

  function Tail(): Plan {
    [Step(RetryRejects, map[]), Step(FromStagingToPrices, map[]), FinishLink()]
  }

  function LoadOrder(): (ms: seq<Market>)
    ensures forall m: Market :: m in ms
    ensures Distinct(ms)
  {
    var ms := [Tcg, CardMarket, CardKingdom, StarCity];
    assert forall m: Market :: m in ms by {
      forall m: Market ensures m in ms {
        assert m == ms[0] || m == ms[1] || m == ms[2] || m == ms[3];
      }
    }
    ms
  }

  function LoadPlan(due: set<Pair>, order: seq<Market>, start: Link): Plan {
    [start] + LoadLinks(order, due) + Tail()
  }

  function Get(m: map<Market, set<int>>, market: Market): set<int> {
    if market in m then m[market] else {}
  }

  /** Adds ids to a market's set, made if missing; no ids, no set. */
  function Update(m: map<Market, set<int>>, market: Market, ids: seq<int>): (r: map<Market, set<int>>)
    ensures Get(r, market) == Get(m, market) + set id | id in ids
    ensures forall other :: other != market ==> Get(r, other) == Get(m, other)
  {
    if ids == [] then m else m[market := Get(m, market) + set id | id in ids]
  }

  lemma IdsDueSplits(a: set<Pair>, b: set<Pair>)
    ensures forall m :: IdsDue(a + b, m) == IdsDue(a, m) + IdsDue(b, m)
  {
  }

  lemma IdsOfMarket(due: set<Pair>, market: Market)
    ensures forall m :: IdsDue(OfMarket(due, market), m) == if m == market then IdsDue(due, m) else {}
  {
  }

  /** The ids per market are those before and the due ones. */
  ghost predicate Added(after: map<Market, set<int>>, before: map<Market, set<int>>, due: set<Pair>) {
    forall m :: Get(after, m) == Get(before, m) + IdsDue(due, m)
  }

  lemma AddedMarket(
      after: map<Market, set<int>>, before: map<Market, set<int>>, due: set<Pair>, more: set<Pair>, market: Market,
      today: seq<int>)
    requires Added(after, before, due) && today == Ascending(IdsDue(more, market))
    ensures Added(Update(after, market, today), before, due + OfMarket(more, market))
  {
    IdsDueSplits(due, OfMarket(more, market));
    IdsOfMarket(more, market);
    assert (set id | id in today) == IdsDue(more, market);
    var after' := Update(after, market, today);
    forall m ensures Get(after', m) == Get(before, m) + IdsDue(due + OfMarket(more, market), m) {
      assert Get(after, m) == Get(before, m) + IdsDue(due, m);
    }
  }

  lemma AddedThen(
      last: map<Market, set<int>>, after: map<Market, set<int>>, before: map<Market, set<int>>,
      a: set<Pair>, b: set<Pair>)
    requires Added(after, before, a) && Added(last, after, b)
    ensures Added(last, before, a + b)
  {
    IdsDueSplits(a, b);
    forall m ensures Get(last, m) == Get(before, m) + IdsDue(a + b, m) {
      assert Get(after, m) == Get(before, m) + IdsDue(a, m);
    }
  }

  lemma DueInNext(readings: Readings, t: Tier, ms: seq<Market>, j: nat)
    requires j < |ms|
    ensures DueInMarkets(readings, t, ms[..j + 1]) ==
            DueInMarkets(readings, t, ms[..j]) + OfMarket(DueInTier(readings(t, ms[j]), t), ms[j])
  {
    assert ms[..j + 1][..j] == ms[..j];
  }

  method AddTier(readings: Readings, t: Tier, before: map<Market, set<int>>) returns (after: map<Market, set<int>>)
    ensures Added(after, before, DueInMarkets(readings, t, Markets(t)))
  {
    after := before;
    var markets := Markets(t);
    for j := 0 to |markets|
      invariant Added(after, before, DueInMarkets(readings, t, markets[..j]))
    {
      var l := readings(t, markets[j]);
      var today := TierTodayIdsForMarket(l, t, markets[j]);
      DueInNext(readings, t, markets, j);
      AddedMarket(after, before, DueInMarkets(readings, t, markets[..j]), DueInTier(l, t), markets[j], today);
      after := Update(after, markets[j], today);
    }
    assert markets[..|markets|] == markets;
  }

  method AddTiers(readings: Readings, tiers: seq<Tier>) returns (marketIds: map<Market, set<int>>)
    ensures Added(marketIds, map[], DueIn(readings, tiers))
  {
    marketIds := map[];
    for i := 0 to |tiers|
      invariant Added(marketIds, map[], DueIn(readings, tiers[..i]))
    {
      ghost var sofar := marketIds;
      marketIds := AddTier(readings, tiers[i], marketIds);
      assert tiers[..i + 1][..i] == tiers[..i];
      ghost var more := DueInMarkets(readings, tiers[i], Markets(tiers[i]));
      AddedThen(marketIds, sofar, map[], DueIn(readings, tiers[..i]), more);
    }
    assert tiers[..|tiers|] == tiers;
  }

  /** The ids per market, merged over the tiers in the source's nested loops. */
  method CollectMarketIds(readings: Readings) returns (marketIds: map<Market, set<int>>)
    ensures forall m :: Get(marketIds, m) == IdsDue(DueToday(readings), m)
  {
    marketIds := AddTiers(readings, [Tier1, Tier2, Tier3]);
    forall m ensures Get(marketIds, m) == IdsDue(DueToday(readings), m) {
      assert Get(map[], m) + IdsDue(DueToday(readings), m) == IdsDue(DueToday(readings), m);
    }
  }

  method MakeLoadLinks(order: seq<Market>, marketIds: map<Market, set<int>>, ghost due: set<Pair>) returns (steps: Plan)
    requires forall m :: Get(marketIds, m) == IdsDue(due, m)
    ensures steps == LoadLinks(order, due)
  {
    steps := [];
    for i := 0 to |order|
      invariant steps + LoadLinks(order[i..], due) == LoadLinks(order, due)
    {
      var ids := Ascending(Get(marketIds, order[i]));
      assert order[i..][1..] == order[i + 1..];
      ghost var cycle := CycleLinks(ids, order[i]);
      Associative(steps, cycle, LoadLinks(order[i + 1..], due));
      if ids != [] {
        steps := steps + [BulkLink(ids, order[i]), StageLink(order[i])];
      } else {
        assert steps + cycle == steps;
      }
    }
    assert steps + [] == steps;
  }

  /** The chain of the incremental load; None when its run is already active. */
  method IncrementalLoad(readings: Readings, isActive: bool, runKey: string, task: string)
    returns (plan: Option<Plan>)
    ensures plan == if isActive then None
                    else Some(LoadPlan(DueToday(readings), LoadOrder(),
                                       StartLink("mtgstock_incremental_load", runKey, task)))
  {
    if isActive {
      return None;
    }
    var marketIds := CollectMarketIds(readings);
    var loads := MakeLoadLinks(LoadOrder(), marketIds, DueToday(readings));
    return Some([StartLink("mtgstock_incremental_load", runKey, task)] + loads + Tail());
  }

  // ---------------------------------------------------------------- what the load stages

  /** The files of a market among the given ids. */
  function FilesFor(files: set<Pair>, m: Market, ids: seq<int>): set<Pair> {
    set p | p in files && p.1 == m && p.0 in ids
  }

  lemma BulkArgs(ctx: Context, run: int, ids: seq<int>, m: Market)
    requires LoadContext(ctx, run)
    ensures
      var args := Filter(ctx + BulkLink(ids, m).kwargs, Accepts(BulkLoad));
      RootFolder in args && MarketArg(args) == m && forall id :: FolderWanted(args, id) <==> id in ids
  {
    var args := Filter(ctx + BulkLink(ids, m).kwargs, Accepts(BulkLoad));
    assert args[IdsFilter] == Ids(ids) && StartId !in args && EndId !in args;
  }

  lemma BulkRuns(served: set<Pair>, run: int, w: World, ctx: Context, ids: seq<int>, m: Market, rest: Plan)
    requires LoadContext(ctx, run)
    ensures LoadContext(ctx + BulkLink(ids, m).kwargs, run)
    ensures Execute(served, run, w, ctx, [BulkLink(ids, m)] + rest) ==
            Execute(served, run, w.(raw := FilesFor(w.files, m, ids)), ctx + BulkLink(ids, m).kwargs, rest)
  {
    var bulk := BulkLink(ids, m);
    var plan := [bulk] + rest;
    assert plan[0] == bulk && plan[1..] == rest;
    ExecuteLink(served, run, w, ctx, plan);
    BulkArgs(ctx, run, ids, m);
    var args := Filter(ctx + bulk.kwargs, Accepts(BulkLoad));
    assert Run(served, run, BulkLoad, args, w).0.raw == FilesFor(w.files, m, ids);
  }

  lemma StageRuns(served: set<Pair>, run: int, w: World, ctx: Context, m: Market, rest: Plan)
    requires LoadContext(ctx, run)
    ensures LoadContext(ctx + StageLink(m).kwargs, run)
    ensures Execute(served, run, w, ctx, [StageLink(m)] + rest) ==
            Execute(served, run, w.(staged := w.staged + multiset(StagedRows(w.raw, MarketSource(m)))),
                    ctx + StageLink(m).kwargs, rest)
  {
    var plan := [StageLink(m)] + rest;
    assert plan[0] == StageLink(m) && plan[1..] == rest;
    ExecuteLink(served, run, w, ctx, plan);
    assert SourceArg(Filter(ctx + StageLink(m).kwargs, Accepts(FromRawToStaging))) == MarketSource(m);
  }

  /** One bulk_load + from_raw_to_staging cycle: the raw table holds only this market's
      rows when they are staged, under this market's source. */
  lemma CycleRuns(served: set<Pair>, run: int, w: World, ctx: Context, ids: seq<int>, m: Market, rest: Plan)
    returns (w': World, ctx': Context)
    requires LoadContext(ctx, run)
    ensures LoadContext(ctx', run) && w'.files == w.files && w'.finished == w.finished
    ensures w'.staged == w.staged + multiset(StagedRows(FilesFor(w.files, m, ids), MarketSource(m)))
    ensures Execute(served, run, w, ctx, [BulkLink(ids, m), StageLink(m)] + rest) ==
      Execute(served, run, w', ctx', rest)
  {
    assert [BulkLink(ids, m), StageLink(m)] + rest == [BulkLink(ids, m)] + ([StageLink(m)] + rest);
    BulkRuns(served, run, w, ctx, ids, m, [StageLink(m)] + rest);
    var w1 := w.(raw := FilesFor(w.files, m, ids));
    StageRuns(served, run, w1, ctx + BulkLink(ids, m).kwargs, m, rest);
    w' := w1.(staged := w1.staged + multiset(StagedRows(w1.raw, MarketSource(m))));
    ctx' := ctx + BulkLink(ids, m).kwargs + StageLink(m).kwargs;
  }

  lemma PromoteRuns(served: set<Pair>, run: int, w: World, ctx: Context, plan: Plan)
    requires OfRun(ctx, run) && plan == [Step(FromStagingToPrices, map[]), FinishLink()]
    ensures Execute(served, run, w, ctx, plan) == Finished(w.(promoted := w.staged), run)
  {
    ExecuteLink(served, run, w, ctx, plan);
    assert plan[1..] == [FinishLink()];
    FinishLinkRuns(served, run, w.(promoted := w.staged), ctx + map[]);
  }

  lemma TailRuns(served: set<Pair>, run: int, w: World, ctx: Context)
    requires OfRun(ctx, run)
    ensures Execute(served, run, w, ctx, Tail()) == Finished(w.(promoted := w.staged), run)
  {
    ExecuteLink(served, run, w, ctx, Tail());
    var ctx1 := Merge(ctx + map[], Dict(map[RowsResolved := Number(0)]));
    PromoteRuns(served, run, w, ctx1, Tail()[1..]);
  }

  /** The rows staged for a set of pairs, each under its own market's source. */
  function Rows(pairs: set<Pair>): set<Staged> {
    set p | p in pairs :: Staged(MarketSource(p.1), p.0, p.1)
  }

  /** The due pairs of the given markets that have a file. */
  function Loadable(files: set<Pair>, due: set<Pair>, ms: seq<Market>): set<Pair> {
    set p | p in files && p in due && p.1 in ms
  }

  lemma LoadableSplits(files: set<Pair>, due: set<Pair>, ms: seq<Market>)
    requires ms != [] && ms[0] !in ms[1..]
    ensures multiset(Rows(Loadable(files, due, ms))) ==
      multiset(StagedRows(FilesFor(files, ms[0], Ascending(IdsDue(due, ms[0]))), MarketSource(ms[0])))
      + multiset(Rows(Loadable(files, due, ms[1..])))
  {
    var m := ms[0];
    var here := FilesFor(files, m, Ascending(IdsDue(due, m)));
    var a, b := StagedRows(here, MarketSource(m)), Rows(Loadable(files, due, ms[1..]));
    assert forall p :: p in Loadable(files, due, ms) <==> p in here || p in Loadable(files, due, ms[1..]) by {
      assert ms == [m] + ms[1..];
    }
    assert a == Rows(here);
    assert Rows(Loadable(files, due, ms)) == a + b;
    assert a !! b;
  }

  /** A market's cycle, or nothing if nothing of it is due. */
  lemma MarketRuns(served: set<Pair>, run: int, w: World, ctx: Context, ids: seq<int>, m: Market, rest: Plan)
    returns (w': World, ctx': Context)
    requires LoadContext(ctx, run)
    ensures LoadContext(ctx', run) && w'.files == w.files && w'.finished == w.finished
    ensures w'.staged == w.staged + multiset(StagedRows(FilesFor(w.files, m, ids), MarketSource(m)))
    ensures Execute(served, run, w, ctx, CycleLinks(ids, m) + rest) == Execute(served, run, w', ctx', rest)
  {
    if ids == [] {
      w', ctx' := w, ctx;
      assert CycleLinks(ids, m) + rest == rest;
      assert FilesFor(w.files, m, ids) == {};
    } else {
      w', ctx' := CycleRuns(served, run, w, ctx, ids, m, rest);
    }
  }

  lemma AddedTwice<T(!new)>(a: multiset<T>, b: multiset<T>, c: multiset<T>, d: multiset<T>)
    requires d == b + c
    ensures a + b + c == a + d
  {
  }

  lemma DistinctTail<T(!new)>(s: seq<T>)
    requires Distinct(s) && s != []
    ensures Distinct(s[1..]) && s[0] !in s[1..]
  {
    HeadAndTail(s);
    forall x ensures multiset(s[1..])[x] <= 1 {
      assert multiset(s)[x] <= 1;
    }
    assert multiset(s)[s[0]] <= 1;
  }

  lemma {:induction false} LoadLinksStage(
      served: set<Pair>, run: int, w: World, ctx: Context, ms: seq<Market>, due: set<Pair>)
    requires LoadContext(ctx, run) && Distinct(ms)
    ensures
      var w' := Execute(served, run, w, ctx, LoadLinks(ms, due) + Tail());
      && w'.files == w.files && w'.staged == w.staged + multiset(Rows(Loadable(w.files, due, ms)))
      && w'.promoted == w'.staged && w'.finished == w.finished + {run}
    decreases |ms|
  {
    if ms == [] {
      assert LoadLinks(ms, due) + Tail() == Tail();
      TailRuns(served, run, w, ctx);
      assert Loadable(w.files, due, ms) == {};
    } else {
      var ids, rest := Ascending(IdsDue(due, ms[0])), LoadLinks(ms[1..], due);
      Associative(CycleLinks(ids, ms[0]), rest, Tail());
      var w', ctx' := MarketRuns(served, run, w, ctx, ids, ms[0], rest + Tail());
      DistinctTail(ms);
      LoadLinksStage(served, run, w', ctx', ms[1..], due);
      LoadableSplits(w.files, due, ms);
      AddedTwice(w.staged, multiset(StagedRows(FilesFor(w.files, ms[0], ids), MarketSource(ms[0]))),
                 multiset(Rows(Loadable(w.files, due, ms[1..]))), multiset(Rows(Loadable(w.files, due, ms))));
    }
  }

  /** The load's chain stages every due pair that has a file: once, under its market's source. */
  lemma LoadPlanStages(
      served: set<Pair>, run: int, w: World, due: set<Pair>, order: seq<Market>, runKey: string, task: string)
    requires Distinct(order) && forall m: Market :: m in order
    ensures
      var plan := LoadPlan(due, order, StartLink("mtgstock_incremental_load", runKey, task));
      var w' := Execute(served, run, w, map[], plan);
      && w'.staged == w.staged + multiset(Rows(w.files * due)) && w'.promoted == w'.staged
      && w'.finished == w.finished + {run}
  {
    var start, rest := StartLink("mtgstock_incremental_load", runKey, task), LoadLinks(order, due) + Tail();
    assert LoadPlan(due, order, start) == [start] + rest;
    var ctx := StartRuns(served, run, w, "mtgstock_incremental_load", runKey, task, rest);
    LoadLinksStage(served, run, w, ctx, order, due);
    assert Loadable(w.files, due, order) == w.files * due;
  }

  /** A link that starts this very run. */
  predicate Starts(link: Link, pipeline: string, runKey: string, task: string) {
    link.path == StartRun && Requires(StartRun) + {CeleryTaskId} == link.kwargs.Keys
    && link.kwargs[PipelineName] == Text(pipeline) && link.kwargs[RunKey] == Text(runKey)
    && link.kwargs[CeleryTaskId] == Text(task)
  }

  lemma {:induction false} OnlyCycles(ms: seq<Market>, due: set<Pair>)
    ensures forall i :: 0 <= i < |LoadLinks(ms, due)| ==> LoadLinks(ms, due)[i].path in {BulkLoad, FromRawToStaging}
  {
    if ms != [] {
      OnlyCycles(ms[1..], due);
    }
  }

  /** The load's chain starts its run, stages, then retries the rejects once, promotes once
      and finishes the run, in this order. */
  lemma LoadPlanOrder(due: set<Pair>, order: seq<Market>, runKey: string, task: string)
    ensures
      var plan := LoadPlan(due, order, StartLink("mtgstock_incremental_load", runKey, task));
      var n := |plan|;
      && n >= 4 && Starts(plan[0], "mtgstock_incremental_load", runKey, task)
      && (forall i :: 1 <= i < n - 3 ==> plan[i].path in {BulkLoad, FromRawToStaging})
      && plan[n - 3].path == RetryRejects && plan[n - 2].path == FromStagingToPrices && plan[n - 1].path == FinishRun
  {
    OnlyCycles(order, due);
  }

  // ---------------------------------------------------------------- the whole day

  /** One run of a tier's slot: its id, the print ids it was listed, its date, and the pairs
      that the API served to it. */
  datatype SlotRun = SlotRun(run: int, tier: Tier, slot: int, ids: seq<int>, date: int, served: set<Pair>)

  function Slice(x: SlotRun): seq<Pair> {
    SlicePairs(x.ids, x.tier, x.slot, x.date)
  }

  /** The slots that ran, one after the other. */
  function RunSlots(w: World, slots: seq<SlotRun>): World
    decreases |slots|
  {
    if slots == [] then w
    else
      var plan := TierPlan(Slice(slots[0]), NameOrder(), StartLink("mtgstock_tier", "run", "task"));
      RunSlots(Execute(slots[0].served, slots[0].run, w, map[], plan), slots[1..])
  }

  function Delivered(x: SlotRun): set<Pair> {
    set p | p in x.served && p in Slice(x)
  }

  function UnionOf(part: SlotRun -> set<Pair>, slots: seq<SlotRun>): set<Pair> {
    if slots == [] then {} else part(slots[0]) + UnionOf(part, slots[1..])
  }

  lemma {:induction false} InUnionOf(part: SlotRun -> set<Pair>, slots: seq<SlotRun>, p: Pair)
    ensures p in UnionOf(part, slots) <==> exists x :: x in slots && p in part(x)
    decreases |slots|
  {
    if slots != [] {
      InUnionOf(part, slots[1..], p);
      assert slots == [slots[0]] + slots[1..];
    }
  }

  /** The pairs fetched by the slots that ran. */
  function FetchedBy(slots: seq<SlotRun>): set<Pair> {
    UnionOf(Delivered, slots)
  }

  function RunsOf(slots: seq<SlotRun>): set<int> {
    if slots == [] then {} else {slots[0].run} + RunsOf(slots[1..])
  }

  lemma {:induction false} SlotsFetch(w: World, slots: seq<SlotRun>)
    ensures RunSlots(w, slots) ==
            w.(files := w.files + FetchedBy(slots), finished := w.finished + RunsOf(slots))
    decreases |slots|
  {
    if slots == [] {
      assert w.files + {} == w.files && w.finished + {} == w.finished;
    } else {
      var x := slots[0];
      TierPlanFetchesItsSlice(x.served, x.run, w, Slice(x), NameOrder(), "mtgstock_tier", "run", "task");
      SlotsFetch(Finished(w.(files := w.files + Delivered(x)), x.run), slots[1..]);
      UnionAssoc(w.files, Delivered(x), FetchedBy(slots[1..]));
      UnionAssoc(w.finished, {x.run}, RunsOf(slots[1..]));
    }
  }

  /** A day: the slots that ran, then the lists the load reads, and its chain. */
  datatype Day = Day(run: int, slots: seq<SlotRun>, readings: Readings, runKey: string, task: string)

  function Fetched(d: Day, w: World): World {
    RunSlots(w, d.slots)
  }

  function Loaded(d: Day, fetched: World): World {
    Execute({}, d.run, fetched, map[],
            LoadPlan(DueToday(d.readings), LoadOrder(), StartLink("mtgstock_incremental_load", d.runKey, d.task)))
  }

  function WholeDay(d: Day, w: World): World {
    Loaded(d, Fetched(d, w))
  }

  lemma DayLoads(d: Day, fetched: World)
    ensures Loaded(d, fetched).staged == fetched.staged + multiset(Rows(fetched.files * DueToday(d.readings)))
    ensures Loaded(d, fetched).promoted == Loaded(d, fetched).staged
    ensures Loaded(d, fetched).finished == fetched.finished + {d.run}
  {
    LoadPlanStages({}, d.run, fetched, DueToday(d.readings), LoadOrder(), d.runKey, d.task);
  }

  lemma Swap<T>(a: set<T>, b: set<T>)
    ensures a * b == b * a
  {
  }

  /** A whole day, whichever slots ran, in any order, each with its own list, date and answers
      of the API, and whatever lists the load reads: it stages exactly the pairs that are due
      by its own reading and have a file, fetched today or older, each once and under the
      source of its market; all of them are staged before the promotion runs; and every run
      that was started is finished. */
  lemma DayStages(d: Day, w: World)
    ensures Fetched(d, w) == w.(files := w.files + FetchedBy(d.slots), finished := w.finished + RunsOf(d.slots))
    ensures WholeDay(d, w).staged == w.staged + multiset(Rows(DueToday(d.readings) * (w.files + FetchedBy(d.slots))))
    ensures WholeDay(d, w).promoted == WholeDay(d, w).staged
    ensures WholeDay(d, w).finished == w.finished + RunsOf(d.slots) + {d.run}
  {
    SlotsFetch(w, d.slots);
    DayLoads(d, Fetched(d, w));
    Swap(w.files + FetchedBy(d.slots), DueToday(d.readings));
  }

  lemma SameSets<T>(base: multiset<T>, a: set<T>, b: set<T>)
    ensures base + multiset(a) == base + multiset(b) <==> a == b
  {
    if base + multiset(a) == base + multiset(b) {
      forall x ensures x in a <==> x in b {
        assert (base + multiset(a))[x] == (base + multiset(b))[x];
      }
    }
  }

  lemma RowsTell(a: set<Pair>, b: set<Pair>)
    ensures Rows(a) == Rows(b) <==> a == b
  {
    if Rows(a) == Rows(b) {
      forall p ensures p in a <==> p in b {
        assert p in a <==> Staged(MarketSource(p.1), p.0, p.1) in Rows(a);
        assert p in b <==> Staged(MarketSource(p.1), p.0, p.1) in Rows(b);
      }
    }
  }

  lemma ExactlyFetched(due: set<Pair>, files: set<Pair>, fetched: set<Pair>)
    ensures due * (files + fetched) == fetched <==> fetched <= due && due * files <= fetched
  {
    if due * (files + fetched) == fetched {
      forall p | p in due * files ensures p in fetched {
        assert p in due * (files + fetched);
      }
      forall p | p in fetched ensures p in due {
        assert p in due * (files + fetched);
      }
    }
  }

  /** The day stages the rows of the pairs fetched today, and no others, iff every pair
      fetched is due by the load's own reading and no other due pair has a file left over. */
  lemma StagedAreTheFetchedIff(d: Day, w: World)
    ensures
      var due, fetched := DueToday(d.readings), FetchedBy(d.slots);
      WholeDay(d, w).staged == w.staged + multiset(Rows(fetched)) <==> fetched <= due && due * w.files <= fetched
  {
    var due, fetched := DueToday(d.readings), FetchedBy(d.slots);
    DayStages(d, w);
    SameSets(w.staged, Rows(due * (w.files + fetched)), Rows(fetched));
    RowsTell(due * (w.files + fetched), fetched);
    ExactlyFetched(due, w.files, fetched);
  }

  // ---------------------------------------------------------------- a steady day

  /** The pairs of a tier's slot when the lists and the date stay the same all day. */
  function PairsAt(printIds: Tier -> seq<int>, date: int): (Tier, int) -> set<Pair> {
    (t, slot) => ToSet(SlicePairs(printIds(t), t, slot, date))
  }

  predicate IsSlot(t: Tier, slot: int) {
    0 <= slot < WindowOf(t).slots
  }

  ghost predicate Ran(slots: seq<SlotRun>, t: Tier, slot: int) {
    exists x :: x in slots && x.tier == t && x.slot == slot
  }

  /** Every slot of every tier ran, on the same lists, date and answers of the API. */
  ghost predicate AllSlotsRan(slots: seq<SlotRun>, printIds: Tier -> seq<int>, date: int, served: set<Pair>) {
    && (forall x :: x in slots ==>
         IsSlot(x.tier, x.slot) && x.ids == printIds(x.tier) && x.date == date && x.served == served)
    && (forall t, slot :: IsSlot(t, slot) ==> Ran(slots, t, slot))
  }

  /** What the load reads when nothing has changed. */
  function Steady(printIds: Tier -> seq<int>, date: int): Readings {
    (t, m) => Listing(printIds(t), slot => date)
  }

  lemma SliceWithinTier(ids: seq<int>, t: Tier, slot: int, date: int, p: Pair)
    requires p in SlicePairs(ids, t, slot, date)
    ensures p.1 in Markets(t)
  {
    assert p in WorkList(ids, t);
    assert multiset(WorkList(ids, t))[p] > 0;
    WorkListCount(ids, t, p);
  }

  lemma InUnion(a: set<Pair>, b: set<Pair>, m: Market, p: Pair)
    ensures p in a + OfMarket(b, m) <==> p in a || (p in b && p.1 == m)
  {
  }

  lemma {:induction false} InDueInMarkets(readings: Readings, t: Tier, ms: seq<Market>, p: Pair)
    ensures p in DueInMarkets(readings, t, ms) <==> p.1 in ms && p in DueInTier(readings(t, p.1), t)
  {
    if ms != [] {
      var front, last := ms[..|ms| - 1], ms[|ms| - 1];
      InDueInMarkets(readings, t, front, p);
      assert p.1 in ms <==> p.1 in front || p.1 == last by {
        assert ms == front + [last];
      }
      InUnion(DueInMarkets(readings, t, front), DueInTier(readings(t, last), t), last, p);
    }
  }

  lemma {:induction false} InDueIn(readings: Readings, tiers: seq<Tier>, p: Pair)
    ensures p in DueIn(readings, tiers) <==> exists t :: t in tiers && p in DueInMarkets(readings, t, Markets(t))
  {
    if tiers != [] {
      var front, last := tiers[..|tiers| - 1], tiers[|tiers| - 1];
      InDueIn(readings, front, p);
      assert forall t :: t in tiers <==> t in front || t == last by {
        assert tiers == front + [last];
      }
      var lastDue := DueInMarkets(readings, last, Markets(last));
      assert p in DueIn(readings, tiers) <==> p in DueIn(readings, front) || p in lastDue;
    }
  }

  lemma AllTiers(t: Tier)
    ensures t in [Tier1, Tier2, Tier3]
  {
    var tiers := [Tier1, Tier2, Tier3];
    assert tiers[0] == Tier1 && tiers[1] == Tier2 && tiers[2] == Tier3;
  }

  /** What is due by a reading: some tier has the pair's market, and the tier's slices, taken
      from the list read for that market, have the pair. */
  lemma InDueToday(readings: Readings, p: Pair)
    ensures p in DueToday(readings) <==> exists t :: p.1 in Markets(t) && p in DueInTier(readings(t, p.1), t)
  {
    InDueIn(readings, [Tier1, Tier2, Tier3], p);
    forall t
      ensures p in DueInMarkets(readings, t, Markets(t)) <==> p.1 in Markets(t) && p in DueInTier(readings(t, p.1), t)
    {
      InDueInMarkets(readings, t, Markets(t), p);
    }
    forall t ensures t in [Tier1, Tier2, Tier3] {
      AllTiers(t);
    }
  }

  lemma SteadyTier(printIds: Tier -> seq<int>, date: int, l: Listing, t: Tier, at: (Tier, int) -> set<Pair>, p: Pair)
    requires l.ids == printIds(t) && (forall slot :: l.date(slot) == date) && at == PairsAt(printIds, date)
    ensures p in DueInTier(l, t) <==> exists slot :: IsSlot(t, slot) && p in at(t, slot)
  {
    var slots := SlotPairs(l, t);
    InUpTo(slots, WindowOf(t).slots, p);
    assert forall slot: nat :: slots(slot) == at(t, slot);
    if slot :| IsSlot(t, slot) && p in at(t, slot) {
      var n: nat := slot;
      assert p in slots(n);
    }
  }

  lemma SteadyDue(printIds: Tier -> seq<int>, date: int, readings: Readings, at: (Tier, int) -> set<Pair>, p: Pair)
    requires readings == Steady(printIds, date) && at == PairsAt(printIds, date)
    ensures p in DueToday(readings) <==> exists t, slot :: IsSlot(t, slot) && p in at(t, slot)
  {
    InDueToday(readings, p);
    forall t ensures p in DueInTier(readings(t, p.1), t) <==> exists slot :: IsSlot(t, slot) && p in at(t, slot) {
      SteadyTier(printIds, date, readings(t, p.1), t, at, p);
    }
    if t, slot :| IsSlot(t, slot) && p in at(t, slot) {
      SliceWithinTier(printIds(t), t, slot, date, p);
    }
  }

  lemma InDelivered(x: SlotRun, printIds: Tier -> seq<int>, date: int, at: (Tier, int) -> set<Pair>, p: Pair)
    requires x.ids == printIds(x.tier) && x.date == date && at == PairsAt(printIds, date)
    ensures p in Delivered(x) <==> p in x.served && p in at(x.tier, x.slot)
  {
  }

  lemma SteadySlots(
      slots: seq<SlotRun>, printIds: Tier -> seq<int>, date: int, served: set<Pair>,
      at: (Tier, int) -> set<Pair>, p: Pair)
    requires AllSlotsRan(slots, printIds, date, served) && at == PairsAt(printIds, date)
    ensures p in FetchedBy(slots) <==> p in served && exists t, slot :: IsSlot(t, slot) && p in at(t, slot)
  {
    InUnionOf(Delivered, slots, p);
    forall x | x in slots ensures p in Delivered(x) <==> p in served && p in at(x.tier, x.slot) {
      InDelivered(x, printIds, date, at, p);
    }
    if t, slot :| IsSlot(t, slot) && p in at(t, slot) {
      assert Ran(slots, t, slot);
      var x :| x in slots && x.tier == t && x.slot == slot;
      assert p in served ==> p in Delivered(x);
    }
  }

  /** On a day on which every slot ran and nothing changed, the slots fetch exactly what is due and served. */
  lemma SteadyDayFetchesWhatIsDue(d: Day, printIds: Tier -> seq<int>, date: int, served: set<Pair>)
    requires AllSlotsRan(d.slots, printIds, date, served) && d.readings == Steady(printIds, date)
    ensures FetchedBy(d.slots) == DueToday(d.readings) * served
  {
    var at := PairsAt(printIds, date);
    forall p ensures p in FetchedBy(d.slots) <==> p in DueToday(d.readings) && p in served {
      SteadySlots(d.slots, printIds, date, served, at, p);
      SteadyDue(printIds, date, d.readings, at, p);
    }
  }

  /** And the load stages exactly what was fetched today iff no due pair that the API failed
      to serve has a file left over from an earlier day. */
  lemma SteadyDayStagesTheFetchedIff(d: Day, w: World, printIds: Tier -> seq<int>, date: int, served: set<Pair>)
    requires AllSlotsRan(d.slots, printIds, date, served) && d.readings == Steady(printIds, date)
    ensures WholeDay(d, w).staged == w.staged + multiset(Rows(FetchedBy(d.slots))) <==>
            DueToday(d.readings) * w.files <= served
  {
    SteadyDayFetchesWhatIsDue(d, printIds, date, served);
    StagedAreTheFetchedIff(d, w);
  }

  // ---------------------------------------------------------------- two days that go wrong

  /** All slots of a day, in the order of tiers and slots. */
  function EverySlot(printIds: Tier -> seq<int>, date: int, served: set<Pair>): seq<SlotRun> {
    var at := (run, t, slot) => SlotRun(run, t, slot, printIds(t), date, served);
    [at(1, Tier1, 0), at(2, Tier1, 1), at(3, Tier1, 2), at(4, Tier1, 3), at(5, Tier2, 0), at(6, Tier3, 0)]
  }

  lemma EverySlotRan(printIds: Tier -> seq<int>, date: int, served: set<Pair>)
    ensures AllSlotsRan(EverySlot(printIds, date, served), printIds, date, served)
  {
    var s := EverySlot(printIds, date, served);
    forall t, slot | IsSlot(t, slot) ensures Ran(s, t, slot) {
      var i := if t == Tier1 then slot else if t == Tier2 then 4 else 5;
      assert s[i].tier == t && s[i].slot == slot;
    }
  }

  /** Only print 1 is listed, in tier 3. */
  function OnlyPrintOne(t: Tier): seq<int> {
    if t == Tier3 then [1] else []
  }

  function NoPrints(t: Tier): seq<int> {
    []
  }

  /** A list shorter than the number of slices is due as a whole in the last slice. */
  lemma ShortListIsLast(pairs: seq<Pair>, n: nat, tick: int)
    requires |pairs| < n && tick % n == n - 1
    ensures SliceAt(pairs, n, tick) == pairs
  {
    assert |pairs| / n == 0;
    assert Start(|pairs|, n, n - 1) == (n - 1) * 0;
  }

  lemma PrintOneSlice(date: int)
    requires date % 30 == 29
    ensures SlicePairs([1], Tier3, 0, date) == [(1, Tcg)]
  {
    assert WorkList([1], Tier3) == [(1, Tcg)];
    assert TotalSlots(WindowOf(Tier3)) == 30 && Tick(WindowOf(Tier3), date, 0) == date;
    ShortListIsLast([(1, Tcg)], 30, date);
  }

  lemma PrintOneAt(printIds: Tier -> seq<int>, date: int, at: (Tier, int) -> set<Pair>)
    requires printIds == OnlyPrintOne && date % 30 == 29 && at == PairsAt(printIds, date)
    ensures IsSlot(Tier3, 0) && (1, Tcg) in at(Tier3, 0)
  {
    PrintOneSlice(date);
    var slice := SlicePairs(printIds(Tier3), Tier3, 0, date);
    assert slice[0] == (1, Tcg);
  }

  lemma RowIsStaged(base: multiset<Staged>, pairs: set<Pair>, p: Pair)
    requires p in pairs
    ensures Staged(MarketSource(p.1), p.0, p.1) in base + multiset(Rows(pairs))
  {
    assert Staged(MarketSource(p.1), p.0, p.1) in Rows(pairs);
  }

  lemma PrintOneIsDue(printIds: Tier -> seq<int>, date: int, readings: Readings)
    requires printIds == OnlyPrintOne && date % 30 == 29 && readings == Steady(printIds, date)
    ensures (1, Tcg) in DueToday(readings)
  {
    var at := PairsAt(printIds, date);
    PrintOneAt(printIds, date, at);
    SteadyDue(printIds, date, readings, at, (1, Tcg));
  }

  /** Whatever is left over of the due pairs is staged. */
  lemma LeftOverIsStaged(d: Day, w: World, p: Pair)
    requires p in w.files && p in DueToday(d.readings)
    ensures Staged(MarketSource(p.1), p.0, p.1) in WholeDay(d, w).staged
  {
    DayStages(d, w);
    RowIsStaged(w.staged, DueToday(d.readings) * (w.files + FetchedBy(d.slots)), p);
  }

  lemma NothingServed(d: Day, w: World, printIds: Tier -> seq<int>, date: int, served: set<Pair>)
    requires AllSlotsRan(d.slots, printIds, date, served) && d.readings == Steady(printIds, date) && served == {}
    ensures FetchedBy(d.slots) == {} && Fetched(d, w).files == w.files
  {
    SteadyDayFetchesWhatIsDue(d, printIds, date, served);
    SlotsFetch(w, d.slots);
    assert w.files + {} == w.files;
  }

  lemma LeftOverTcg(d: Day, w: World, id: int)
    requires (id, Tcg) in w.files && (id, Tcg) in DueToday(d.readings)
    ensures Staged("tcg", id, Tcg) in WholeDay(d, w).staged
  {
    LeftOverIsStaged(d, w, (id, Tcg));
    SourceIsName(Tcg);
  }

  lemma PrintOneLeftOver(d: Day, w: World, printIds: Tier -> seq<int>, date: int)
    requires printIds == OnlyPrintOne && date % 30 == 29 && (1, Tcg) in w.files
    requires d.readings == Steady(printIds, date)
    ensures Staged("tcg", 1, Tcg) in WholeDay(d, w).staged
  {
    PrintOneIsDue(printIds, date, d.readings);
    LeftOverTcg(d, w, 1);
  }

  /** A left-over file: on the last day of tier 3's window print 1 is due, the API serves
      nothing to any slot, an old file is there, and the load stages a price that nobody
      fetched. */
  lemma AStaleFileIsStaged(d: Day, w: World, printIds: Tier -> seq<int>, date: int, served: set<Pair>)
    requires printIds == OnlyPrintOne && date % 30 == 29 && served == {} && (1, Tcg) in w.files
    requires d.slots == EverySlot(printIds, date, served) && d.readings == Steady(printIds, date)
    ensures FetchedBy(d.slots) == {} && Fetched(d, w).files == w.files
    ensures Staged("tcg", 1, Tcg) in WholeDay(d, w).staged
  {
    EverySlotRan(printIds, date, served);
    NothingServed(d, w, printIds, date, served);
    PrintOneLeftOver(d, w, printIds, date);
  }

  lemma EmptyList(t: Tier, slot: int, date: int)
    ensures SlicePairs([], t, slot, date) == []
  {
    assert SortIds([]) == [];
    assert WorkList([], t) == [];
  }

  lemma NothingListed(readings: Readings, date: int)
    requires readings == Steady(NoPrints, date)
    ensures DueToday(readings) == {}
  {
    var at := PairsAt(NoPrints, date);
    forall p ensures p !in DueToday(readings) {
      SteadyDue(NoPrints, date, readings, at, p);
      forall t, slot ensures p !in at(t, slot) {
        EmptyList(t, slot, date);
      }
    }
  }

  lemma PrintOneIsFetched(slots: seq<SlotRun>, printIds: Tier -> seq<int>, date: int, served: set<Pair>)
    requires printIds == OnlyPrintOne && date % 30 == 29 && (1, Tcg) in served
    requires AllSlotsRan(slots, printIds, date, served)
    ensures (1, Tcg) in FetchedBy(slots)
  {
    var at := PairsAt(printIds, date);
    PrintOneAt(printIds, date, at);
    SteadySlots(slots, printIds, date, served, at, (1, Tcg));
  }

  lemma NoRows(base: multiset<Staged>, due: set<Pair>, files: set<Pair>)
    requires due == {}
    ensures base + multiset(Rows(due * files)) == base
  {
    assert due * files == {};
  }

  lemma NothingDueNothingStaged(d: Day, w: World)
    requires DueToday(d.readings) == {}
    ensures WholeDay(d, w).staged == w.staged
  {
    DayStages(d, w);
    NoRows(w.staged, DueToday(d.readings), w.files + FetchedBy(d.slots));
  }

  /** A list that changed before the load read it: print 1 was due and fetched, the load's
      lists no longer have it, and its price is not staged. */
  lemma ADroppedPrintIsNotStaged(d: Day, w: World, printIds: Tier -> seq<int>, date: int, served: set<Pair>)
    requires printIds == OnlyPrintOne && date % 30 == 29 && (1, Tcg) in served
    requires d.slots == EverySlot(printIds, date, served) && d.readings == Steady(NoPrints, date)
    ensures (1, Tcg) in FetchedBy(d.slots) && (1, Tcg) in Fetched(d, w).files
    ensures WholeDay(d, w).staged == w.staged
  {
    EverySlotRan(printIds, date, served);
    PrintOneIsFetched(d.slots, printIds, date, served);
    SlotsFetch(w, d.slots);
    NothingListed(d.readings, date);
    NothingDueNothingStaged(d, w);
  }
}
