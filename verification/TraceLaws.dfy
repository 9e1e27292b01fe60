/** The grammar of everything a run sends: one block of attempts per visited node, in the
    order of stage and list position. */
module TraceLaws {
  import opened DagConfig
  import opened Downstream
  import opened Plan
  import opened Resilience
  import opened Runs
  import opened Ledger

  ghost predicate Tile(ctx: Context, log: seq<Exchange>, v: Visit) {
    && Block(log, v.from, v.to, v.req, v.start, v.end)
    && Concluded(ctx, v.job, log, v.from, v.to, v.outcome)
    && Bounded(ctx, v.job.timeout, log, v.from, v.to)
  }

  ghost predicate AllTiles(ctx: Context, log: seq<Exchange>, visits: seq<Visit>) {
    forall k :: 0 <= k < |visits| ==> Tile(ctx, log, visits[k])
  }

  /** Each block starts, in the log and in time, where the one before it ended. */
  ghost predicate Chained(base: nat, visits: seq<Visit>, wire: Wire) {
    && (forall k :: 0 <= k < |visits| - 1 ==>
          visits[k].to == visits[k + 1].from && visits[k].end == visits[k + 1].start)
    && if visits == [] then |wire.log| == base
       else visits[0].from == base && visits[|visits| - 1].to == |wire.log| && visits[|visits| - 1].end == wire.now
  }

  /** The blocks of the visits, one after the other, are exactly the exchanges since `base`. */
  ghost predicate Tiled(ctx: Context, base: nat, visits: seq<Visit>, wire: Wire) {
    AllTiles(ctx, wire.log, visits) && Chained(base, visits, wire)
  }

  lemma {:induction false} TileExtends(ctx: Context, log: seq<Exchange>, more: seq<Exchange>, v: Visit)
    requires Tile(ctx, log, v) && log <= more
    ensures Tile(ctx, more, v)
  {
  }

  lemma {:induction false} AllTilesExtend(ctx: Context, log: seq<Exchange>, more: seq<Exchange>, visits: seq<Visit>)
    requires AllTiles(ctx, log, visits) && log <= more
    ensures AllTiles(ctx, more, visits)
  {
    forall k | 0 <= k < |visits|
      ensures Tile(ctx, more, visits[k])
    {
      TileExtends(ctx, log, more, visits[k]);
    }
  }

  lemma {:induction false} ChainGrows(base: nat, visits: seq<Visit>, wire: Wire, v: Visit, after: Wire)
    requires Chained(base, visits, wire)
    requires v.from == |wire.log| && v.to == |after.log| && v.start == wire.now && v.end == after.now
    ensures Chained(base, visits + [v], after)
  {
  }

  lemma {:induction false} VisitIsTile(x: Session, job: Job, s: State)
    requires s.halted.None?
    ensures
      var t := Perform(x, job, s);
      && s.wire.log <= t.wire.log
      && |t.visits| == |s.visits| + 1 && t.visits[..|s.visits|] == s.visits
      && var v := t.visits[|s.visits|];
         && Tile(x.ctx, t.wire.log, v)
         && v.from == |s.wire.log| && v.to == |t.wire.log| && v.start == s.wire.now && v.end == t.wire.now
  {
    CallBlock(x.world, x.ctx, job, RequestFor(x, job.service, s.vars), s.wire);
  }

  lemma {:induction false} TiledGrows(ctx: Context, base: nat, visits: seq<Visit>, wire: Wire, v: Visit, after: Wire)
    requires Tiled(ctx, base, visits, wire) && wire.log <= after.log && Tile(ctx, after.log, v)
    requires v.from == |wire.log| && v.to == |after.log| && v.start == wire.now && v.end == after.now
    ensures Tiled(ctx, base, visits + [v], after)
  {
    AllTilesExtend(ctx, wire.log, after.log, visits);
    ChainGrows(base, visits, wire, v, after);
  }

  lemma {:induction false} PerformTiles(x: Session, base: nat, job: Job, s: State)
    requires Tiled(x.ctx, base, s.visits, s.wire)
    ensures Tiled(x.ctx, base, Perform(x, job, s).visits, Perform(x, job, s).wire)
    ensures s.wire.log <= Perform(x, job, s).wire.log
  {
    if s.halted.None? {
      var t := Perform(x, job, s);
      VisitIsTile(x, job, s);
      TiledGrows(x.ctx, base, s.visits, s.wire, t.visits[|s.visits|], t.wire);
      assert s.visits + [t.visits[|s.visits|]] == t.visits;
    }
  }

  lemma {:induction false} DriveTiles(x: Session, base: nat, jobs: seq<Job>, s: State)
    requires Tiled(x.ctx, base, s.visits, s.wire)
    ensures Tiled(x.ctx, base, Drive(x, jobs, s).visits, Drive(x, jobs, s).wire)
    ensures s.wire.log <= Drive(x, jobs, s).wire.log
  {
    if jobs != [] {
      var init := jobs[..|jobs| - 1];
      DriveTiles(x, base, init, s);
      PerformTiles(x, base, jobs[|jobs| - 1], Drive(x, init, s));
    }
  }

  lemma {:induction false} RunTiles(x: Session, e: seq<Job>, m: seq<Job>, p: seq<Job>, wire: Wire)
    ensures Tiled(x.ctx, |wire.log|, RunJobs(x, e, m, p, wire).visits, RunJobs(x, e, m, p, wire).wire)
    ensures wire.log <= RunJobs(x, e, m, p, wire).wire.log
  {
    var start := Start(x, wire);
    var enriched := Drive(x, e, start);
    DriveTiles(x, |wire.log|, e, start);
    DriveTiles(x, |wire.log|, m, enriched);
    DriveTiles(x, |wire.log|, p, Gate(Drive(x, m, enriched)));
  }

  /** Visits keep their order in the log and in time. */
  lemma {:induction false} TilesInOrder(ctx: Context, base: nat, visits: seq<Visit>, wire: Wire, j: nat, k: nat)
    requires Tiled(ctx, base, visits, wire)
    requires j < k < |visits|
    ensures visits[j].to <= visits[k].from && visits[j].end <= visits[k].start
    decreases k
  {
    if j + 1 < k {
      TilesInOrder(ctx, base, visits, wire, j, k - 1);
      assert Tile(ctx, wire.log, visits[k - 1]);
    }
  }

  /** Every exchange of the run belongs to a visit. */
  lemma {:induction false} ExchangeHasVisit(ctx: Context, base: nat, visits: seq<Visit>, wire: Wire, i: nat)
      returns (k: nat)
    requires Tiled(ctx, base, visits, wire)
    requires base <= i < |wire.log|
    ensures k < |visits| && visits[k].from <= i < visits[k].to
  {
    k := 0;
    while i >= visits[k].to
      invariant k < |visits| && visits[k].from <= i
      decreases |visits| - k
    {
      k := k + 1;
    }
  }

  /** Every visit asks the service of its job. */
  ghost predicate Routed(visits: seq<Visit>) {
    forall k :: 0 <= k < |visits| ==> visits[k].req.Callee() == visits[k].job.service
  }

  lemma {:induction false} AskedIsRouted(x: Session, visits: seq<Visit>)
    requires Asked(x, visits)
    ensures Routed(visits)
  {
    forall k | 0 <= k < |visits|
      ensures visits[k].req.Callee() == visits[k].job.service
    {
      AskedAt(x, visits, k);
    }
  }

  lemma {:induction false} InTile(ctx: Context, log: seq<Exchange>, v: Visit, i: nat)
    requires Tile(ctx, log, v) && v.from <= i < v.to
    ensures i < |log| && log[i].req == v.req && v.job.maxRetries >= 0
    ensures log[i].outcome.Ok? ==> v.outcome == log[i].outcome
  {
  }

  /** Every exchange of the run was sent by a visit to its callee, with the visit's request. */
  lemma {:induction false} SenderOf(ctx: Context, base: nat, visits: seq<Visit>, wire: Wire, i: nat) returns (k: nat)
    requires Tiled(ctx, base, visits, wire) && Routed(visits)
    requires base <= i < |wire.log|
    ensures k < |visits| && visits[k].from <= i < visits[k].to
    ensures visits[k].req == wire.log[i].req && visits[k].job.service == wire.log[i].req.Callee()
    ensures visits[k].job.maxRetries >= 0
    ensures wire.log[i].outcome.Ok? ==> visits[k].outcome == wire.log[i].outcome
  {
    k := ExchangeHasVisit(ctx, base, visits, wire, i);
    InTile(ctx, wire.log, visits[k], i);
  }

  lemma {:induction false} RunIsRouted(x: Session, e: seq<Job>, m: seq<Job>, p: seq<Job>, wire: Wire)
    ensures Routed(RunJobs(x, e, m, p, wire).visits)
  {
    RunKeeps(x, e, m, p, wire);
    AskedIsRouted(x, RunJobs(x, e, m, p, wire).visits);
  }

  /** A place in the run's order: the stage, and the position in the node list. */
  datatype Slot = Slot(stage: Stage, at: nat)

  function Rank(stage: Stage): nat {
    match stage
    case Enrichment => 1
    case Scoring => 2
    case Publishing => 3
  }

  predicate Before(a: Slot, b: Slot) {
    Rank(a.stage) < Rank(b.stage) || (a.stage == b.stage && a.at < b.at)
  }

  function SlotsIn(stage: Stage, x: Session, cfg: Config): seq<Slot> {
    var ps := Positions(stage, x.tenantId, cfg.nodes);
    seq(|ps|, k requires 0 <= k < |ps| => Slot(stage, ps[k]))
  }

  /** The slots a run goes through if nothing stops it. */
  function Order(x: Session, cfg: Config): seq<Slot> {
    SlotsIn(Enrichment, x, cfg) + SlotsIn(Scoring, x, cfg) + SlotsIn(Publishing, x, cfg)
  }

  ghost predicate SlotHolds(x: Session, cfg: Config, slot: Slot, job: Job) {
    && slot.at < |cfg.nodes|
    && Dispatched(slot.stage, cfg.nodes[slot.at], x.tenantId)
    && job == JobOf(slot.stage, cfg.timeoutMs, cfg.nodes[slot.at])
  }

  function PlanOf(x: Session, cfg: Config): seq<Job> {
    JobsIn(Enrichment, x, cfg) + JobsIn(Scoring, x, cfg) + JobsIn(Publishing, x, cfg)
  }

  /** The jobs are those of the slots, which strictly increase and stay within the ranks. */
  ghost predicate Follows(x: Session, cfg: Config, slots: seq<Slot>, jobs: seq<Job>, lo: nat, hi: nat) {
    && |slots| == |jobs|
    && (forall k :: 0 <= k < |slots| ==> SlotHolds(x, cfg, slots[k], jobs[k]))
    && (forall k :: 0 <= k < |slots| ==> lo <= Rank(slots[k].stage) <= hi)
    && (forall j, k :: 0 <= j < k < |slots| ==> Before(slots[j], slots[k]))
  }

  lemma {:induction false} SlotsFollow(stage: Stage, x: Session, cfg: Config)
    ensures Follows(x, cfg, SlotsIn(stage, x, cfg), JobsIn(stage, x, cfg), Rank(stage), Rank(stage))
  {
    JobsAreAtPositions(stage, cfg.timeoutMs, x.tenantId, cfg.nodes);
  }

  lemma {:induction false} FollowsConcat(x: Session, cfg: Config, a: seq<Slot>, b: seq<Slot>, e: seq<Job>, m: seq<Job>,
                                         lo: nat, mid: nat, hi: nat)
    requires Follows(x, cfg, a, e, lo, mid) && Follows(x, cfg, b, m, mid + 1, hi)
    requires lo <= mid <= hi
    ensures Follows(x, cfg, a + b, e + m, lo, hi)
  {
    forall k | |a| <= k < |a + b|
      ensures (a + b)[k] == b[k - |a|] && (e + m)[k] == m[k - |a|]
    {
    }
  }

  /** The plan of a run follows its order, which is strictly increasing. */
  lemma {:induction false} PlanFollowsOrder(x: Session, cfg: Config)
    ensures Follows(x, cfg, Order(x, cfg), PlanOf(x, cfg), 1, 3)
  {
    var a, b, c := SlotsIn(Enrichment, x, cfg), SlotsIn(Scoring, x, cfg), SlotsIn(Publishing, x, cfg);
    var e, m, p := JobsIn(Enrichment, x, cfg), JobsIn(Scoring, x, cfg), JobsIn(Publishing, x, cfg);
    SlotsFollow(Enrichment, x, cfg);
    SlotsFollow(Scoring, x, cfg);
    SlotsFollow(Publishing, x, cfg);
    FollowsConcat(x, cfg, a, b, e, m, 1, 1, 2);
    FollowsConcat(x, cfg, a + b, c, e + m, p, 1, 2, 3);
  }

  /** What the trace of a run looks like: see TraceGrammar. */
  ghost predicate Grammatical(x: Session, cfg: Config, order: seq<Slot>, base: nat, s: State) {
    && |s.visits| <= |order|
    && (forall k :: 0 <= k < |s.visits| ==> SlotHolds(x, cfg, order[k], s.visits[k].job))
    && (forall j, k :: 0 <= j < k < |s.visits| ==> Before(order[j], order[k]))
    && Tiled(x.ctx, base, s.visits, s.wire)
    && (forall k :: 0 <= k < |s.visits| && s.visits[k].outcome.Err? ==>
          s.visits[k].job.tolerant || (k == |s.visits| - 1 && AnswerOf(s) == Failure(s.visits[k].outcome.error)))
    && (AnswerOf(s).Success? ==> |s.visits| == |order|)
  }

  lemma {:induction false} ShapeIsGrammatical(x: Session, cfg: Config, order: seq<Slot>, plan: seq<Job>, gate: nat,
                                              base: nat, s: State)
    requires Follows(x, cfg, order, plan, 1, 3)
    requires Shape(plan, gate, s)
    requires Tiled(x.ctx, base, s.visits, s.wire)
    ensures Grammatical(x, cfg, order, base, s)
  {
    forall k | 0 <= k < |s.visits| && s.visits[k].outcome.Err?
      ensures s.visits[k].job.tolerant || (k == |s.visits| - 1 && AnswerOf(s) == Failure(s.visits[k].outcome.error))
    {
      assert s.visits[k].Fatal() == !s.visits[k].job.tolerant;
    }
  }

  /** The trace grammar: what a run sends is a sequence of blocks, the k-th for the k-th slot
      of a strictly increasing order; a block holds 1 to maxRetries + 1 attempts (none if
      that is negative) of which all but the last fail; a failed block that is not the last
      is tolerated, and a fatal one ends the run. */
  lemma {:induction false} TraceGrammar(x: Session, cfg: Config, wire: Wire)
    ensures Grammatical(x, cfg, Order(x, cfg), |wire.log|, RunConfig(x, cfg, wire))
  {
    var e, m, p := JobsIn(Enrichment, x, cfg), JobsIn(Scoring, x, cfg), JobsIn(Publishing, x, cfg);
    RunKeeps(x, e, m, p, wire);
    RunTiles(x, e, m, p, wire);
    PlanFollowsOrder(x, cfg);
    ShapeIsGrammatical(x, cfg, Order(x, cfg), e + m + p, |e + m|, |wire.log|, RunJobs(x, e, m, p, wire));
  }

  /** The closed form of the run of a configuration: see RunClosedForm. */
  lemma {:induction false} ConfiguredRunClosedForm(x: Session, cfg: Config, wire: Wire)
    ensures
      var s := RunConfig(x, cfg, wire);
      var gate := |JobsIn(Enrichment, x, cfg) + JobsIn(Scoring, x, cfg)|;
      && Shape(PlanOf(x, cfg), gate, s)
      && AnsweredBy(x, PlanOf(x, cfg), gate, s.visits, AnswerOf(s))
      && (AnswerOf(s).Failure? <==> AnyFatal(s.visits) || (|s.visits| == gate && ScoreOf(s.visits).Nil?))
  {
    ConfigIsStaged(x, cfg);
    RunClosedForm(x, JobsIn(Enrichment, x, cfg), JobsIn(Scoring, x, cfg), JobsIn(Publishing, x, cfg), wire);
  }
}
