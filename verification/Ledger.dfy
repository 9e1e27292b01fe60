/** The closed form of a run: what its variables, its answer and its requests are in terms
    of the visits made, without reference to the order of the updates. */
module Ledger {
  import opened DagConfig
  import opened Downstream
  import opened Plan
  import opened Runs

  /** The response of the last visit to `service` that succeeded. */
  function LastOk(visits: seq<Visit>, service: Service): Option<Response> {
    if visits == [] then None
    else
      var last := visits[|visits| - 1];
      if last.job.service == service && last.outcome.Ok? then Some(last.outcome.resp)
      else LastOk(visits[..|visits| - 1], service)
  }

  /** Visit `k` is the last one to `service` that succeeded. */
  ghost predicate LastSuccess(visits: seq<Visit>, service: Service, k: nat) {
    && k < |visits|
    && visits[k].job.service == service && visits[k].outcome.Ok?
    && forall j :: k < j < |visits| && visits[j].job.service == service ==> visits[j].outcome.Err?
  }

  lemma {:induction false} LastOkMissing(visits: seq<Visit>, service: Service)
    ensures LastOk(visits, service).None? <==>
            forall k :: 0 <= k < |visits| && visits[k].job.service == service ==> visits[k].outcome.Err?
  {
    if visits != [] {
      LastOkMissing(visits[..|visits| - 1], service);
    }
  }

  lemma {:induction false} LastOkFound(visits: seq<Visit>, service: Service) returns (k: nat)
    requires LastOk(visits, service).Some?
    ensures LastSuccess(visits, service, k) && visits[k].outcome == Ok(LastOk(visits, service).value)
  {
    var init, last := visits[..|visits| - 1], visits[|visits| - 1];
    if last.job.service == service && last.outcome.Ok? {
      k := |visits| - 1;
    } else {
      k := LastOkFound(init, service);
      assert visits[k] == init[k];
    }
  }

  /** Some node outside the scoring stage failed. */
  ghost predicate AnySetback(visits: seq<Visit>) {
    exists k :: 0 <= k < |visits| && visits[k].outcome.Err? && visits[k].job.service != Model
  }

  ghost function StatusOf(visits: seq<Visit>): string {
    if AnySetback(visits) then DEGRADED else SCORED
  }

  function ScoreOf(visits: seq<Visit>): Response {
    match LastOk(visits, Model)
    case None => Nil
    case Some(resp) => if resp.ScoreResponse? then resp else Nil
  }

  ghost function VarsOf(x: Session, visits: seq<Visit>): Vars {
    var h, n, p := LastOk(visits, Hasher), LastOk(visits, Normalizer), LastOk(visits, PolicyLookup);
    Vars(
      StatusOf(visits),
      if n.Some? then n.value.GetAddress() else x.claim.rawAddress,
      if h.Some? then h.value.GetHash() else "",
      if p.Some? then p.value.GetStatus() else "",
      if p.Some? then p.value.GetCoverage() else "",
      n.Some? && n.value.GetValid(),
      ScoreOf(visits))
  }

  ghost predicate FatalLast(s: State) {
    |s.visits| > 0 && s.visits[|s.visits| - 1].Fatal()
  }

  /** `s` is a state of a run over `plan` that is gated after `gate` visits: the visits are
      those of a prefix of the plan, and only a fatal failure or the missing score stops them. */
  ghost predicate Shape(plan: seq<Job>, gate: nat, s: State) {
    && |s.visits| <= |plan|
    && (forall k :: 0 <= k < |s.visits| ==> s.visits[k].job == plan[k])
    && (forall k :: 0 <= k < |s.visits| - 1 ==> !s.visits[k].Fatal())
    && (FatalLast(s) ==> s.halted == Some(s.visits[|s.visits| - 1].outcome.error))
    && (s.halted.Some? && !FatalLast(s) ==>
          s.halted == Some(NoModelScore) && |s.visits| == gate && s.vars.score.Nil?)
    && (s.halted.None? ==> |s.visits| == |plan|)
  }

  /** Each visit asked what the visits before it determine. */
  ghost predicate Asked(x: Session, visits: seq<Visit>) {
    visits == [] ||
    (var init, last := visits[..|visits| - 1], visits[|visits| - 1];
     Asked(x, init) && last.req == RequestFor(x, last.job.service, VarsOf(x, init)))
  }

  lemma {:induction false} AskedAt(x: Session, visits: seq<Visit>, k: nat)
    requires Asked(x, visits) && k < |visits|
    ensures visits[k].req == RequestFor(x, visits[k].job.service, VarsOf(x, visits[..k]))
  {
    var init := visits[..|visits| - 1];
    if k < |init| {
      AskedAt(x, init, k);
      assert init[..k] == visits[..k];
    }
  }

  /** The variables are the closed form of the visits. */
  ghost predicate Accounted(x: Session, s: State) {
    && Asked(x, s.visits)
    && (!FatalLast(s) ==> s.vars == VarsOf(x, s.visits))
    && (s.halted.None? ==> !FatalLast(s))
  }

  lemma {:induction false} LastOkStep(visits: seq<Visit>, v: Visit, service: Service)
    ensures LastOk(visits + [v], service) ==
            if v.job.service == service && v.outcome.Ok? then Some(v.outcome.resp) else LastOk(visits, service)
  {
    assert (visits + [v])[..|visits|] == visits;
  }

  lemma {:induction false} AnySetbackStep(visits: seq<Visit>, v: Visit)
    ensures AnySetback(visits + [v]) <==> AnySetback(visits) || (v.outcome.Err? && v.job.service != Model)
  {
    var more := visits + [v];
    assert more[|visits|] == v;
    assert forall k :: 0 <= k < |visits| ==> more[k] == visits[k];
  }

  lemma {:induction false} VarsOfStep(x: Session, visits: seq<Visit>, v: Visit)
    ensures VarsOf(x, visits + [v]) ==
            match v.outcome
            case Ok(resp) => Absorb(v.job.service, resp, VarsOf(x, visits))
            case Err(_) => Setback(v.job.service, VarsOf(x, visits))
  {
    AnySetbackStep(visits, v);
    LastOkStep(visits, v, Hasher);
    LastOkStep(visits, v, Normalizer);
    LastOkStep(visits, v, PolicyLookup);
    LastOkStep(visits, v, Model);
  }

  lemma {:induction false} PerformShapes(x: Session, plan: seq<Job>, gate: nat, job: Job, s: State)
    requires Shape(plan, gate, s)
    ensures Shape(plan + [job], gate, Perform(x, job, s))
  {
  }

  lemma {:induction false} PerformAccounts(x: Session, job: Job, s: State)
    requires Accounted(x, s)
    ensures Accounted(x, Perform(x, job, s))
  {
    if s.halted.None? {
      var t := Perform(x, job, s);
      var v := t.visits[|s.visits|];
      assert t.visits == s.visits + [v];
      assert t.visits[..|s.visits|] == s.visits;
      VarsOfStep(x, s.visits, v);
    }
  }

  lemma {:induction false} DriveShapes(x: Session, plan: seq<Job>, gate: nat, jobs: seq<Job>, s: State)
    requires Shape(plan, gate, s)
    ensures Shape(plan + jobs, gate, Drive(x, jobs, s))
  {
    if jobs == [] {
      assert plan + jobs == plan;
    } else {
      var init, last := jobs[..|jobs| - 1], jobs[|jobs| - 1];
      DriveShapes(x, plan, gate, init, s);
      PerformShapes(x, plan + init, gate, last, Drive(x, init, s));
      assert plan + jobs == plan + init + [last];
    }
  }

  lemma {:induction false} DriveAccounts(x: Session, jobs: seq<Job>, s: State)
    requires Accounted(x, s)
    ensures Accounted(x, Drive(x, jobs, s))
  {
    if jobs != [] {
      DriveAccounts(x, jobs[..|jobs| - 1], s);
      PerformAccounts(x, jobs[|jobs| - 1], Drive(x, jobs[..|jobs| - 1], s));
    }
  }

  lemma {:induction false} DriveKeeps(x: Session, plan: seq<Job>, gate: nat, jobs: seq<Job>, s: State)
    requires Shape(plan, gate, s) && Accounted(x, s)
    ensures Shape(plan + jobs, gate, Drive(x, jobs, s)) && Accounted(x, Drive(x, jobs, s))
  {
    DriveShapes(x, plan, gate, jobs, s);
    DriveAccounts(x, jobs, s);
  }

  /** Visits are only ever added. */
  lemma {:induction false} DriveExtends(x: Session, jobs: seq<Job>, s: State)
    ensures s.visits <= Drive(x, jobs, s).visits
  {
    if jobs != [] {
      DriveExtends(x, jobs[..|jobs| - 1], s);
    }
  }

  function StageOf(service: Service): Stage {
    match service
    case Model => Scoring
    case Publisher => Publishing
    case _ => Enrichment
  }

  lemma {:induction false} JobsBelong(stage: Stage, dagTimeoutMs: int32, tenantId: string, nodes: seq<Node>)
    ensures forall job :: job in Jobs(stage, dagTimeoutMs, tenantId, nodes) ==> StageOf(job.service) == stage
  {
    if nodes != [] {
      JobsBelong(stage, dagTimeoutMs, tenantId, nodes[..|nodes| - 1]);
    }
  }

  /** Visits to other services do not disturb the last answer of a service. */
  lemma {:induction false} LastOkFrame(visits: seq<Visit>, n: nat, service: Service)
    requires n <= |visits|
    requires forall k :: n <= k < |visits| ==> visits[k].job.service != service
    ensures LastOk(visits, service) == LastOk(visits[..n], service)
  {
    if n < |visits| {
      var init := visits[..|visits| - 1];
      assert init[..n] == visits[..n];
      LastOkFrame(init, n, service);
    } else {
      assert visits[..n] == visits;
    }
  }

  /** The score in the variables once the gate has been passed. */
  ghost predicate PastGate(gate: nat, s: State) {
    |s.visits| >= gate && ScoreOf(s.visits[..gate]).ScoreResponse?
  }

  lemma {:induction false} GateHolds(x: Session, plan: seq<Job>, scored: State)
    requires Shape(plan, |plan|, scored) && Accounted(x, scored)
    ensures Shape(plan, |plan|, Gate(scored)) && Accounted(x, Gate(scored))
    ensures Gate(scored).halted.None? ==> PastGate(|plan|, Gate(scored))
  {
    if scored.halted.None? {
      assert scored.visits[..|plan|] == scored.visits;
    }
  }

  lemma {:induction false} StillPastGate(gate: nat, s: State, t: State)
    requires PastGate(gate, s) && s.visits <= t.visits
    ensures PastGate(gate, t)
  {
    assert t.visits[..gate] == s.visits[..gate];
  }

  lemma {:induction false} GateKeeps(x: Session, plan: seq<Job>, publish: seq<Job>, scored: State)
    requires Shape(plan, |plan|, scored) && Accounted(x, scored)
    ensures
      var s := Drive(x, publish, Gate(scored));
      && Shape(plan + publish, |plan|, s)
      && Accounted(x, s)
      && (|s.visits| > |plan| || s.halted.None? ==> PastGate(|plan|, s))
  {
    var gated := Gate(scored);
    GateHolds(x, plan, scored);
    DriveKeeps(x, plan, |plan|, publish, gated);
    if gated.halted.None? {
      DriveExtends(x, publish, gated);
      StillPastGate(|plan|, gated, Drive(x, publish, gated));
    } else {
      DriveHalted(x, publish, gated);
    }
  }

  /** Every run keeps the ledger, and publishes only with a score at hand. */
  lemma {:induction false} RunKeeps(x: Session, e: seq<Job>, m: seq<Job>, p: seq<Job>, wire: Wire)
    ensures
      var s := RunJobs(x, e, m, p, wire);
      && Shape(e + m + p, |e + m|, s)
      && Accounted(x, s)
      && (|s.visits| > |e + m| || s.halted.None? ==> PastGate(|e + m|, s))
  {
    var start := Start(x, wire);
    assert Shape([], |e + m|, start);
    DriveKeeps(x, [], |e + m|, e, start);
    assert [] + e == e;
    DriveKeeps(x, e, |e + m|, m, Drive(x, e, start));
    GateKeeps(x, e + m, p, Drive(x, m, Drive(x, e, start)));
  }

  ghost predicate AnyFatal(visits: seq<Visit>) {
    exists k :: 0 <= k < |visits| && visits[k].Fatal()
  }

  /** The jobs of the three passes, each recognised in its pass. */
  ghost predicate Staged(e: seq<Job>, m: seq<Job>, p: seq<Job>) {
    && (forall job :: job in e ==> StageOf(job.service) == Enrichment)
    && (forall job :: job in m ==> StageOf(job.service) == Scoring)
    && (forall job :: job in p ==> StageOf(job.service) == Publishing)
  }

  lemma {:induction false} TenantIsStaged(cfg: Config, tenantId: string)
    ensures Staged(Jobs(Enrichment, cfg.timeoutMs, tenantId, cfg.nodes),
                   Jobs(Scoring, cfg.timeoutMs, tenantId, cfg.nodes),
                   Jobs(Publishing, cfg.timeoutMs, tenantId, cfg.nodes))
  {
    JobsBelong(Enrichment, cfg.timeoutMs, tenantId, cfg.nodes);
    JobsBelong(Scoring, cfg.timeoutMs, tenantId, cfg.nodes);
    JobsBelong(Publishing, cfg.timeoutMs, tenantId, cfg.nodes);
  }

  lemma {:induction false} ConfigIsStaged(x: Session, cfg: Config)
    ensures Staged(JobsIn(Enrichment, x, cfg), JobsIn(Scoring, x, cfg), JobsIn(Publishing, x, cfg))
  {
    TenantIsStaged(cfg, x.tenantId);
  }

  /** Visits made while publishing leave the score alone. */
  lemma {:induction false} ScoreFixedAtGate(plan: seq<Job>, p: seq<Job>, visits: seq<Visit>)
    requires |plan| <= |visits| <= |plan + p|
    requires forall k :: 0 <= k < |visits| ==> visits[k].job == (plan + p)[k]
    requires forall job :: job in p ==> StageOf(job.service) == Publishing
    ensures LastOk(visits, Model) == LastOk(visits[..|plan|], Model)
  {
    forall k | |plan| <= k < |visits|
      ensures visits[k].job.service == Publisher
    {
      assert p[k - |plan|] in p;
    }
    LastOkFrame(visits, |plan|, Model);
  }

  /** What a run answers, in terms of its visits. */
  ghost predicate AnsweredBy(x: Session, plan: seq<Job>, gate: nat, visits: seq<Visit>, a: Answer) {
    match a
    case Failure(error) =>
      if AnyFatal(visits) then visits[|visits| - 1].Fatal() && error == visits[|visits| - 1].outcome.error
      else error == NoModelScore && |visits| == gate && ScoreOf(visits).Nil?
    case Success(result) =>
      && !AnyFatal(visits)
      && |visits| == |plan|
      && result.status == StatusOf(visits)
      && result.normalizedAddress == VarsOf(x, visits).address
      && LastOk(visits, Model) == Some(ScoreResponse(result.fraudScore, result.modelVersion))
  }

  /** The closed form of a run. It fails exactly when some dispatched node outside
      skip/degrade fails, or when every enrichment and model node was visited without one of
      them leaving a score; otherwise the whole plan was visited and each output is the
      answer of the last successful node of its service, or else the default. */
  lemma {:induction false} RunClosedForm(x: Session, e: seq<Job>, m: seq<Job>, p: seq<Job>, wire: Wire)
    requires Staged(e, m, p)
    ensures
      var s := RunJobs(x, e, m, p, wire);
      && Shape(e + m + p, |e + m|, s)
      && AnsweredBy(x, e + m + p, |e + m|, s.visits, AnswerOf(s))
      && (AnswerOf(s).Failure? <==> AnyFatal(s.visits) || (|s.visits| == |e + m| && ScoreOf(s.visits).Nil?))
  {
    var s := RunJobs(x, e, m, p, wire);
    RunKeeps(x, e, m, p, wire);
    if |s.visits| >= |e + m| {
      ScoreFixedAtGate(e + m, p, s.visits);
    }
    ShapedAnswer(x, e + m + p, |e + m|, s);
  }

  lemma {:induction false} ShapedAnswer(x: Session, plan: seq<Job>, gate: nat, s: State)
    requires Shape(plan, gate, s) && Accounted(x, s) && gate <= |plan|
    requires |s.visits| > gate || s.halted.None? ==> PastGate(gate, s)
    requires |s.visits| >= gate ==> LastOk(s.visits, Model) == LastOk(s.visits[..gate], Model)
    ensures AnsweredBy(x, plan, gate, s.visits, AnswerOf(s))
    ensures AnswerOf(s).Failure? <==> AnyFatal(s.visits) || (|s.visits| == gate && ScoreOf(s.visits).Nil?)
  {
    FatalIsLast(plan, gate, s);
    if |s.visits| == gate {
      assert s.visits[..gate] == s.visits;
    }
  }

  lemma {:induction false} FatalIsLast(plan: seq<Job>, gate: nat, s: State)
    requires Shape(plan, gate, s)
    ensures AnyFatal(s.visits) <==> FatalLast(s)
  {
    if k :| 0 <= k < |s.visits| && s.visits[k].Fatal() {
      assert k == |s.visits| - 1;
    }
  }
}
