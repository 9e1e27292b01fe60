/** A run as a function: jobs are visited one after the other, each visit reads the run's
    variables, calls downstream, and updates them. */
module Runs {
  import opened DagConfig
  import opened Downstream
  import opened Plan
  import opened Resilience

  datatype Claim = Claim(
    claimId: string,
    product: string,
    eventType: string,
    rawAddress: string,
    claimantName: string,
    policyNumber: string)

  /** Everything fixed during one run. */
  datatype Session = Session(
    world: World,
    ctx: Context,
    tenantId: string,
    correlationId: string,
    claim: Claim)

  const SCORED := "scored"
  const DEGRADED := "degraded"

  /** The run's local variables; `score` is `Nil` until a model node has answered. */
  datatype Vars = Vars(
    status: string,
    address: string,
    hash: string,
    policyStatus: string,
    coverage: string,
    addressValid: bool,
    score: Response)

  function InitialVars(claim: Claim): Vars {
    Vars(SCORED, claim.rawAddress, "", "", "", false, Nil)
  }

  function FormatBool(b: bool): string { if b then "true" else "false" }

  function Features(x: Session, v: Vars): map<string, string> {
    map[
      "tenant_id" := x.tenantId,
      "product" := x.claim.product,
      "event_type" := x.claim.eventType,
      "policy_number" := x.claim.policyNumber,
      "claimant_id_hash" := v.hash,
      "normalized_address" := v.address,
      "policy_status" := v.policyStatus,
      "policy_coverage_type" := v.coverage,
      "address_valid" := FormatBool(v.addressValid)]
  }

  function EventOf(x: Session, v: Vars): Event {
    Event(x.claim.claimId, x.correlationId, x.tenantId, v.status, v.score.GetScore(), v.score.GetVersion())
  }

  function RequestFor(x: Session, service: Service, v: Vars): (req: Request)
    ensures req.Callee() == service
  {
    match service
    case Hasher => HashRequest(x.correlationId, x.claim.claimantName)
    case Normalizer => NormalizeRequest(x.correlationId, x.claim.rawAddress)
    case PolicyLookup => LookupRequest(x.correlationId, x.claim.policyNumber)
    case Model => ScoreRequest(x.correlationId, Features(x, v))
    case Publisher => PublishRequest(EventOf(x, v))
  }

  function Absorb(service: Service, resp: Response, v: Vars): Vars {
    match service
    case Hasher => v.(hash := resp.GetHash())
    case Normalizer => v.(address := resp.GetAddress(), addressValid := resp.GetValid())
    case PolicyLookup => v.(policyStatus := resp.GetStatus(), coverage := resp.GetCoverage())
    case Model => v.(score := if resp.ScoreResponse? then resp else Nil)
    case Publisher => v
  }

  /** A tolerated failure marks the run degraded, except that of a model node. */
  function Setback(service: Service, v: Vars): Vars {
    if service == Model then v else v.(status := DEGRADED)
  }

  /** The record of one dispatched node: its exchanges are `log[from..to]`. */
  datatype Visit = Visit(
    job: Job,
    req: Request,
    outcome: Outcome,
    from: nat,
    to: nat,
    start: nat,
    end: nat)
  {
    predicate Fatal() { outcome.Err? && !job.tolerant }
  }

  datatype State = State(vars: Vars, wire: Wire, visits: seq<Visit>, halted: Option<Error>)

  function Start(x: Session, wire: Wire): State {
    State(InitialVars(x.claim), wire, [], None)
  }

  function Perform(x: Session, job: Job, s: State): State {
    if s.halted.Some? then s
    else
      var req := RequestFor(x, job.service, s.vars);
      var c := Call(x.world, x.ctx, job, req, s.wire);
      var v := Visit(job, req, c.outcome, |s.wire.log|, |c.wire.log|, s.wire.now, c.wire.now);
      match c.outcome
      case Ok(resp) => State(Absorb(job.service, resp, s.vars), c.wire, s.visits + [v], None)
      case Err(error) =>
        if job.tolerant then State(Setback(job.service, s.vars), c.wire, s.visits + [v], None)
        else State(s.vars, c.wire, s.visits + [v], Some(error))
  }

  function Drive(x: Session, jobs: seq<Job>, s: State): State {
    if jobs == [] then s
    else Perform(x, jobs[|jobs| - 1], Drive(x, jobs[..|jobs| - 1], s))
  }

  /** A run without a score stops before publishing. */
  function Gate(s: State): State {
    if s.halted.None? && s.vars.score.Nil? then s.(halted := Some(NoModelScore)) else s
  }

  function RunJobs(x: Session, enrich: seq<Job>, score: seq<Job>, publish: seq<Job>, wire: Wire): State {
    Drive(x, publish, Gate(Drive(x, score, Drive(x, enrich, Start(x, wire)))))
  }

  function JobsIn(stage: Stage, x: Session, cfg: Config): seq<Job> {
    Jobs(stage, cfg.timeoutMs, x.tenantId, cfg.nodes)
  }

  function RunConfig(x: Session, cfg: Config, wire: Wire): State {
    RunJobs(x, JobsIn(Enrichment, x, cfg), JobsIn(Scoring, x, cfg), JobsIn(Publishing, x, cfg), wire)
  }

  datatype Result = Result(status: string, normalizedAddress: string, fraudScore: real, modelVersion: string)

  datatype Answer = Success(result: Result) | Failure(error: Error)

  function AnswerOf(s: State): Answer {
    match s.halted
    case Some(error) => Failure(error)
    case None => Success(Result(s.vars.status, s.vars.address, s.vars.score.GetScore(), s.vars.score.GetVersion()))
  }

  lemma {:induction false} DriveAppend(x: Session, a: seq<Job>, b: seq<Job>, s: State)
    ensures Drive(x, a + b, s) == Drive(x, b, Drive(x, a, s))
  {
    if b == [] {
      assert a + b == a;
    } else {
      assert (a + b)[..|a + b| - 1] == a + b[..|b| - 1];
      DriveAppend(x, a, b[..|b| - 1], s);
    }
  }

  lemma {:induction false} DriveHalted(x: Session, jobs: seq<Job>, s: State)
    requires s.halted.Some?
    ensures Drive(x, jobs, s) == s
  {
    if jobs != [] {
      DriveHalted(x, jobs[..|jobs| - 1], s);
    }
  }

  /** The state of a pass that began at `s`, before it looks at node `i`. */
  ghost function PassTo(x: Session, stage: Stage, cfg: Config, i: nat, s: State): State
    requires i <= |cfg.nodes|
  {
    Drive(x, Jobs(stage, cfg.timeoutMs, x.tenantId, cfg.nodes[..i]), s)
  }

  lemma {:induction false} PassEnds(x: Session, stage: Stage, cfg: Config, s: State)
    ensures PassTo(x, stage, cfg, 0, s) == s
    ensures PassTo(x, stage, cfg, |cfg.nodes|, s) == Drive(x, JobsIn(stage, x, cfg), s)
  {
    assert cfg.nodes[..|cfg.nodes|] == cfg.nodes;
  }

  /** What looking at one more node does to a pass. */
  lemma {:induction false} PassGrows(x: Session, stage: Stage, cfg: Config, i: nat, s: State)
    requires i < |cfg.nodes|
    ensures PassTo(x, stage, cfg, i + 1, s) ==
            if Dispatched(stage, cfg.nodes[i], x.tenantId)
            then Perform(x, JobOf(stage, cfg.timeoutMs, cfg.nodes[i]), PassTo(x, stage, cfg, i, s))
            else PassTo(x, stage, cfg, i, s)
  {
    var jobs := Jobs(stage, cfg.timeoutMs, x.tenantId, cfg.nodes[..i]);
    JobsGrow(stage, cfg.timeoutMs, x.tenantId, cfg.nodes, i);
    if Dispatched(stage, cfg.nodes[i], x.tenantId) {
      var job := JobOf(stage, cfg.timeoutMs, cfg.nodes[i]);
      assert (jobs + [job])[..|jobs|] == jobs;
    } else {
      assert jobs + [] == jobs;
    }
  }

  lemma {:induction false} PassSkips(x: Session, stage: Stage, cfg: Config, i: nat, s: State)
    requires i < |cfg.nodes|
    ensures !Dispatched(stage, cfg.nodes[i], x.tenantId) ==>
              PassTo(x, stage, cfg, i + 1, s) == PassTo(x, stage, cfg, i, s)
  {
    PassGrows(x, stage, cfg, i, s);
  }

  /** What the call of the next node does to a pass that has not halted. */
  lemma {:induction false} PassCalls(x: Session, stage: Stage, cfg: Config, i: nat, s: State, c: Called)
    requires i < |cfg.nodes| && Dispatched(stage, cfg.nodes[i], x.tenantId)
    requires PassTo(x, stage, cfg, i, s).halted.None?
    requires
      var before, job := PassTo(x, stage, cfg, i, s), JobOf(stage, cfg.timeoutMs, cfg.nodes[i]);
      c == Call(x.world, x.ctx, job, RequestFor(x, job.service, before.vars), before.wire)
    ensures
      var before, after := PassTo(x, stage, cfg, i, s), PassTo(x, stage, cfg, i + 1, s);
      var job := JobOf(stage, cfg.timeoutMs, cfg.nodes[i]);
      && after.wire == c.wire
      && after.halted == (if c.outcome.Err? && !job.tolerant then Some(c.outcome.error) else None)
      && after.vars ==
         if c.outcome.Ok? then Absorb(job.service, c.outcome.resp, before.vars)
         else if job.tolerant then Setback(job.service, before.vars)
         else before.vars
  {
    PassGrows(x, stage, cfg, i, s);
  }

  /** A pass that has halted before node `i` stays as it is to the end of the list. */
  lemma {:induction false} HaltedMidway(x: Session, stage: Stage, cfg: Config, i: nat, s: State)
    requires i <= |cfg.nodes|
    requires PassTo(x, stage, cfg, i, s).halted.Some?
    ensures Drive(x, JobsIn(stage, x, cfg), s) == PassTo(x, stage, cfg, i, s)
  {
    var a := Jobs(stage, cfg.timeoutMs, x.tenantId, cfg.nodes[..i]);
    var b := Jobs(stage, cfg.timeoutMs, x.tenantId, cfg.nodes[i..]);
    assert cfg.nodes == cfg.nodes[..i] + cfg.nodes[i..];
    JobsAppend(stage, cfg.timeoutMs, x.tenantId, cfg.nodes[..i], cfg.nodes[i..]);
    DriveAppend(x, a, b, s);
    DriveHalted(x, b, Drive(x, a, s));
  }
}
