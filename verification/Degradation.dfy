/** The executor and the scorer together: losing an enrichment answer never makes a claim
    look less risky. */
module Degradation {
  import opened DagConfig
  import opened Downstream
  import opened Plan
  import opened Resilience
  import opened Runs
  import opened Ledger
  import opened TraceLaws
  import opened Payloads
  import opened Steadiness
  import Scoring

  /** The model service answers with the score of the features it was sent. */
  ghost predicate Honest(w: World) {
    forall log, req, start: nat, doneBy: nat ::
      var o := w.answer(log, req, start, doneBy).outcome;
      req.ScoreRequest? && o.Ok? ==> o.resp == ScoreResponse(Scoring.ScoreValue(req.features), Scoring.MODEL_VERSION)
  }

  ghost predicate HonestVisit(v: Visit) {
    v.req.ScoreRequest? && v.outcome.Ok? && v.outcome.resp.ScoreResponse? ==>
      v.outcome.resp == ScoreResponse(Scoring.ScoreValue(v.req.features), Scoring.MODEL_VERSION)
  }

  lemma {:induction false} AttemptsHonest(w: World, ctx: Context, timeout: nat, left: nat, req: Request, s: Wire)
    requires Honest(w) && left >= 1 && req.ScoreRequest?
    ensures
      var o := Attempts(w, ctx, timeout, left, req, s).outcome;
      o.Ok? ==> o.resp == ScoreResponse(Scoring.ScoreValue(req.features), Scoring.MODEL_VERSION)
    decreases left
  {
    var first := Attempt(w, ctx, timeout, req, s);
    var doneBy := DoneBy(ctx, s.now, timeout);
    assert first.outcome == w.answer(s.log, req, s.now, doneBy).outcome;
    if first.outcome.Err? && left > 1 && !CutShort(w, ctx, first.wire) {
      AttemptsHonest(w, ctx, timeout, left - 1, req, Rested(first.wire));
    }
  }

  lemma {:induction false} PerformHonest(x: Session, job: Job, s: State)
    requires Honest(x.world)
    requires forall k :: 0 <= k < |s.visits| ==> HonestVisit(s.visits[k])
    ensures forall k :: 0 <= k < |Perform(x, job, s).visits| ==> HonestVisit(Perform(x, job, s).visits[k])
  {
    var req := RequestFor(x, job.service, s.vars);
    if job.maxRetries >= 0 && req.ScoreRequest? {
      AttemptsHonest(x.world, x.ctx, job.timeout, job.maxRetries + 1, req, s.wire);
    }
  }

  lemma {:induction false} DriveHonest(x: Session, jobs: seq<Job>, s: State)
    requires Honest(x.world)
    requires forall k :: 0 <= k < |s.visits| ==> HonestVisit(s.visits[k])
    ensures forall k :: 0 <= k < |Drive(x, jobs, s).visits| ==> HonestVisit(Drive(x, jobs, s).visits[k])
  {
    if jobs != [] {
      DriveHonest(x, jobs[..|jobs| - 1], s);
      PerformHonest(x, jobs[|jobs| - 1], Drive(x, jobs[..|jobs| - 1], s));
    }
  }

  lemma {:induction false} RunHonest(x: Session, e: seq<Job>, m: seq<Job>, p: seq<Job>, wire: Wire)
    requires Honest(x.world)
    ensures
      var visits := RunJobs(x, e, m, p, wire).visits;
      forall k :: 0 <= k < |visits| ==> HonestVisit(visits[k])
  {
    var start := Start(x, wire);
    var enriched := Drive(x, e, start);
    DriveHonest(x, e, start);
    DriveHonest(x, m, enriched);
    DriveHonest(x, p, Gate(Drive(x, m, enriched)));
  }

  /** The scorer's keys in the feature map of a run. */
  lemma {:induction false} ScoredFeatures(x: Session, v: Vars)
    ensures Scoring.Lookup(Features(x, v), "policy_status") == v.policyStatus
    ensures Scoring.Lookup(Features(x, v), "policy_coverage_type") == v.coverage
    ensures Scoring.ParsesTrue(Scoring.Lookup(Features(x, v), "address_valid")) == v.addressValid
  {
  }

  /** A model visit that scored did so on the features the enrichment pass left. */
  lemma {:induction false} ScoredVisit(x: Session, e: seq<Job>, m: seq<Job>, p: seq<Job>, wire: Wire, k: nat)
    requires Honest(x.world) && Staged(e, m, p)
    requires k < |RunJobs(x, e, m, p, wire).visits|
    requires
      var v := RunJobs(x, e, m, p, wire).visits[k];
      v.job.service == Model && v.outcome.Ok? && v.outcome.resp.ScoreResponse?
    ensures
      var visits := RunJobs(x, e, m, p, wire).visits;
      && |e| <= k
      && visits[k].outcome.resp ==
         ScoreResponse(Scoring.ScoreValue(Features(x, VarsOf(x, visits[..|e|]))), Scoring.MODEL_VERSION)
  {
    var visits := RunJobs(x, e, m, p, wire).visits;
    RunKeeps(x, e, m, p, wire);
    RunHonest(x, e, m, p, wire);
    AskedAt(x, visits, k);
    assert HonestVisit(visits[k]);
    ModelVisitsInScoring(e, m, p, k);
    EnrichmentFixed(x, e, m, p, visits, k);
  }

  /** The score of a run that answers is that of the features its enrichment pass left. */
  lemma {:induction false} ScoreOfRun(x: Session, e: seq<Job>, m: seq<Job>, p: seq<Job>, wire: Wire)
    requires Honest(x.world) && Staged(e, m, p)
    requires AnswerOf(RunJobs(x, e, m, p, wire)).Success?
    ensures
      var s := RunJobs(x, e, m, p, wire);
      && |s.visits| >= |e|
      && AnswerOf(s).result.fraudScore == Scoring.ScoreValue(Features(x, VarsOf(x, s.visits[..|e|])))
      && AnswerOf(s).result.modelVersion == "rules-v1"
  {
    RunClosedForm(x, e, m, p, wire);
    var k := LastOkFound(RunJobs(x, e, m, p, wire).visits, Model);
    ScoredVisit(x, e, m, p, wire, k);
  }

  /** The score of a run that answers, in points for what was kept of the lookup and the
      normalizer. */
  lemma {:induction false} ScoreFromAnswers(x: Session, e: seq<Job>, m: seq<Job>, p: seq<Job>, wire: Wire)
      returns (status: string, coverage: string, valid: string)
    requires Honest(x.world) && Staged(e, m, p)
    requires AnswerOf(RunJobs(x, e, m, p, wire)).Success?
    ensures
      var s := RunJobs(x, e, m, p, wire);
      && |e| <= |s.visits|
      && PolicyStatusKept(s.visits[..|e|], status)
      && CoverageKept(s.visits[..|e|], coverage)
      && ValidityKept(s.visits[..|e|], valid)
      && Scoring.PointsFor(status, coverage != "", valid == "true", AnswerOf(s).result.fraudScore)
  {
    ScoreOfRun(x, e, m, p, wire);
    var before := RunJobs(x, e, m, p, wire).visits[..|e|];
    var v := VarsOf(x, before);
    status, coverage, valid := v.policyStatus, v.coverage, if v.addressValid then "true" else "false";
    VarsAreKept(x, before);
    FeaturePoints(x, v);
  }

  lemma {:induction false} FeaturePoints(x: Session, v: Vars)
    ensures Scoring.PointsFor(v.policyStatus, v.coverage != "", v.addressValid, Scoring.ScoreValue(Features(x, v)))
  {
    ScoredFeatures(x, v);
  }

  lemma {:induction false} ModelVisitsInScoring(e: seq<Job>, m: seq<Job>, p: seq<Job>, k: nat)
    requires Staged(e, m, p) && k < |e + m + p| && (e + m + p)[k].service == Model
    ensures |e| <= k < |e + m|
  {
    forall i | 0 <= i < |e + m + p|
      ensures i < |e| ==> (e + m + p)[i] in e
      ensures i >= |e + m| ==> (e + m + p)[i] in p
    {
    }
  }

  /** While model nodes are visited, the features stay those of the enrichment pass. */
  lemma {:induction false} EnrichmentFixed(x: Session, e: seq<Job>, m: seq<Job>, p: seq<Job>, visits: seq<Visit>,
                                           k: nat)
    requires Staged(e, m, p) && |e| <= k < |e + m| && k < |visits| <= |e + m + p|
    requires forall i :: 0 <= i < |visits| ==> visits[i].job == (e + m + p)[i]
    ensures Features(x, VarsOf(x, visits[..k])) == Features(x, VarsOf(x, visits[..|e|]))
  {
    forall i | |e| <= i < k
      ensures visits[..k][i].job.service == Model
    {
      assert (e + m + p)[i] == m[i - |e|] && m[i - |e|] in m;
    }
    assert visits[..k][..|e|] == visits[..|e|];
    LastOkFrame(visits[..k], |e|, Hasher);
    LastOkFrame(visits[..k], |e|, Normalizer);
    LastOkFrame(visits[..k], |e|, PolicyLookup);
  }

  /** The services whose failures the theorem is about. */
  predicate Weakens(service: Service) { service == PolicyLookup || service == Normalizer }

  /** Visit for visit the same outcomes, except that some lookups and normalizations failed, and
      for whatever became of the hashes. */
  ghost predicate Weaker(a: seq<Visit>, b: seq<Visit>, n: nat)
    requires n <= |a| && n <= |b|
  {
    forall k :: 0 <= k < n ==>
      || b[k].outcome == a[k].outcome
      || (b[k].outcome.Err? && Weakens(b[k].job.service))
      || b[k].job.service == Hasher
  }

  /** The visits of a run that answers: nothing fatal, and a job that sends nothing succeeds
      with the zero response. */
  ghost predicate Answered(jobs: seq<Job>, visits: seq<Visit>) {
    && |visits| == |jobs|
    && forall k :: 0 <= k < |jobs| ==>
         && visits[k].job == jobs[k]
         && (visits[k].outcome.Err? ==> jobs[k].tolerant && jobs[k].maxRetries >= 0)
         && (jobs[k].maxRetries < 0 ==> visits[k].outcome == Ok(Nil))
  }

  /** Some lookup or normalizer that sends requests is followed by more of its service, and
      every one of these can be lost: then losing them uncovers its answer. */
  ghost predicate Exposed(jobs: seq<Job>) {
    exists j, l :: 0 <= j < l < |jobs| && Exposes(jobs, j, l)
  }

  ghost predicate Exposes(jobs: seq<Job>, j: int, l: int)
    requires 0 <= j < l < |jobs|
  {
    && Weakens(jobs[j].service) && jobs[l].service == jobs[j].service
    && jobs[j].maxRetries >= 0
    && LosableAfter(jobs, j)
  }

  ghost predicate LosableAfter(jobs: seq<Job>, j: int)
    requires 0 <= j < |jobs|
  {
    forall i :: j < i < |jobs| && jobs[i].service == jobs[j].service ==> jobs[i].tolerant && jobs[i].maxRetries >= 0
  }

  /** With at most one job per service nothing is exposed. */
  lemma {:induction false} DistinctIsNotExposed(jobs: seq<Job>)
    requires Distinct(jobs)
    ensures !Exposed(jobs)
  {
    forall j, l | 0 <= j < l < |jobs|
      ensures !Exposes(jobs, j, l)
    {
    }
  }

  /** Without exposure the last answer of a service is lost to nothing, or to the zero
      response, but never to an earlier answer. */
  lemma {:induction false} LastOkWeaker(jobs: seq<Job>, a: seq<Visit>, b: seq<Visit>, service: Service)
    requires Answered(jobs, a) && Answered(jobs, b)
    requires !Exposed(jobs) && Weaker(a, b, |jobs|) && Weakens(service)
    ensures LastOk(b, service) == LastOk(a, service) || LastOk(b, service).None? || LastOk(b, service) == Some(Nil)
  {
    LastOkMissing(a, service);
    LastOkMissing(b, service);
    if LastOk(b, service).Some? {
      var j := LastOkFound(b, service);
      assert a[j].outcome == b[j].outcome;
      var k := LastOkFound(a, service);
      if k > j {
        UnlessSilent(jobs, b, service, j, k);
      }
    } else if LastOk(a, service).Some? {
      var k := LastOkFound(a, service);
      assert b[k].outcome.Err?;
    }
  }

  lemma {:induction false} UnlessSilent(jobs: seq<Job>, b: seq<Visit>, service: Service, j: nat, k: nat)
    requires Answered(jobs, b) && !Exposed(jobs)
    requires LastSuccess(b, service, j) && j < k < |jobs| && jobs[k].service == service && Weakens(service)
    ensures b[j].outcome == Ok(Nil)
  {
    forall i | j < i < |jobs| && jobs[i].service == service
      ensures jobs[i].tolerant && jobs[i].maxRetries >= 0
    {
      assert b[i].job.service == service;
    }
    assert LosableAfter(jobs, j);
    assert !Exposes(jobs, j, k);
  }

  lemma {:induction false} WeakerIsRiskier(x: Session, y: Session, jobs: seq<Job>, a: seq<Visit>, b: seq<Visit>)
    requires Answered(jobs, a) && Answered(jobs, b)
    requires !Exposed(jobs) && Weaker(a, b, |jobs|)
    ensures Scoring.NoRiskier(Features(x, VarsOf(x, a)), Features(y, VarsOf(y, b)))
  {
    LastOkWeaker(jobs, a, b, PolicyLookup);
    LastOkWeaker(jobs, a, b, Normalizer);
    ScoredFeatures(x, VarsOf(x, a));
    ScoredFeatures(y, VarsOf(y, b));
  }

  lemma {:induction false} ShapeIsAnswered(ctx: Context, base: nat, e: seq<Job>, plan: seq<Job>, gate: nat, s: State)
    requires Shape(plan, gate, s) && s.halted.None? && Tiled(ctx, base, s.visits, s.wire)
    requires |e| <= |plan| && plan[..|e|] == e
    ensures |e| <= |s.visits| && Answered(e, s.visits[..|e|])
  {
    forall k | 0 <= k < |e|
      ensures s.visits[k].job == e[k] && !s.visits[k].Fatal() && Tile(ctx, s.wire.log, s.visits[k])
    {
      assert plan[..|e|][k] == plan[k];
    }
  }

  lemma {:induction false} EnrichmentIsAnswered(x: Session, e: seq<Job>, m: seq<Job>, p: seq<Job>, wire: Wire)
    requires AnswerOf(RunJobs(x, e, m, p, wire)).Success?
    ensures
      var visits := RunJobs(x, e, m, p, wire).visits;
      |e| <= |visits| && Answered(e, visits[..|e|])
  {
    RunKeeps(x, e, m, p, wire);
    RunTiles(x, e, m, p, wire);
    assert (e + m + p)[..|e|] == e;
    ShapeIsAnswered(x.ctx, |wire.log|, e, e + m + p, |e + m|, RunJobs(x, e, m, p, wire));
  }

  /** The enrichment visits of a run that answers. */
  ghost function EnrichmentVisits(x: Session, e: seq<Job>, m: seq<Job>, p: seq<Job>, wire: Wire): (visits: seq<Visit>)
    requires AnswerOf(RunJobs(x, e, m, p, wire)).Success?
    ensures |e| <= |RunJobs(x, e, m, p, wire).visits|
    ensures visits == RunJobs(x, e, m, p, wire).visits[..|e|]
    ensures Answered(e, visits)
  {
    EnrichmentIsAnswered(x, e, m, p, wire);
    RunJobs(x, e, m, p, wire).visits[..|e|]
  }

  /** Two runs that answer, behind an honest model service, the second of which differs from
      the first in that some policy lookups or address normalizations failed, and perhaps in
      the hashing outcomes. */
  ghost predicate Comparable(x: Session, y: Session, e: seq<Job>, m: seq<Job>, p: seq<Job>, wire: Wire) {
    && Honest(x.world) && Honest(y.world)
    && AnswerOf(RunJobs(x, e, m, p, wire)).Success? && AnswerOf(RunJobs(y, e, m, p, wire)).Success?
    && Weaker(EnrichmentVisits(x, e, m, p, wire), EnrichmentVisits(y, e, m, p, wire), |e|)
  }

  ghost function FraudScore(x: Session, e: seq<Job>, m: seq<Job>, p: seq<Job>, wire: Wire): real
    requires AnswerOf(RunJobs(x, e, m, p, wire)).Success?
  {
    AnswerOf(RunJobs(x, e, m, p, wire)).result.fraudScore
  }

  /** Degradation never lowers the score: unless an earlier answer is exposed, a run in which
      some policy lookups or address normalizations failed scores at least as high as one
      in which they did not, whatever they answered there. */
  lemma {:induction false} DegradationNeverLowersScore(x: Session, y: Session, e: seq<Job>, m: seq<Job>, p: seq<Job>,
                                                       wire: Wire)
    requires Staged(e, m, p) && !Exposed(e)
    requires Comparable(x, y, e, m, p, wire)
    ensures FraudScore(x, e, m, p, wire) <= FraudScore(y, e, m, p, wire)
  {
    ScoreOfRun(x, e, m, p, wire);
    ScoreOfRun(y, e, m, p, wire);
    var a, b := EnrichmentVisits(x, e, m, p, wire), EnrichmentVisits(y, e, m, p, wire);
    WeakerIsRiskier(x, y, e, a, b);
    Scoring.ScoreIsMonotone(Features(x, VarsOf(x, a)), Features(y, VarsOf(y, b)));
  }

  /** The same for the runs of a configuration whose enrichment nodes are not exposed. */
  lemma {:induction false} DegradationNeverLowersConfiguredScore(x: Session, y: Session, cfg: Config, wire: Wire)
    requires Honest(x.world) && Honest(y.world) && x.tenantId == y.tenantId
    requires !Exposed(JobsIn(Enrichment, x, cfg))
    requires AnswerOf(RunConfig(x, cfg, wire)).Success? && AnswerOf(RunConfig(y, cfg, wire)).Success?
    requires
      var a, b, n := RunConfig(x, cfg, wire).visits, RunConfig(y, cfg, wire).visits, |JobsIn(Enrichment, x, cfg)|;
      n <= |a| && n <= |b| && Weaker(a, b, n)
    ensures AnswerOf(RunConfig(x, cfg, wire)).result.fraudScore <= AnswerOf(RunConfig(y, cfg, wire)).result.fraudScore
  {
    var e, m, p := JobsIn(Enrichment, x, cfg), JobsIn(Stage.Scoring, x, cfg), JobsIn(Publishing, x, cfg);
    ConfigIsStaged(x, cfg);
    var a, b := EnrichmentVisits(x, e, m, p, wire), EnrichmentVisits(y, e, m, p, wire);
    assert Comparable(x, y, e, m, p, wire);
    DegradationNeverLowersScore(x, y, e, m, p, wire);
  }

  /** In particular those of a configuration with at most one enrichment node per service. */
  lemma {:induction false} DegradationNeverLowersDistinctScore(x: Session, y: Session, cfg: Config, wire: Wire)
    requires Honest(x.world) && Honest(y.world) && x.tenantId == y.tenantId
    requires Distinct(JobsIn(Enrichment, x, cfg))
    requires AnswerOf(RunConfig(x, cfg, wire)).Success? && AnswerOf(RunConfig(y, cfg, wire)).Success?
    requires
      var a, b, n := RunConfig(x, cfg, wire).visits, RunConfig(y, cfg, wire).visits, |JobsIn(Enrichment, x, cfg)|;
      n <= |a| && n <= |b| && Weaker(a, b, n)
    ensures AnswerOf(RunConfig(x, cfg, wire)).result.fraudScore <= AnswerOf(RunConfig(y, cfg, wire)).result.fraudScore
  {
    DistinctIsNotExposed(JobsIn(Enrichment, x, cfg));
    DegradationNeverLowersConfiguredScore(x, y, cfg, wire);
  }
}
