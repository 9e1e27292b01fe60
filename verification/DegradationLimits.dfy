/** Exactly when degradation never lowers the score. */
module DegradationLimits {
  import opened DagConfig
  import opened Downstream
  import opened Plan
  import opened Runs
  import opened Ledger
  import opened Shipped
  import opened Scripts
  import opened Degradation
  import Scoring

  /** The answer that looks safest, and the one that looks riskiest. */
  function Good(service: Service): Outcome {
    if service == PolicyLookup then Ok(LookupResponse(true, "active", "full")) else Ok(NormalizeResponse("", true))
  }

  function Bad(service: Service): Outcome {
    if service == PolicyLookup then Ok(LookupResponse(false, "unknown", "")) else Ok(NormalizeResponse("", false))
  }

  /** The exchange `at` is answered well, the others badly; or those after it are lost. */
  function OneGood(service: Service, at: nat): nat -> Outcome {
    (n: nat) => if n == at then Good(service) else Bad(service)
  }

  function OneGoodThenLost(service: Service, at: nat): nat -> Outcome {
    (n: nat) => if n == at then Good(service) else if n < at then Bad(service) else LOST
  }

  lemma {:induction false} OneGoodAt(service: Service, at: nat, n: nat)
    ensures OneGood(service, at)(n) == if n == at then Good(service) else Bad(service)
    ensures OneGoodThenLost(service, at)(n) ==
            if n == at then Good(service) else if n < at then Bad(service) else LOST
    ensures Good(service).Ok? && Bad(service).Ok?
  {
  }

  lemma {:induction false} RiggedIsHonest(service: Service, g: nat -> Outcome)
    requires service != Model
    ensures Honest(Scripted(Rig(service, g), false))
  {
    forall log, req, start: nat, doneBy: nat
      ensures Scripted(Rig(service, g), false).answer(log, req, start, doneBy).outcome ==
              if req.Callee() == service then g(|log|) else Usual(req)
    {
      RigAnswers(service, g, |log|, req);
    }
  }

  lemma {:induction false} RiggingsCut(jobs: seq<Job>, j: nat, l: nat)
    requires j < l < |jobs| && Exposes(jobs, j, l)
    ensures Cuts(jobs[j].service, OneGood(jobs[j].service, Sending(jobs[..j])), jobs, |jobs|)
    ensures Cuts(jobs[j].service, OneGoodThenLost(jobs[j].service, Sending(jobs[..j])), jobs, j + 1)
  {
    var service, at := jobs[j].service, Sending(jobs[..j]);
    SendingStep(jobs, j);
    forall n: nat
      ensures OneGood(service, at)(n).Ok?
      ensures n <= at ==> OneGoodThenLost(service, at)(n).Ok?
      ensures n > at ==> OneGoodThenLost(service, at)(n) == LOST
    {
      OneGoodAt(service, at, n);
    }
    assert jobs[..|jobs|] == jobs;
  }

  /** The exposed job is the only one of its service that is answered well. */
  lemma {:induction false} OnlyOneGood(jobs: seq<Job>, j: nat, k: nat)
    requires j < |jobs| && k < |jobs| && k != j
    requires jobs[j].maxRetries >= 0 && jobs[k].maxRetries >= 0
    ensures Sending(jobs[..k]) != Sending(jobs[..j])
  {
    if k < j {
      SendingGrows(jobs, k, j);
    } else {
      SendingGrows(jobs, j, k);
    }
  }

  lemma {:induction false} LastOkIs(visits: seq<Visit>, service: Service, k: nat)
    requires LastSuccess(visits, service, k)
    ensures LastOk(visits, service) == Some(visits[k].outcome.resp)
  {
    LastOkMissing(visits, service);
    var j := LastOkFound(visits, service);
    assert j == k;
  }

  lemma {:induction false} LastOkSame(a: seq<Visit>, b: seq<Visit>, service: Service)
    requires |a| == |b|
    requires forall k :: 0 <= k < |a| ==>
               a[k].job == b[k].job && (a[k].job.service == service ==> a[k].outcome == b[k].outcome)
    ensures LastOk(a, service) == LastOk(b, service)
  {
    if a != [] {
      LastOkSame(a[..|a| - 1], b[..|b| - 1], service);
    }
  }

  /** The visits of the two riggings: the same up to the exposed job `j`, which is answered
      well; of its service, those after it are answered badly in `a` and lost in `b`. */
  ghost predicate Uncovers(jobs: seq<Job>, a: seq<Visit>, b: seq<Visit>, j: nat) {
    && j < |jobs| == |a| == |b|
    && (forall k :: 0 <= k < |jobs| ==> a[k].job == b[k].job == jobs[k])
    && (forall k :: 0 <= k < |jobs| && (k <= j || jobs[k].service != jobs[j].service) ==> a[k].outcome == b[k].outcome)
    && b[j].outcome == Good(jobs[j].service)
    && (forall k :: j < k < |jobs| && jobs[k].service == jobs[j].service ==>
          a[k].outcome == Bad(jobs[j].service) && b[k].outcome == LOST)
  }

  lemma {:induction false} UncoveredAnswers(jobs: seq<Job>, a: seq<Visit>, b: seq<Visit>, j: nat, l: nat)
    requires Uncovers(jobs, a, b, j) && j < l < |jobs| && jobs[l].service == jobs[j].service
    ensures LastOk(a, jobs[j].service) == Some(Bad(jobs[j].service).resp)
    ensures LastOk(b, jobs[j].service) == Some(Good(jobs[j].service).resp)
    ensures forall service :: service != jobs[j].service ==> LastOk(a, service) == LastOk(b, service)
  {
    LastOkMissing(a, jobs[j].service);
    var k := LastOkFound(a, jobs[j].service);
    LastOkIs(b, jobs[j].service, j);
    forall service | service != jobs[j].service
      ensures LastOk(a, service) == LastOk(b, service)
    {
      LastOkSame(a, b, service);
    }
  }

  lemma {:induction false} UncoveredIsSafer(x: Session, y: Session, jobs: seq<Job>, a: seq<Visit>, b: seq<Visit>,
                                            j: nat, l: nat)
    requires Uncovers(jobs, a, b, j) && j < l < |jobs|
    requires Weakens(jobs[j].service) && jobs[l].service == jobs[j].service
    ensures Scoring.ScoreValue(Features(y, VarsOf(y, b))) < Scoring.ScoreValue(Features(x, VarsOf(x, a)))
  {
    UncoveredAnswers(jobs, a, b, j, l);
    ScoredFeatures(x, VarsOf(x, a));
    ScoredFeatures(y, VarsOf(y, b));
    Scoring.ScoreIsMonotone(Features(y, VarsOf(y, b)), Features(x, VarsOf(x, a)));
  }

  ghost predicate GoesByScript(x: Session, service: Service, g: nat -> Outcome, cut: nat,
                               jobs: seq<Job>, visits: seq<Visit>)
  {
    && |visits| == |jobs| && cut <= |jobs|
    && (forall k :: 0 <= k < |jobs| ==>
          visits[k].job == jobs[k] && visits[k].outcome == Due(x, service, g, jobs, cut, k))
  }

  /** What the two riggings make of the enrichment jobs. */
  lemma {:induction false} RiggingsUncover(x: Session, y: Session, jobs: seq<Job>, j: nat, l: nat,
                                           a: seq<Visit>, b: seq<Visit>)
    requires y == x.(world := y.world)
    requires j < l < |jobs| && Exposes(jobs, j, l)
    requires GoesByScript(x, jobs[j].service, OneGood(jobs[j].service, Sending(jobs[..j])), |jobs|, jobs, a)
    requires GoesByScript(y, jobs[j].service, OneGoodThenLost(jobs[j].service, Sending(jobs[..j])), j + 1, jobs, b)
    ensures Uncovers(jobs, a, b, j)
    ensures Weaker(a, b, |jobs|)
  {
    forall k | 0 <= k < |jobs| && k != j && jobs[k].maxRetries >= 0
      ensures if k < j then Sending(jobs[..k]) < Sending(jobs[..j]) else Sending(jobs[..k]) != Sending(jobs[..j])
    {
      OnlyOneGood(jobs, j, k);
      if k < j {
        SendingGrows(jobs, k, j);
      }
    }
    forall n: nat
      ensures OneGood(jobs[j].service, Sending(jobs[..j]))(n) ==
              if n == Sending(jobs[..j]) then Good(jobs[j].service) else Bad(jobs[j].service)
      ensures OneGoodThenLost(jobs[j].service, Sending(jobs[..j]))(n) ==
              if n == Sending(jobs[..j]) then Good(jobs[j].service)
              else if n < Sending(jobs[..j]) then Bad(jobs[j].service) else LOST
    {
      OneGoodAt(jobs[j].service, Sending(jobs[..j]), n);
    }
  }

  /** A run in a rigged world answers, and its enrichment visits go by the script. */
  lemma {:induction false} RiggedVisits(x: Session, service: Service, g: nat -> Outcome, cut: nat,
                                        e: seq<Job>, m: seq<Job>, p: seq<Job>)
    requires x.world == Scripted(Rig(service, g), false) && x.ctx == Background
    requires Staged(e, m, p) && CanScore(m) && Cuts(service, g, e, cut) && Weakens(service)
    ensures Honest(x.world) && AnswerOf(RunJobs(x, e, m, p, Wire([], 0))).Success?
    ensures
      var visits := EnrichmentVisits(x, e, m, p, Wire([], 0));
      && GoesByScript(x, service, g, cut, e, visits)
      && FraudScore(x, e, m, p, Wire([], 0)) == Scoring.ScoreValue(Features(x, VarsOf(x, visits)))
  {
    RiggedIsHonest(service, g);
    ScriptedRun(x, service, g, cut, e, m, p);
    ScoreOfRun(x, e, m, p, Wire([], 0));
  }

  /** An exposed answer lowers the score in some pair of runs. */
  lemma {:induction false} ExposureLowersScore(base: Session, e: seq<Job>, m: seq<Job>, p: seq<Job>, j: nat, l: nat)
      returns (x: Session, y: Session)
    requires Staged(e, m, p) && CanScore(m)
    requires j < l < |e| && Exposes(e, j, l)
    ensures x == base.(ctx := Background, world := x.world) && y == base.(ctx := Background, world := y.world)
    ensures Comparable(x, y, e, m, p, Wire([], 0))
    ensures FraudScore(y, e, m, p, Wire([], 0)) < FraudScore(x, e, m, p, Wire([], 0))
  {
    var service, at := e[j].service, Sending(e[..j]);
    var g, h := OneGood(service, at), OneGoodThenLost(service, at);
    x := base.(ctx := Background, world := Scripted(Rig(service, g), false));
    y := base.(ctx := Background, world := Scripted(Rig(service, h), false));
    RiggingsCut(e, j, l);
    RiggedVisits(x, service, g, |e|, e, m, p);
    RiggedVisits(y, service, h, j + 1, e, m, p);
    var a, b := EnrichmentVisits(x, e, m, p, Wire([], 0)), EnrichmentVisits(y, e, m, p, Wire([], 0));
    RiggingsUncover(x, y, e, j, l, a, b);
    UncoveredIsSafer(x, y, e, a, b, j, l);
  }

  /** For all worlds, contexts and claims of the tenant, losing answers never lowers the score. */
  ghost predicate NeverLowers(tenantId: string, e: seq<Job>, m: seq<Job>, p: seq<Job>) {
    forall x: Session, y: Session, wire: Wire ::
      x.tenantId == tenantId && y.tenantId == tenantId && Comparable(x, y, e, m, p, wire) ==>
        FraudScore(x, e, m, p, wire) <= FraudScore(y, e, m, p, wire)
  }

  lemma {:induction false} JobsNeverLowerExactly(tenantId: string, e: seq<Job>, m: seq<Job>, p: seq<Job>)
    requires Staged(e, m, p)
    ensures NeverLowers(tenantId, e, m, p) <==> !Exposed(e) || !CanScore(m)
  {
    if !Exposed(e) || !CanScore(m) {
      forall x: Session, y: Session, wire: Wire | Comparable(x, y, e, m, p, wire)
        ensures FraudScore(x, e, m, p, wire) <= FraudScore(y, e, m, p, wire)
      {
        if CanScore(m) {
          DegradationNeverLowersScore(x, y, e, m, p, wire);
        } else {
          ScorelessRun(x, e, m, p, wire);
          assert false;
        }
      }
    } else {
      var j, l :| 0 <= j < l < |e| && Exposes(e, j, l);
      var base := Sample(tenantId);
      var x, y := ExposureLowersScore(base, e, m, p, j, l);
      assert Comparable(x, y, e, m, p, Wire([], 0));
    }
  }

  /** Degradation never lowers the score of a configuration exactly when no lookup or
      normalizer of it is exposed, or no run of it can answer. */
  lemma {:induction false} DegradationIsSafeExactly(cfg: Config, tenantId: string)
    ensures
      var jobs := (stage: Stage) => Jobs(stage, cfg.timeoutMs, tenantId, cfg.nodes);
      NeverLowers(tenantId, jobs(Enrichment), jobs(Scoring), jobs(Publishing)) <==>
      !Exposed(jobs(Enrichment)) || !CanScore(jobs(Scoring))
  {
    TenantIsStaged(cfg, tenantId);
    JobsNeverLowerExactly(tenantId,
      Jobs(Enrichment, cfg.timeoutMs, tenantId, cfg.nodes),
      Jobs(Stage.Scoring, cfg.timeoutMs, tenantId, cfg.nodes),
      Jobs(Publishing, cfg.timeoutMs, tenantId, cfg.nodes));
  }

  // Two policy lookups and a model node, with the shipped settings.
  const TWO_LOOKUPS := SHIPPED.(nodes := [POLICY_LOOKUP, POLICY_LOOKUP, MODEL_SCORE])

  lemma {:induction false} TwoLookupsJobs(x: Session)
    ensures
      var lookup := Job(PolicyLookup, 40_000_000, 1, true);
      && JobsIn(Enrichment, x, TWO_LOOKUPS) == [lookup, lookup]
      && JobsIn(Stage.Scoring, x, TWO_LOOKUPS) == [Job(Model, 80_000_000, 0, false)]
      && JobsIn(Publishing, x, TWO_LOOKUPS) == []
  {
    JobsOfThree(Enrichment, 250, x.tenantId, POLICY_LOOKUP, POLICY_LOOKUP, MODEL_SCORE);
    JobsOfThree(Stage.Scoring, 250, x.tenantId, POLICY_LOOKUP, POLICY_LOOKUP, MODEL_SCORE);
    JobsOfThree(Publishing, 250, x.tenantId, POLICY_LOOKUP, POLICY_LOOKUP, MODEL_SCORE);
  }

  /** In every configuration with an exposed answer some pair of runs shows the drop. */
  lemma {:induction false} ExposedConfigurationDrops(base: Session, cfg: Config, j: nat, l: nat)
      returns (x: Session, y: Session)
    requires j < l < |JobsIn(Enrichment, base, cfg)| && Exposes(JobsIn(Enrichment, base, cfg), j, l)
    requires CanScore(JobsIn(Stage.Scoring, base, cfg))
    ensures x == base.(ctx := Background, world := x.world) && y == base.(ctx := Background, world := y.world)
    ensures Honest(x.world) && Honest(y.world)
    ensures
      var s, t, n := RunConfig(x, cfg, Wire([], 0)), RunConfig(y, cfg, Wire([], 0)), |JobsIn(Enrichment, base, cfg)|;
      && AnswerOf(s).Success? && AnswerOf(t).Success?
      && n <= |s.visits| && n <= |t.visits| && Weaker(s.visits, t.visits, n)
      && AnswerOf(t).result.fraudScore < AnswerOf(s).result.fraudScore
  {
    var e := JobsIn(Enrichment, base, cfg);
    var m, p := JobsIn(Stage.Scoring, base, cfg), JobsIn(Publishing, base, cfg);
    ConfigIsStaged(base, cfg);
    x, y := ExposureLowersScore(base, e, m, p, j, l);
    var a, b := EnrichmentVisits(x, e, m, p, Wire([], 0)), EnrichmentVisits(y, e, m, p, Wire([], 0));
    WeakerPrefix(RunJobs(x, e, m, p, Wire([], 0)).visits, RunJobs(y, e, m, p, Wire([], 0)).visits, |e|);
  }

  lemma {:induction false} WeakerPrefix(a: seq<Visit>, b: seq<Visit>, n: nat)
    requires n <= |a| && n <= |b| && Weaker(a[..n], b[..n], n)
    ensures Weaker(a, b, n)
  {
    forall k | 0 <= k < n
      ensures
        || b[k].outcome == a[k].outcome
        || (b[k].outcome.Err? && Weakens(b[k].job.service))
        || b[k].job.service == Hasher
    {
      assert a[..n][k] == a[k] && b[..n][k] == b[k];
    }
  }

  /** Two lookups can hide risk: in one run of this configuration the second lookup finds the
      policy unknown; in another, equal but for the loss of that answer, the first lookup's
      answer stands and the same claim scores strictly lower. */
  lemma {:induction false} TwoLookupsCanHideRisk(base: Session) returns (x: Session, y: Session)
    ensures x == base.(ctx := Background, world := x.world) && y == base.(ctx := Background, world := y.world)
    ensures Honest(x.world) && Honest(y.world)
    ensures
      var s, t := RunConfig(x, TWO_LOOKUPS, Wire([], 0)), RunConfig(y, TWO_LOOKUPS, Wire([], 0));
      && AnswerOf(s).Success? && AnswerOf(t).Success?
      && |s.visits| >= 2 && |t.visits| >= 2 && Weaker(s.visits, t.visits, 2)
      && AnswerOf(t).result.fraudScore < AnswerOf(s).result.fraudScore
  {
    TwoLookupsJobs(base);
    assert Exposes(JobsIn(Enrichment, base, TWO_LOOKUPS), 0, 1);
    x, y := ExposedConfigurationDrops(base, TWO_LOOKUPS, 0, 1);
  }
}
