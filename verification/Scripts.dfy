/** Worlds that follow a script: what the n-th exchange is answered depends on n and on the
    request only. They serve to exhibit runs. */
module Scripts {
  import opened Downstream
  import opened Plan
  import opened Resilience
  import opened Runs
  import opened Ledger
  import Scoring

  type Script = (nat, Request) -> Outcome

  /** The world of a script; a slow one takes each attempt to its deadline. */
  function Scripted(script: Script, slow: bool): World {
    World(
      (log: seq<Exchange>, req: Request, start: nat, doneBy: nat) =>
        Reply(script(|log|, req), if slow && start < doneBy then doneBy - start else 0),
      (log: seq<Exchange>, now: nat) => true)
  }

  /** Some run for the tenant. */
  function Sample(tenantId: string): Session {
    Session(Scripted((n, req) => LOST, false), Background, tenantId, "", Claim("", "", "", "", "", ""))
  }

  const LOST := Err(ServiceFailure("unavailable"))

  lemma {:induction false} AnsweredAtOnce(script: Script, slow: bool, job: Job, req: Request, s: Wire)
    requires job.maxRetries >= 0 && script(|s.log|, req).Ok?
    ensures
      var c := Call(Scripted(script, slow), Background, job, req, s);
      c.outcome == script(|s.log|, req) && |c.wire.log| == |s.log| + 1
  {
  }

  lemma {:induction false} NeverAnswered(script: Script, slow: bool, timeout: nat, left: nat, req: Request, s: Wire)
    requires left >= 1
    requires forall n: nat :: n >= |s.log| ==> script(n, req) == LOST
    ensures
      var c := Attempts(Scripted(script, slow), Background, timeout, left, req, s);
      c.outcome == LOST && |c.wire.log| > |s.log|
    decreases left
  {
    var first := Attempt(Scripted(script, slow), Background, timeout, req, s);
    assert first.outcome == script(|s.log|, req);
    if left > 1 {
      NeverAnswered(script, slow, timeout, left - 1, req, Rested(first.wire));
    }
  }

  // ---- rigging one service ----

  /** What the services answer when all is well. */
  function Usual(req: Request): Outcome {
    match req
    case HashRequest(_, _) => Ok(HashResponse("h"))
    case NormalizeRequest(_, _) => Ok(NormalizeResponse("", true))
    case LookupRequest(_, _) => Ok(LookupResponse(true, "active", "full"))
    case ScoreRequest(_, features) => Ok(ScoreResponse(Scoring.ScoreValue(features), Scoring.MODEL_VERSION))
    case PublishRequest(_) => Ok(Nil)
  }

  /** All is well, but the n-th exchange, if it is with the rigged service, is answered `g(n)`. */
  function Rig(service: Service, g: nat -> Outcome): Script {
    (n: nat, req: Request) => if req.Callee() == service then g(n) else Usual(req)
  }

  lemma {:induction false} RigAnswers(service: Service, g: nat -> Outcome, n: nat, req: Request)
    ensures Rig(service, g)(n, req) == if req.Callee() == service then g(n) else Usual(req)
    ensures Usual(req).Ok?
  {
  }

  /** The number of jobs that send anything. */
  function Sending(jobs: seq<Job>): nat {
    if jobs == [] then 0
    else Sending(jobs[..|jobs| - 1]) + if jobs[|jobs| - 1].maxRetries >= 0 then 1 else 0
  }

  lemma {:induction false} SendingGrows(jobs: seq<Job>, j: nat, k: nat)
    requires j < k <= |jobs|
    ensures Sending(jobs[..j]) + (if jobs[j].maxRetries >= 0 then 1 else 0) <= Sending(jobs[..k])
    decreases k
  {
    assert jobs[..k][..k - 1] == jobs[..k - 1];
    if j + 1 < k {
      SendingGrows(jobs, j, k - 1);
    }
  }

  lemma {:induction false} SendingStep(jobs: seq<Job>, j: nat)
    requires j < |jobs|
    ensures Sending(jobs[..j + 1]) == Sending(jobs[..j]) + if jobs[j].maxRetries >= 0 then 1 else 0
  {
    assert jobs[..j + 1][..j] == jobs[..j];
  }

  /** The job can fail without failing the run. */
  predicate Losable(job: Job) { job.tolerant && job.maxRetries >= 0 }

  /** A rigging that lets every job before `cut` be answered, and loses the rigged service's
      jobs from `cut` on, all of them losable. */
  ghost predicate Cuts(service: Service, g: nat -> Outcome, jobs: seq<Job>, cut: nat) {
    && cut <= |jobs|
    && (forall n: nat :: n < Sending(jobs[..cut]) ==> g(n).Ok?)
    && (cut < |jobs| ==> forall n: nat :: n >= Sending(jobs[..cut]) ==> g(n) == LOST)
    && (forall k :: cut <= k < |jobs| && jobs[k].service == service ==> Losable(jobs[k]))
  }

  /** What the k-th job is due under such a rigging. */
  function Due(x: Session, service: Service, g: nat -> Outcome, jobs: seq<Job>, cut: nat, k: nat): Outcome
    requires k < |jobs| && cut <= |jobs|
  {
    if jobs[k].maxRetries < 0 then Ok(Nil)
    else if jobs[k].service != service then Usual(RequestFor(x, jobs[k].service, InitialVars(x.claim)))
    else if k < cut then g(Sending(jobs[..k]))
    else LOST
  }

  /** Until the cut every sending job makes one exchange, from then on there are no fewer. */
  predicate InStep(jobs: seq<Job>, cut: nat, n: nat, sent: nat)
    requires n <= |jobs| && cut <= |jobs|
  {
    (n <= cut ==> sent == Sending(jobs[..n])) && (n >= cut ==> sent >= Sending(jobs[..cut]))
  }

  lemma {:induction false} ScriptedCall(x: Session, service: Service, g: nat -> Outcome, jobs: seq<Job>, cut: nat,
                                        n: nat, wire: Wire)
    requires Cuts(service, g, jobs, cut) && n < |jobs| && InStep(jobs, cut, n, |wire.log|)
    ensures
      var req := RequestFor(x, jobs[n].service, InitialVars(x.claim));
      var c := Call(Scripted(Rig(service, g), false), Background, jobs[n], req, wire);
      c.outcome == Due(x, service, g, jobs, cut, n) && InStep(jobs, cut, n + 1, |c.wire.log|)
  {
    var job := jobs[n];
    var req := RequestFor(x, job.service, InitialVars(x.claim));
    SendingStep(jobs, n);
    if job.maxRetries >= 0 {
      RigAnswers(service, g, |wire.log|, req);
      if n < cut {
        SendingGrows(jobs, n, cut);
        AnsweredAtOnce(Rig(service, g), false, job, req, wire);
      } else if job.service != service {
        AnsweredAtOnce(Rig(service, g), false, job, req, wire);
      } else {
        LostForGood(service, g, job, req, wire);
      }
    }
  }

  lemma {:induction false} LostForGood(service: Service, g: nat -> Outcome, job: Job, req: Request, wire: Wire)
    requires req.Callee() == service && job.maxRetries >= 0
    requires forall n: nat :: n >= |wire.log| ==> g(n) == LOST
    ensures
      var c := Call(Scripted(Rig(service, g), false), Background, job, req, wire);
      c.outcome == LOST && |c.wire.log| > |wire.log|
  {
    forall n: nat | n >= |wire.log|
      ensures Rig(service, g)(n, req) == LOST
    {
      RigAnswers(service, g, n, req);
    }
    NeverAnswered(Rig(service, g), false, job.timeout, job.maxRetries + 1, req, wire);
  }

  ghost predicate OnScript(x: Session, service: Service, g: nat -> Outcome, jobs: seq<Job>, cut: nat, n: nat, s: State)
    requires n <= |jobs| && cut <= |jobs|
  {
    && s.halted.None?
    && |s.visits| == n
    && InStep(jobs, cut, n, |s.wire.log|)
    && (forall k :: 0 <= k < n ==>
          s.visits[k].job == jobs[k] && s.visits[k].outcome == Due(x, service, g, jobs, cut, k))
  }

  lemma {:induction false} ScriptedStep(x: Session, service: Service, g: nat -> Outcome, jobs: seq<Job>, cut: nat,
                                        n: nat, s: State)
    requires x.world == Scripted(Rig(service, g), false) && x.ctx == Background
    requires Cuts(service, g, jobs, cut) && n < |jobs| && StageOf(jobs[n].service) == Enrichment
    requires OnScript(x, service, g, jobs, cut, n, s)
    ensures OnScript(x, service, g, jobs, cut, n + 1, Perform(x, jobs[n], s))
  {
    assert RequestFor(x, jobs[n].service, s.vars) == RequestFor(x, jobs[n].service, InitialVars(x.claim));
    ScriptedCall(x, service, g, jobs, cut, n, s.wire);
    DueLosable(x, service, g, jobs, cut, n);
  }

  lemma {:induction false} DueLosable(x: Session, service: Service, g: nat -> Outcome, jobs: seq<Job>, cut: nat, n: nat)
    requires Cuts(service, g, jobs, cut) && n < |jobs|
    ensures Due(x, service, g, jobs, cut, n).Err? ==> jobs[n].tolerant
  {
    if n < cut && jobs[n].maxRetries >= 0 {
      SendingGrows(jobs, n, cut);
    }
    RigAnswers(service, g, 0, RequestFor(x, jobs[n].service, InitialVars(x.claim)));
  }

  /** The enrichment pass in a rigged world goes by the script. */
  lemma {:induction false} ScriptedPass(x: Session, service: Service, g: nat -> Outcome, jobs: seq<Job>, cut: nat,
                                        n: nat)
    requires x.world == Scripted(Rig(service, g), false) && x.ctx == Background
    requires Cuts(service, g, jobs, cut) && n <= |jobs|
    requires forall job :: job in jobs ==> StageOf(job.service) == Enrichment
    ensures OnScript(x, service, g, jobs, cut, n, Drive(x, jobs[..n], Start(x, Wire([], 0))))
  {
    if n > 0 {
      assert jobs[..n][..n - 1] == jobs[..n - 1];
      assert jobs[n - 1] in jobs;
      ScriptedPass(x, service, g, jobs, cut, n - 1);
      ScriptedStep(x, service, g, jobs, cut, n - 1, Drive(x, jobs[..n - 1], Start(x, Wire([], 0))));
    }
  }

  /** The last model node sends something; without that no run has a score. */
  predicate CanScore(m: seq<Job>) { m != [] && m[|m| - 1].maxRetries >= 0 }

  /** Model and publish nodes are answered in a world where only an enrichment service is rigged. */
  lemma {:induction false} RestAnswered(x: Session, service: Service, g: nat -> Outcome, jobs: seq<Job>, s: State)
    requires x.world == Scripted(Rig(service, g), false) && x.ctx == Background
    requires StageOf(service) == Enrichment && s.halted.None?
    requires forall job :: job in jobs ==> StageOf(job.service) != Enrichment
    ensures
      var t := Drive(x, jobs, s);
      && t.halted.None?
      && (CanScore(jobs) && jobs[|jobs| - 1].service == Model ==> t.vars.score.ScoreResponse?)
      && ((forall job :: job in jobs ==> job.service != Model) ==> t.vars.score == s.vars.score)
  {
    if jobs != [] {
      var init, last := jobs[..|jobs| - 1], jobs[|jobs| - 1];
      assert last in jobs;
      assert forall job :: job in init ==> job in jobs;
      RestAnswered(x, service, g, init, s);
      var mid := Drive(x, init, s);
      if last.maxRetries >= 0 {
        RigAnswers(service, g, |mid.wire.log|, RequestFor(x, last.service, mid.vars));
        AnsweredAtOnce(Rig(service, g), false, last, RequestFor(x, last.service, mid.vars), mid.wire);
      }
    }
  }

  /** Enrichment visits that go by the script. */
  ghost predicate ByScript(x: Session, service: Service, g: nat -> Outcome, e: seq<Job>, cut: nat, visits: seq<Visit>) {
    && cut <= |e| <= |visits|
    && (forall k :: 0 <= k < |e| ==>
          visits[k].job == e[k] && visits[k].outcome == Due(x, service, g, e, cut, k))
  }

  /** The passes before the gate in a rigged world. */
  lemma {:induction false} ScriptedScored(x: Session, service: Service, g: nat -> Outcome, cut: nat,
                                          e: seq<Job>, m: seq<Job>)
    requires x.world == Scripted(Rig(service, g), false) && x.ctx == Background
    requires Staged(e, m, []) && Cuts(service, g, e, cut) && StageOf(service) == Enrichment
    ensures
      var s := Drive(x, m, Drive(x, e, Start(x, Wire([], 0))));
      && s.halted.None?
      && |s.visits| == |e + m|
      && ByScript(x, service, g, e, cut, s.visits)
      && (CanScore(m) ==> s.vars.score.ScoreResponse?)
  {
    assert e[..|e|] == e;
    ScriptedPass(x, service, g, e, cut, |e|);
    var enriched := Drive(x, e, Start(x, Wire([], 0)));
    RestAnswered(x, service, g, m, enriched);
    DriveExtends(x, m, enriched);
    DriveCounts(x, m, enriched);
    assert m != [] ==> m[|m| - 1] in m;
  }

  /** A pass that nothing halts visits all its jobs. */
  lemma {:induction false} DriveCounts(x: Session, jobs: seq<Job>, s: State)
    ensures Drive(x, jobs, s).halted.None? ==> |Drive(x, jobs, s).visits| == |s.visits| + |jobs|
  {
    if jobs != [] {
      DriveCounts(x, jobs[..|jobs| - 1], s);
    }
  }

  /** The run in a rigged world: the enrichment visits go by the script, nothing halts it
      before the gate, and it answers if the last model node sends anything. */
  lemma {:induction false} ScriptedRun(x: Session, service: Service, g: nat -> Outcome, cut: nat,
                                       e: seq<Job>, m: seq<Job>, p: seq<Job>)
    requires x.world == Scripted(Rig(service, g), false) && x.ctx == Background
    requires Staged(e, m, p) && Cuts(service, g, e, cut) && StageOf(service) == Enrichment
    ensures
      var s := RunJobs(x, e, m, p, Wire([], 0));
      && |s.visits| >= |e + m|
      && ByScript(x, service, g, e, cut, s.visits)
      && (CanScore(m) ==> AnswerOf(s).Success?)
  {
    var scored := Drive(x, m, Drive(x, e, Start(x, Wire([], 0))));
    ScriptedScored(x, service, g, cut, e, m);
    DriveExtends(x, p, Gate(scored));
    if CanScore(m) {
      RestAnswered(x, service, g, p, scored);
    }
  }

  /** Without such a model node no run answers, and nothing is ever published. */
  lemma {:induction false} ScorelessStopsAtGate(x: Session, m: seq<Job>, p: seq<Job>, s: State)
    requires !CanScore(m) && s.vars.score.Nil?
    requires forall job :: job in m ==> job.service == Model
    ensures
      var gated := Gate(Drive(x, m, s));
      gated.halted.Some? && Drive(x, p, gated) == gated
  {
    if m != [] {
      assert m[|m| - 1] in m;
      if Drive(x, m, s).halted.None? {
        assert Drive(x, m, s).vars.score.Nil?;
      }
    }
    DriveHalted(x, p, Gate(Drive(x, m, s)));
  }

  lemma {:induction false} DriveKeepsScore(x: Session, jobs: seq<Job>, s: State)
    requires forall job :: job in jobs ==> job.service != Model
    ensures Drive(x, jobs, s).vars.score == s.vars.score
  {
    if jobs != [] {
      assert jobs[|jobs| - 1] in jobs;
      DriveKeepsScore(x, jobs[..|jobs| - 1], s);
    }
  }

  /** Such a run ends at the gate. */
  lemma {:induction false} ScorelessRun(x: Session, e: seq<Job>, m: seq<Job>, p: seq<Job>, wire: Wire)
    requires Staged(e, m, p) && !CanScore(m)
    ensures
      var s := RunJobs(x, e, m, p, wire);
      s.halted.Some? && s == Gate(Drive(x, m, Drive(x, e, Start(x, wire))))
  {
    DriveKeepsScore(x, e, Start(x, wire));
    ScorelessStopsAtGate(x, m, p, Drive(x, e, Start(x, wire)));
  }
}
