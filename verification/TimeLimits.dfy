/** Exactly how long the runs of a plan can take. */
module TimeLimits {
  import opened DagConfig
  import opened Downstream
  import opened Plan
  import opened Resilience
  import opened Runs
  import opened Ledger
  import opened TimeLaws
  import opened Shipped
  import opened Scripts

  /** The attempts of one job when each but the last fails. */
  function LateSlots(job: Job): seq<bool> {
    if job.maxRetries < 0 then [] else seq(job.maxRetries, _ => false) + [true]
  }

  function Slots(jobs: seq<Job>): seq<bool> {
    if jobs == [] then [] else Slots(jobs[..|jobs| - 1]) + LateSlots(jobs[|jobs| - 1])
  }

  /** The script that answers the exchanges marked in `slots`. */
  function Late(slots: seq<bool>): Script {
    (n: nat, req: Request) => if n < |slots| && slots[n] then Usual(req) else LOST
  }

  lemma {:induction false} LateAnswers(slots: seq<bool>, n: nat, req: Request)
    ensures Late(slots)(n, req) == if n < |slots| && slots[n] then Usual(req) else LOST
    ensures Usual(req).Ok?
  {
  }

  lemma {:induction false} SlowIsPrompt(script: Script)
    ensures Prompt(Scripted(script, true))
  {
  }

  /** The exchanges from `at` on are one job's. */
  predicate Placed(slots: seq<bool>, at: nat, own: seq<bool>) {
    at + |own| <= |slots| && slots[at..at + |own|] == own
  }

  lemma {:induction false} PlacedParts(slots: seq<bool>, at: nat, a: seq<bool>, b: seq<bool>)
    requires Placed(slots, at, a + b)
    ensures Placed(slots, at, a) && Placed(slots, at + |a|, b)
  {
    var ab := slots[at..at + |a + b|];
    assert slots[at..at + |a|] == ab[..|a|];
    assert slots[at + |a|..at + |a| + |b|] == ab[|a|..];
  }

  lemma {:induction false} PlacedAt(slots: seq<bool>, at: nat, own: seq<bool>, k: nat)
    requires Placed(slots, at, own) && k < |own|
    ensures slots[at + k] == own[k]
  {
    assert slots[at..at + |own|][k] == slots[at + k];
  }

  /** The context is done. */
  predicate Reached(ctx: Context, now: nat) { ctx.DoneAt? && ctx.at <= now }

  /** One attempt in a slow world takes its whole timeout, unless it lasts until the context
      is done. */
  lemma {:induction false} SlowAttempt(script: Script, ctx: Context, timeout: nat, req: Request, s: Wire)
    ensures
      var a := Attempt(Scripted(script, true), ctx, timeout, req, s);
      && a.outcome == script(|s.log|, req) && |a.wire.log| == |s.log| + 1
      && (Reached(ctx, a.wire.now) || a.wire.now == s.now + timeout)
  {
  }

  /** A call that is answered at the last attempt uses its whole budget, unless it lasts until
      the context is done. */
  lemma {:induction false} LateAttempts(script: Script, ctx: Context, timeout: nat, left: nat, req: Request, s: Wire)
    requires left >= 1
    requires forall k: nat :: |s.log| <= k < |s.log| + left - 1 ==> script(k, req).Err?
    requires script(|s.log| + left - 1, req).Ok?
    ensures
      var c := Attempts(Scripted(script, true), ctx, timeout, left, req, s);
      || Reached(ctx, c.wire.now)
      || (&& c.outcome == script(|s.log| + left - 1, req)
          && |c.wire.log| == |s.log| + left
          && c.wire.now == s.now + left * timeout + (left - 1) * RETRY_BACKOFF)
    decreases left
  {
    SlowAttempt(script, ctx, timeout, req, s);
    if left > 1 {
      var first := Attempt(Scripted(script, true), ctx, timeout, req, s);
      if !CutShort(Scripted(script, true), ctx, first.wire) {
        LateAttempts(script, ctx, timeout, left - 1, req, Rested(first.wire));
      }
      assert left * timeout == timeout + (left - 1) * timeout;
    }
  }

  lemma {:induction false} LateCall(slots: seq<bool>, ctx: Context, job: Job, req: Request, s: Wire)
    requires Placed(slots, |s.log|, LateSlots(job))
    ensures
      var c := Call(Scripted(Late(slots), true), ctx, job, req, s);
      || Reached(ctx, c.wire.now)
      || (&& c.outcome == (if job.maxRetries < 0 then Ok(Nil) else Usual(req))
          && |c.wire.log| == |s.log| + |LateSlots(job)|
          && c.wire.now == s.now + JobBudget(job))
  {
    if job.maxRetries >= 0 {
      forall k: nat | |s.log| <= k <= |s.log| + job.maxRetries
        ensures Late(slots)(k, req) == if k == |s.log| + job.maxRetries then Usual(req) else LOST
        ensures Usual(req).Ok?
      {
        PlacedAt(slots, |s.log|, LateSlots(job), k - |s.log|);
        LateAnswers(slots, k, req);
      }
      LateAttempts(Late(slots), ctx, job.timeout, job.maxRetries + 1, req, s);
    }
  }

  /** A pass in which every job is late: it lasts until the context is done, or else nothing
      halts it and it uses its whole budget. */
  lemma {:induction false} LatePass(x: Session, slots: seq<bool>, jobs: seq<Job>, s: State)
    requires x.world == Scripted(Late(slots), true)
    requires s.halted.None? && Placed(slots, |s.wire.log|, Slots(jobs))
    ensures
      var t := Drive(x, jobs, s);
      || Reached(x.ctx, t.wire.now)
      || (&& t.halted.None?
          && |t.wire.log| == |s.wire.log| + |Slots(jobs)|
          && t.wire.now == s.wire.now + Budget(jobs)
          && (CanScore(jobs) && jobs[|jobs| - 1].service == Model ==> t.vars.score.ScoreResponse?))
  {
    if jobs != [] {
      var init, last := jobs[..|jobs| - 1], jobs[|jobs| - 1];
      var mid := Drive(x, init, s);
      PlacedParts(slots, |s.wire.log|, Slots(init), LateSlots(last));
      LatePass(x, slots, init, s);
      LateStep(x, slots, last, mid);
    }
  }

  lemma {:induction false} LateStep(x: Session, slots: seq<bool>, job: Job, s: State)
    requires x.world == Scripted(Late(slots), true)
    requires Reached(x.ctx, s.wire.now) || (s.halted.None? && Placed(slots, |s.wire.log|, LateSlots(job)))
    ensures
      var t := Perform(x, job, s);
      || Reached(x.ctx, t.wire.now)
      || (&& t.halted.None?
          && |t.wire.log| == |s.wire.log| + |LateSlots(job)|
          && t.wire.now == s.wire.now + JobBudget(job)
          && (job.maxRetries >= 0 && job.service == Model ==> t.vars.score.ScoreResponse?))
  {
    if Reached(x.ctx, s.wire.now) {
      SlowIsPrompt(Late(slots));
      PerformTime(x, job, s);
    } else {
      LateCall(slots, x.ctx, job, RequestFor(x, job.service, s.vars), s.wire);
    }
  }

  /** Publishing happens only in plans whose last model node sends something. */
  function RunBudget(e: seq<Job>, m: seq<Job>, p: seq<Job>): nat {
    Budget(e) + Budget(m) + if CanScore(m) then Budget(p) else 0
  }

  /** What the context leaves of it to a run that starts at `now`. */
  function Allowed(ctx: Context, now: nat, budget: nat): nat {
    if ctx.Background? || now + budget <= ctx.at then budget
    else if now <= ctx.at then ctx.at - now
    else 0
  }

  /** The state on reaching the gate when every job before it is late. */
  lemma {:induction false} LateScored(x: Session, slots: seq<bool>, e: seq<Job>, m: seq<Job>, now: nat)
    requires x.world == Scripted(Late(slots), true)
    requires Placed(slots, 0, Slots(e) + Slots(m)) && forall job :: job in m ==> job.service == Model
    ensures
      var s := Drive(x, m, Drive(x, e, Start(x, Wire([], now))));
      || Reached(x.ctx, s.wire.now)
      || (&& s.halted.None?
          && |s.wire.log| == |Slots(e) + Slots(m)|
          && s.wire.now == now + Budget(e) + Budget(m)
          && (CanScore(m) ==> s.vars.score.ScoreResponse?))
  {
    PlacedParts(slots, 0, Slots(e), Slots(m));
    var start := Start(x, Wire([], now));
    LatePass(x, slots, e, start);
    SlowIsPrompt(Late(slots));
    DriveTime(x, m, Drive(x, e, start));
    if !Reached(x.ctx, Drive(x, e, start).wire.now) {
      LatePass(x, slots, m, Drive(x, e, start));
    }
    assert m != [] ==> m[|m| - 1] in m;
  }

  lemma {:induction false} LatePublishing(x: Session, slots: seq<bool>, p: seq<Job>, scored: State)
    requires x.world == Scripted(Late(slots), true)
    requires scored.halted.None? && scored.vars.score.ScoreResponse?
    requires Placed(slots, |scored.wire.log|, Slots(p))
    ensures
      var s := Drive(x, p, Gate(scored));
      Reached(x.ctx, s.wire.now) || (AnswerOf(s).Success? && s.wire.now == scored.wire.now + Budget(p))
  {
    LatePass(x, slots, p, scored);
  }

  lemma {:induction false} LateJobs(x: Session, slots: seq<bool>, e: seq<Job>, m: seq<Job>, p: seq<Job>, now: nat)
    requires x.world == Scripted(Late(slots), true) && Staged(e, m, p)
    requires Placed(slots, 0, Slots(e) + Slots(m)) && Placed(slots, |Slots(e) + Slots(m)|, Slots(p))
    ensures
      var s := RunJobs(x, e, m, p, Wire([], now));
      || Reached(x.ctx, s.wire.now)
      || (s.wire.now == now + RunBudget(e, m, p) && (AnswerOf(s).Success? <==> CanScore(m)))
  {
    var scored := Drive(x, m, Drive(x, e, Start(x, Wire([], now))));
    LateScored(x, slots, e, m, now);
    SlowIsPrompt(Late(slots));
    DriveTime(x, p, Gate(scored));
    if !CanScore(m) {
      ScorelessRun(x, e, m, p, Wire([], now));
    } else if !Reached(x.ctx, scored.wire.now) {
      LatePublishing(x, slots, p, scored);
    }
  }

  /** In some prompt world a run takes exactly what its budget and its context allow, and, if
      no context is done by then, it answers whenever any run of the plan can. */
  lemma {:induction false} LateRun(base: Session, e: seq<Job>, m: seq<Job>, p: seq<Job>, now: nat)
      returns (x: Session)
    requires Staged(e, m, p)
    ensures x == base.(world := x.world) && Prompt(x.world)
    ensures
      var s := RunJobs(x, e, m, p, Wire([], now));
      && s.wire.now == now + Allowed(x.ctx, now, RunBudget(e, m, p))
      && (!Reached(x.ctx, s.wire.now) ==> (AnswerOf(s).Success? <==> CanScore(m)))
  {
    var slots := Slots(e) + Slots(m) + Slots(p);
    x := base.(world := Scripted(Late(slots), true));
    SlowIsPrompt(Late(slots));
    assert slots[0..|slots|] == slots;
    PlacedParts(slots, 0, Slots(e) + Slots(m), Slots(p));
    LateJobs(x, slots, e, m, p, now);
    PromptRunTime(x, e, m, p, Wire([], now));
  }

  lemma {:induction false} PromptRunTime(x: Session, e: seq<Job>, m: seq<Job>, p: seq<Job>, wire: Wire)
    requires Staged(e, m, p) && Prompt(x.world)
    ensures
      var end := RunJobs(x, e, m, p, wire).wire.now;
      wire.now <= end <= wire.now + RunBudget(e, m, p) && WithinContext(x.ctx, wire.now, end)
  {
    var start := Start(x, wire);
    var enriched := Drive(x, e, start);
    DriveTime(x, e, start);
    DriveTime(x, m, enriched);
    if CanScore(m) {
      DriveTime(x, p, Gate(Drive(x, m, enriched)));
    } else {
      ScorelessRun(x, e, m, p, wire);
    }
  }

  /** Every run for the tenant ends within `limit`, if the callees keep their deadlines. */
  ghost predicate EndsWithin(tenantId: string, e: seq<Job>, m: seq<Job>, p: seq<Job>, limit: nat) {
    forall x: Session, wire: Wire :: x.tenantId == tenantId && Prompt(x.world) ==>
      RunJobs(x, e, m, p, wire).wire.now <= wire.now + limit
  }

  /** So does every run that starts at `now` under `ctx`. */
  ghost predicate EndsUnder(ctx: Context, now: nat, tenantId: string, e: seq<Job>, m: seq<Job>, p: seq<Job>,
                            limit: nat)
  {
    forall x: Session, wire: Wire :: x.tenantId == tenantId && x.ctx == ctx && wire.now == now && Prompt(x.world) ==>
      RunJobs(x, e, m, p, wire).wire.now <= now + limit
  }

  lemma {:induction false} JobsEndUnderExactly(ctx: Context, now: nat, tenantId: string,
                                               e: seq<Job>, m: seq<Job>, p: seq<Job>, limit: nat)
    requires Staged(e, m, p)
    ensures EndsUnder(ctx, now, tenantId, e, m, p, limit) <==> Allowed(ctx, now, RunBudget(e, m, p)) <= limit
  {
    if Allowed(ctx, now, RunBudget(e, m, p)) <= limit {
      forall x: Session, wire: Wire | x.ctx == ctx && wire.now == now && Prompt(x.world)
        ensures RunJobs(x, e, m, p, wire).wire.now <= now + limit
      {
        PromptRunTime(x, e, m, p, wire);
      }
    } else {
      var x := LateRun(Sample(tenantId).(ctx := ctx), e, m, p, now);
      assert RunJobs(x, e, m, p, Wire([], now)).wire.now > now + limit;
    }
  }

  lemma {:induction false} JobsEndWithinExactly(tenantId: string, e: seq<Job>, m: seq<Job>, p: seq<Job>, limit: nat)
    requires Staged(e, m, p)
    ensures EndsWithin(tenantId, e, m, p, limit) <==> RunBudget(e, m, p) <= limit
  {
    if RunBudget(e, m, p) <= limit {
      forall x: Session, wire: Wire | x.tenantId == tenantId && Prompt(x.world)
        ensures RunJobs(x, e, m, p, wire).wire.now <= wire.now + limit
      {
        PromptRunTime(x, e, m, p, wire);
      }
    } else {
      var x := LateRun(Sample(tenantId), e, m, p, 0);
      assert RunJobs(x, e, m, p, Wire([], 0)).wire.now > limit;
    }
  }

  /** The runs of a configuration end within a limit exactly when the attempts and backoffs
      of its enabled nodes fit in it. The configuration's own timeout plays no part but as
      the default of its nodes. */
  lemma {:induction false} RunsEndWithinExactly(cfg: Config, tenantId: string, limit: nat)
    ensures
      var jobs := (stage: Stage) => Jobs(stage, cfg.timeoutMs, tenantId, cfg.nodes);
      EndsWithin(tenantId, jobs(Enrichment), jobs(Scoring), jobs(Publishing), limit) <==>
      RunBudget(jobs(Enrichment), jobs(Scoring), jobs(Publishing)) <= limit
  {
    TenantIsStaged(cfg, tenantId);
    JobsEndWithinExactly(tenantId,
      Jobs(Enrichment, cfg.timeoutMs, tenantId, cfg.nodes),
      Jobs(Scoring, cfg.timeoutMs, tenantId, cfg.nodes),
      Jobs(Publishing, cfg.timeoutMs, tenantId, cfg.nodes), limit);
  }

  /** The same for one context and one starting instant: whichever is less of that sum and
      the time left to the context is reached, and never exceeded. */
  lemma {:induction false} RunsEndUnderExactly(ctx: Context, now: nat, cfg: Config, tenantId: string, limit: nat)
    ensures
      var jobs := (stage: Stage) => Jobs(stage, cfg.timeoutMs, tenantId, cfg.nodes);
      EndsUnder(ctx, now, tenantId, jobs(Enrichment), jobs(Scoring), jobs(Publishing), limit) <==>
      Allowed(ctx, now, RunBudget(jobs(Enrichment), jobs(Scoring), jobs(Publishing))) <= limit
  {
    TenantIsStaged(cfg, tenantId);
    JobsEndUnderExactly(ctx, now, tenantId,
      Jobs(Enrichment, cfg.timeoutMs, tenantId, cfg.nodes),
      Jobs(Scoring, cfg.timeoutMs, tenantId, cfg.nodes),
      Jobs(Publishing, cfg.timeoutMs, tenantId, cfg.nodes), limit);
  }

  /** With its 250 ms, the shipped configuration has a successful run of 480 ms. */
  lemma {:induction false} ShippedOverrunsItsTimeout(base: Session) returns (x: Session)
    ensures x == base.(ctx := Background, world := x.world) && Prompt(x.world)
    ensures
      var s := RunConfig(x, SHIPPED, Wire([], 0));
      && AnswerOf(s).Success?
      && s.wire.now == 480_000_000 > SHIPPED.timeoutMs as int * 1_000_000
  {
    ConfigIsStaged(base, SHIPPED);
    ShippedJobs(base);
    ShippedBudget();
    x := LateRun(base.(ctx := Background), JobsIn(Enrichment, base, SHIPPED), JobsIn(Scoring, base, SHIPPED),
                 JobsIn(Publishing, base, SHIPPED), 0);
  }
}
