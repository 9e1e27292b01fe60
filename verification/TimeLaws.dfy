/** How long a run can take when every callee answers by its deadline. */
module TimeLaws {
  import opened DagConfig
  import opened Downstream
  import opened Plan
  import opened Resilience
  import opened Runs
  import opened Shipped

  /** Every callee answers by the time its context is done, at once if it already is. */
  ghost predicate Prompt(w: World) {
    forall log, req, start: nat, doneBy: nat ::
      w.answer(log, req, start, doneBy).took <= if start < doneBy then doneBy - start else 0
  }

  /** The most one job can take: its attempts and the backoffs between them. */
  function JobBudget(job: Job): nat {
    if job.maxRetries < 0 then 0
    else (job.maxRetries + 1) * job.timeout + job.maxRetries * RETRY_BACKOFF
  }

  function Budget(jobs: seq<Job>): nat {
    if jobs == [] then 0
    else Budget(jobs[..|jobs| - 1]) + JobBudget(jobs[|jobs| - 1])
  }

  /** The clock never passes `now` or the instant the context is done, whichever is later. */
  predicate WithinContext(ctx: Context, now: nat, later: nat) {
    ctx.DoneAt? ==> later <= if now <= ctx.at then ctx.at else now
  }

  lemma {:induction false} AttemptTime(w: World, ctx: Context, timeout: nat, req: Request, s: Wire)
    requires Prompt(w)
    ensures
      var c := Attempt(w, ctx, timeout, req, s);
      s.now <= c.wire.now <= s.now + timeout && WithinContext(ctx, s.now, c.wire.now)
  {
    var doneBy := DoneBy(ctx, s.now, timeout);
    assert w.answer(s.log, req, s.now, doneBy).took <= if s.now < doneBy then doneBy - s.now else 0;
  }

  lemma {:induction false} AttemptsTime(w: World, ctx: Context, timeout: nat, left: nat, req: Request, s: Wire)
    requires Prompt(w) && left >= 1
    ensures
      var end := Attempts(w, ctx, timeout, left, req, s).wire.now;
      s.now <= end <= s.now + left * timeout + (left - 1) * RETRY_BACKOFF
    decreases left
  {
    AttemptTime(w, ctx, timeout, req, s);
    var first := Attempt(w, ctx, timeout, req, s);
    assert left * timeout == timeout + (left - 1) * timeout;
    assert (left - 1) * timeout >= 0;
    if first.outcome.Err? && left > 1 && !CutShort(w, ctx, first.wire) {
      AttemptsTime(w, ctx, timeout, left - 1, req, Rested(first.wire));
    }
  }

  lemma {:induction false} AttemptsWithinContext(w: World, ctx: Context, timeout: nat, left: nat, req: Request, s: Wire)
    requires Prompt(w) && left >= 1
    ensures WithinContext(ctx, s.now, Attempts(w, ctx, timeout, left, req, s).wire.now)
    decreases left
  {
    AttemptTime(w, ctx, timeout, req, s);
    var first := Attempt(w, ctx, timeout, req, s);
    if first.outcome.Err? && left > 1 && !CutShort(w, ctx, first.wire) {
      AttemptsWithinContext(w, ctx, timeout, left - 1, req, Rested(first.wire));
    }
  }

  lemma {:induction false} PerformTime(x: Session, job: Job, s: State)
    requires Prompt(x.world)
    ensures
      var t := Perform(x, job, s);
      && s.wire.now <= t.wire.now <= s.wire.now + JobBudget(job)
      && WithinContext(x.ctx, s.wire.now, t.wire.now)
  {
    if s.halted.None? && job.maxRetries >= 0 {
      var req := RequestFor(x, job.service, s.vars);
      AttemptsTime(x.world, x.ctx, job.timeout, job.maxRetries + 1, req, s.wire);
      AttemptsWithinContext(x.world, x.ctx, job.timeout, job.maxRetries + 1, req, s.wire);
    }
  }

  lemma {:induction false} DriveTime(x: Session, jobs: seq<Job>, s: State)
    requires Prompt(x.world)
    ensures
      var t := Drive(x, jobs, s);
      && s.wire.now <= t.wire.now <= s.wire.now + Budget(jobs)
      && WithinContext(x.ctx, s.wire.now, t.wire.now)
  {
    if jobs != [] {
      var init := jobs[..|jobs| - 1];
      DriveTime(x, init, s);
      PerformTime(x, jobs[|jobs| - 1], Drive(x, init, s));
    }
  }

  /** A whole run takes at most the sum over the dispatched nodes of (maxRetries + 1)
      timeouts and maxRetries backoffs, and a context done in the future bounds it too. */
  lemma {:induction false} RunTime(x: Session, cfg: Config, wire: Wire)
    requires Prompt(x.world)
    ensures
      var s := RunConfig(x, cfg, wire);
      && s.wire.now <= wire.now + Budget(JobsIn(Enrichment, x, cfg))
                     + Budget(JobsIn(Scoring, x, cfg)) + Budget(JobsIn(Publishing, x, cfg))
      && (x.ctx.DoneAt? && wire.now <= x.ctx.at ==> s.wire.now <= x.ctx.at)
  {
    var e, m, p := JobsIn(Enrichment, x, cfg), JobsIn(Scoring, x, cfg), JobsIn(Publishing, x, cfg);
    var start := Start(x, wire);
    var enriched := Drive(x, e, start);
    DriveTime(x, e, start);
    DriveTime(x, m, enriched);
    DriveTime(x, p, Gate(Drive(x, m, enriched)));
  }

  /** The bound is sharp: a callee that always fails at its deadline, in a context that is
      never done, makes a tolerant job take exactly its budget. */
  lemma {:induction false} BudgetIsSharp(w: World, timeout: nat, left: nat, req: Request, s: Wire, error: Error)
    requires left >= 1
    requires forall log, start: nat, doneBy: nat :: start <= doneBy ==>
               w.answer(log, req, start, doneBy) == Reply(Err(error), doneBy - start)
    ensures Attempts(w, Background, timeout, left, req, s).wire.now ==
            s.now + left * timeout + (left - 1) * RETRY_BACKOFF
    decreases left
  {
    var first := Attempt(w, Background, timeout, req, s);
    assert w.answer(s.log, req, s.now, s.now + timeout) == Reply(Err(error), timeout);
    assert left * timeout == timeout + (left - 1) * timeout;
    if left > 1 {
      BudgetIsSharp(w, timeout, left - 1, req, Rested(first.wire), error);
    }
  }

  /** The shipped configuration answers, or fails, within 480 ms. */
  lemma {:induction false} ShippedRunTime(x: Session, wire: Wire)
    requires Prompt(x.world)
    ensures RunConfig(x, SHIPPED, wire).wire.now <= wire.now + 480_000_000
  {
    RunTime(x, SHIPPED, wire);
    ShippedJobs(x);
    ShippedBudget();
  }

  lemma {:induction false} ShippedBudget()
    ensures Budget([Job(Hasher, 40_000_000, 1, false), Job(Normalizer, 40_000_000, 1, true),
                    Job(PolicyLookup, 40_000_000, 1, true)]) == 300_000_000
    ensures Budget([Job(Model, 80_000_000, 0, false)]) == 80_000_000
    ensures Budget([Job(Publisher, 100_000_000, 0, true)]) == 100_000_000
  {
    var h, n := Job(Hasher, 40_000_000, 1, false), Job(Normalizer, 40_000_000, 1, true);
    var l := Job(PolicyLookup, 40_000_000, 1, true);
    assert JobBudget(h) == JobBudget(n) == JobBudget(l) == 100_000_000;
    assert [h, n, l][..2] == [h, n] && [h, n][..1] == [h] && [h][..0] == [];
    assert Budget([h]) == 100_000_000;
    assert Budget([h, n]) == 200_000_000;
  }
}
