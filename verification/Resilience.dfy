/** One downstream call under its retry policy, as a function of the world. */
module Resilience {
  import opened Downstream
  import opened Plan

  datatype Called = Called(outcome: Outcome, wire: Wire)

  /** When a context derived at `start` with `timeout` is done. */
  function DoneBy(ctx: Context, start: nat, timeout: nat): nat {
    if ctx.DoneAt? && ctx.at < start + timeout then ctx.at else start + timeout
  }

  function Attempt(w: World, ctx: Context, timeout: nat, req: Request, s: Wire): Called {
    var doneBy := DoneBy(ctx, s.now, timeout);
    var reply := w.answer(s.log, req, s.now, doneBy);
    var end := s.now + reply.took;
    Called(reply.outcome, Wire(s.log + [Exchange(req, s.now, doneBy, reply.outcome, end)], end))
  }

  /** Whether the wait after a failed attempt ends with the context and not the timer. */
  predicate CutShort(w: World, ctx: Context, s: Wire) {
    ctx.DoneAt? &&
    (ctx.at < s.now + RETRY_BACKOFF ||
     (ctx.at == s.now + RETRY_BACKOFF && !w.timerWins(s.log, s.now)))
  }

  function Rested(s: Wire): Wire { s.(now := s.now + RETRY_BACKOFF) }

  function Interrupted(ctx: Context, s: Wire): Wire
    requires ctx.DoneAt?
  {
    if ctx.at <= s.now then s else s.(now := ctx.at)
  }

  /** At most `left` attempts with a backoff between them. */
  function Attempts(w: World, ctx: Context, timeout: nat, left: nat, req: Request, s: Wire): Called
    requires left >= 1
  {
    var first := Attempt(w, ctx, timeout, req, s);
    if first.outcome.Ok? || left == 1 then first
    else if CutShort(w, ctx, first.wire) then Called(Err(ctx.cause), Interrupted(ctx, first.wire))
    else Attempts(w, ctx, timeout, left - 1, req, Rested(first.wire))
  }

  /** The whole call. A negative `maxRetries` makes no attempt and reports success with the
      zero response. */
  function Call(w: World, ctx: Context, job: Job, req: Request, s: Wire): Called {
    if job.maxRetries < 0 then Called(Ok(Nil), s)
    else Attempts(w, ctx, job.timeout, job.maxRetries + 1, req, s)
  }

  /** The wire before attempt `k` if every attempt is made, whatever comes back. */
  function BeforeAttempt(w: World, ctx: Context, timeout: nat, req: Request, s: Wire, k: nat): Wire
    decreases k
  {
    if k == 0 then s
    else BeforeAttempt(w, ctx, timeout, req, Rested(Attempt(w, ctx, timeout, req, s).wire), k - 1)
  }

  /** The result of attempt `k` if every attempt is made. */
  function Nth(w: World, ctx: Context, timeout: nat, req: Request, s: Wire, k: nat): Called {
    Attempt(w, ctx, timeout, req, BeforeAttempt(w, ctx, timeout, req, s, k))
  }

  /** `n` attempts were made, all but the last failing with a full backoff after them. */
  ghost predicate GaveUpOnlyAfter(w: World, ctx: Context, timeout: nat, req: Request, s: Wire, n: nat) {
    forall k: nat :: k + 1 < n ==>
      && Nth(w, ctx, timeout, req, s, k).outcome.Err?
      && !CutShort(w, ctx, Nth(w, ctx, timeout, req, s, k).wire)
  }

  /** A call of a job with `left` attempts is decided by attempt `n`: the first success, or
      the last one allowed, or the first whose backoff the context cuts short. */
  ghost predicate DecidedAt(w: World, ctx: Context, timeout: nat, left: nat, req: Request, s: Wire, n: nat, c: Called) {
    && 1 <= n <= left
    && |c.wire.log| == |s.log| + n
    && GaveUpOnlyAfter(w, ctx, timeout, req, s, n)
    && var last := Nth(w, ctx, timeout, req, s, n - 1);
       if last.outcome.Ok? || n == left then c == last
       else CutShort(w, ctx, last.wire) && c == Called(Err(ctx.cause), Interrupted(ctx, last.wire))
  }

  lemma {:induction false} AttemptsDecided(w: World, ctx: Context, timeout: nat, left: nat, req: Request, s: Wire)
      returns (n: nat)
    requires left >= 1
    ensures DecidedAt(w, ctx, timeout, left, req, s, n, Attempts(w, ctx, timeout, left, req, s))
    decreases left
  {
    var first := Attempt(w, ctx, timeout, req, s);
    assert first == Nth(w, ctx, timeout, req, s, 0);
    if first.outcome.Ok? || left == 1 || CutShort(w, ctx, first.wire) {
      n := 1;
    } else {
      var rested := Rested(first.wire);
      var m := AttemptsDecided(w, ctx, timeout, left - 1, req, rested);
      n := m + 1;
      assert forall k: nat :: Nth(w, ctx, timeout, req, rested, k) == Nth(w, ctx, timeout, req, s, k + 1);
      forall k: nat | k + 1 < n
        ensures Nth(w, ctx, timeout, req, s, k).outcome.Err?
        ensures !CutShort(w, ctx, Nth(w, ctx, timeout, req, s, k).wire)
      {
        if k > 0 {
          assert Nth(w, ctx, timeout, req, s, k) == Nth(w, ctx, timeout, req, rested, k - 1);
        }
      }
    }
  }

  /** The backoff of 20 ms after `s` ends before the context does, or the world lets it win. */
  predicate TimerFirst(w: World, ctx: Context, s: Wire) {
    ctx.DoneAt? ==>
      s.now + 20_000_000 < ctx.at || (s.now + 20_000_000 == ctx.at && w.timerWins(s.log, s.now))
  }

  /** The first `n` attempts fail, and the context outlasts the backoff after each of them. */
  ghost predicate FailedBefore(w: World, ctx: Context, timeout: nat, req: Request, s: Wire, n: nat) {
    forall k: nat :: k < n ==>
      && Nth(w, ctx, timeout, req, s, k).outcome.Err?
      && TimerFirst(w, ctx, Nth(w, ctx, timeout, req, s, k).wire)
  }

  /** The retry loop is "first success": while the context outlasts the backoffs, the call ends
      with the first success among the first `maxRetries + 1` outcomes, after exactly that
      many attempts, and otherwise with the last of them. */
  lemma {:induction false} RetryIsFirstSuccess(w: World, ctx: Context, job: Job, req: Request, s: Wire, n: nat)
    requires n <= job.maxRetries
    requires FailedBefore(w, ctx, job.timeout, req, s, n)
    requires Nth(w, ctx, job.timeout, req, s, n).outcome.Ok? || n == job.maxRetries
    ensures Call(w, ctx, job, req, s) == Nth(w, ctx, job.timeout, req, s, n)
    ensures |Call(w, ctx, job, req, s).wire.log| == |s.log| + n + 1
  {
    var m := AttemptsDecided(w, ctx, job.timeout, job.maxRetries + 1, req, s);
    DecidedNoEarlier(w, ctx, job.timeout, job.maxRetries + 1, req, s, n, m, Call(w, ctx, job, req, s));
  }

  lemma {:induction false} DecidedNoEarlier(w: World, ctx: Context, timeout: nat, left: nat, req: Request, s: Wire,
                                            n: nat, m: nat, c: Called)
    requires n < left && FailedBefore(w, ctx, timeout, req, s, n)
    requires DecidedAt(w, ctx, timeout, left, req, s, m, c)
    ensures m > n
  {
    var last: nat := m - 1;
    assert last < n ==> Nth(w, ctx, timeout, req, s, last).outcome.Err?;
  }

  /** If attempt `n` fails with retries left and the context does not outlast the backoff
      after it, no further attempt is made and the context's error is returned. */
  lemma {:induction false} CancellationStopsRetrying(w: World, ctx: Context, job: Job, req: Request, s: Wire, n: nat)
    requires n < job.maxRetries && FailedBefore(w, ctx, job.timeout, req, s, n)
    requires Nth(w, ctx, job.timeout, req, s, n).outcome.Err?
    requires !TimerFirst(w, ctx, Nth(w, ctx, job.timeout, req, s, n).wire)
    ensures
      var c := Call(w, ctx, job, req, s);
      && ctx.DoneAt? && c.outcome == Err(ctx.cause)
      && c.wire.log == Nth(w, ctx, job.timeout, req, s, n).wire.log
      && |c.wire.log| == |s.log| + n + 1
  {
    var m := AttemptsDecided(w, ctx, job.timeout, job.maxRetries + 1, req, s);
    DecidedNoEarlier(w, ctx, job.timeout, job.maxRetries + 1, req, s, n, m, Call(w, ctx, job, req, s));
  }

  /** The exchanges of one call: every one carries the request, all but the last failed, the
      first goes out at `start`, each other one backoff after the failure before it. */
  ghost predicate Block(log: seq<Exchange>, from: nat, to: nat, req: Request, start: nat, end: nat) {
    && from <= to <= |log|
    && start <= end
    && (forall i :: from <= i < to ==> log[i].req == req && start <= log[i].start <= log[i].end <= end)
    && (forall i :: from <= i < to - 1 ==> log[i].outcome.Err? && log[i].end + RETRY_BACKOFF == log[i + 1].start)
    && (from < to ==> log[from].start == start)
  }

  /** Every attempt ran under the node's timeout, cut short by the caller's context. */
  ghost predicate Bounded(ctx: Context, timeout: nat, log: seq<Exchange>, from: nat, to: nat)
    requires from <= to <= |log|
  {
    forall i :: from <= i < to ==>
      && log[i].doneBy <= log[i].start + timeout
      && (ctx.DoneAt? ==> log[i].doneBy <= ctx.at)
      && (log[i].doneBy == log[i].start + timeout || (ctx.DoneAt? && log[i].doneBy == ctx.at))
  }

  /** The result of a call against its block: the last outcome, unless the context cut the
      retries short; an empty block only for a negative `maxRetries`. */
  ghost predicate Concluded(ctx: Context, job: Job, log: seq<Exchange>, from: nat, to: nat, o: Outcome)
    requires from <= to <= |log|
  {
    if job.maxRetries < 0 then from == to && o == Ok(Nil)
    else
      && from + 1 <= to <= from + job.maxRetries + 1
      && (to <= from + job.maxRetries && log[to - 1].outcome.Err? ==> ctx.DoneAt? && o == Err(ctx.cause))
      && (to == from + job.maxRetries + 1 || log[to - 1].outcome.Ok? ==> o == log[to - 1].outcome)
  }

  /** A failed attempt in front of a block makes a longer block. */
  lemma {:induction false} BlockGrows(log: seq<Exchange>, from: nat, to: nat, req: Request, start: nat, rested: nat,
                                      end: nat)
    requires from < to && Block(log, from + 1, to, req, rested, end)
    requires log[from].req == req && log[from].outcome.Err?
    requires start == log[from].start <= log[from].end
    requires rested == log[from].end + RETRY_BACKOFF
    ensures Block(log, from, to, req, start, end)
  {
  }

  lemma {:induction false} AttemptsExtend(w: World, ctx: Context, timeout: nat, left: nat, req: Request, s: Wire)
    requires left >= 1
    ensures
      var c := Attempts(w, ctx, timeout, left, req, s);
      Attempt(w, ctx, timeout, req, s).wire.log <= c.wire.log
    decreases left
  {
    var first := Attempt(w, ctx, timeout, req, s);
    if first.outcome.Err? && left > 1 && !CutShort(w, ctx, first.wire) {
      AttemptsExtend(w, ctx, timeout, left - 1, req, Rested(first.wire));
    }
  }

  /** A failed attempt and the block of the attempts after it. */
  lemma {:induction false} AttemptThenBlock(w: World, ctx: Context, timeout: nat, req: Request, s: Wire, after: Wire)
    requires
      var first := Attempt(w, ctx, timeout, req, s);
      && first.outcome.Err? && first.wire.log <= after.log && |first.wire.log| < |after.log|
      && Block(after.log, |s.log| + 1, |after.log|, req, Rested(first.wire).now, after.now)
    ensures s.log <= after.log && Block(after.log, |s.log|, |after.log|, req, s.now, after.now)
  {
    var first := Attempt(w, ctx, timeout, req, s);
    assert after.log[|s.log|] == first.wire.log[|s.log|];
    BlockGrows(after.log, |s.log|, |after.log|, req, s.now, Rested(first.wire).now, after.now);
  }

  lemma {:induction false} AttemptsBlock(w: World, ctx: Context, timeout: nat, left: nat, req: Request, s: Wire)
    requires left >= 1
    ensures
      var c := Attempts(w, ctx, timeout, left, req, s);
      && s.log <= c.wire.log
      && |s.log| < |c.wire.log|
      && Block(c.wire.log, |s.log|, |c.wire.log|, req, s.now, c.wire.now)
    decreases left
  {
    var first := Attempt(w, ctx, timeout, req, s);
    if first.outcome.Err? && left > 1 && !CutShort(w, ctx, first.wire) {
      AttemptsBlock(w, ctx, timeout, left - 1, req, Rested(first.wire));
      AttemptsExtend(w, ctx, timeout, left, req, s);
      AttemptThenBlock(w, ctx, timeout, req, s, Attempts(w, ctx, timeout, left, req, s).wire);
    }
  }

  lemma {:induction false} AttemptsConclude(w: World, ctx: Context, timeout: nat, left: nat, req: Request, s: Wire)
    requires left >= 1
    ensures
      var c := Attempts(w, ctx, timeout, left, req, s);
      && |s.log| < |c.wire.log|
      && Concluded(ctx, Job(req.Callee(), timeout, left - 1, false), c.wire.log, |s.log|, |c.wire.log|, c.outcome)
    decreases left
  {
    var first := Attempt(w, ctx, timeout, req, s);
    if first.outcome.Err? && left > 1 && !CutShort(w, ctx, first.wire) {
      AttemptsConclude(w, ctx, timeout, left - 1, req, Rested(first.wire));
    }
  }

  lemma {:induction false} AttemptsBounded(w: World, ctx: Context, timeout: nat, left: nat, req: Request, s: Wire)
    requires left >= 1
    ensures
      var c := Attempts(w, ctx, timeout, left, req, s);
      && s.log <= c.wire.log
      && Bounded(ctx, timeout, c.wire.log, |s.log|, |c.wire.log|)
    decreases left
  {
    var first := Attempt(w, ctx, timeout, req, s);
    if first.outcome.Err? && left > 1 && !CutShort(w, ctx, first.wire) {
      AttemptsBounded(w, ctx, timeout, left - 1, req, Rested(first.wire));
      assert Attempts(w, ctx, timeout, left - 1, req, Rested(first.wire)).wire.log[|s.log|] == first.wire.log[|s.log|];
    }
  }

  lemma {:induction false} CallBlock(w: World, ctx: Context, job: Job, req: Request, s: Wire)
    ensures
      var c := Call(w, ctx, job, req, s);
      && s.log <= c.wire.log
      && Block(c.wire.log, |s.log|, |c.wire.log|, req, s.now, c.wire.now)
      && Concluded(ctx, job, c.wire.log, |s.log|, |c.wire.log|, c.outcome)
      && Bounded(ctx, job.timeout, c.wire.log, |s.log|, |c.wire.log|)
  {
    if job.maxRetries >= 0 {
      AttemptsBounded(w, ctx, job.timeout, job.maxRetries + 1, req, s);
      AttemptsBlock(w, ctx, job.timeout, job.maxRetries + 1, req, s);
      AttemptsConclude(w, ctx, job.timeout, job.maxRetries + 1, req, s);
    }
  }
}
