/** The claimant's name reaches the hashing service and nothing else. */
module NameIndependence {
  import opened DagConfig
  import opened Downstream
  import opened Plan
  import opened Resilience
  import opened Runs

  /** The request as an observer of every other service sees it. */
  function Redact(req: Request): Request {
    if req.HashRequest? then req.(claimantName := "") else req
  }

  function RedactLog(log: seq<Exchange>): (r: seq<Exchange>)
    ensures |r| == |log|
  {
    seq(|log|, i requires 0 <= i < |log| => log[i].(req := Redact(log[i].req)))
  }

  predicate Names(req: Request, name: string) {
    req.HashRequest? ==> req.claimantName == name
  }

  /** Two runs that begin after the exchanges `base`, for claims with these two names. */
  datatype Twins = Twins(base: seq<Exchange>, v: World, w: World, name: string, other: string)

  /** Logs of the two runs that only the names tell apart. */
  ghost predicate AlikeLogs(t: Twins, a: seq<Exchange>, b: seq<Exchange>) {
    && t.base <= a && t.base <= b
    && RedactLog(a) == RedactLog(b)
    && (forall i :: |t.base| <= i < |a| ==> Names(a[i].req, t.name))
    && (forall i :: |t.base| <= i < |b| ==> Names(b[i].req, t.other))
  }

  ghost predicate AlikeRequests(t: Twins, req: Request, other: Request) {
    Redact(req) == Redact(other) && Names(req, t.name) && Names(other, t.other)
  }

  /** The first world answers the first name as the second world answers the second: the two
      runs meet the same outcomes, in the same time. Nothing is asked of other names. */
  ghost predicate SameOutcomes(t: Twins) {
    && (forall l, m, req, other, start: nat, doneBy: nat ::
          AlikeLogs(t, l, m) && AlikeRequests(t, req, other) ==>
            t.v.answer(l, req, start, doneBy) == t.w.answer(m, other, start, doneBy))
    && (forall l, m, now: nat :: AlikeLogs(t, l, m) ==> t.v.timerWins(l, now) == t.w.timerWins(m, now))
  }

  ghost predicate AlikeWires(t: Twins, a: Wire, b: Wire) {
    AlikeLogs(t, a.log, b.log) && a.now == b.now
  }

  ghost predicate AlikeCalls(t: Twins, a: Called, b: Called) {
    a.outcome == b.outcome && AlikeWires(t, a.wire, b.wire)
  }

  ghost predicate AlikeStates(t: Twins, a: State, b: State) {
    a.vars == b.vars && a.halted == b.halted && AlikeWires(t, a.wire, b.wire)
  }

  lemma {:induction false} RedactAppend(a: seq<Exchange>, b: seq<Exchange>, x: Exchange, y: Exchange)
    requires RedactLog(a) == RedactLog(b)
    requires x.(req := Redact(x.req)) == y.(req := Redact(y.req))
    ensures RedactLog(a + [x]) == RedactLog(b + [y])
  {
    assert RedactLog(a + [x]) == RedactLog(a) + [x.(req := Redact(x.req))];
    assert RedactLog(b + [y]) == RedactLog(b) + [y.(req := Redact(y.req))];
  }

  lemma {:induction false} AlikeAppend(t: Twins, a: seq<Exchange>, b: seq<Exchange>, x: Exchange, y: Exchange)
    requires AlikeLogs(t, a, b) && AlikeRequests(t, x.req, y.req) && x.(req := y.req) == y
    ensures AlikeLogs(t, a + [x], b + [y])
  {
    RedactAppend(a, b, x, y);
  }

  lemma {:induction false} AttemptAlike(t: Twins, ctx: Context, timeout: nat, req: Request, other: Request, a: Wire,
                                        b: Wire)
    requires SameOutcomes(t) && AlikeWires(t, a, b) && AlikeRequests(t, req, other)
    ensures AlikeCalls(t, Attempt(t.v, ctx, timeout, req, a), Attempt(t.w, ctx, timeout, other, b))
  {
    var c, d := Attempt(t.v, ctx, timeout, req, a), Attempt(t.w, ctx, timeout, other, b);
    var doneBy := DoneBy(ctx, a.now, timeout);
    assert t.v.answer(a.log, req, a.now, doneBy) == t.w.answer(b.log, other, b.now, doneBy);
    AlikeAppend(t, a.log, b.log, c.wire.log[|a.log|], d.wire.log[|b.log|]);
  }

  lemma {:induction false} AttemptsAlike(t: Twins, ctx: Context, timeout: nat, left: nat,
                                         req: Request, other: Request, a: Wire, b: Wire)
    requires SameOutcomes(t) && AlikeWires(t, a, b) && AlikeRequests(t, req, other) && left >= 1
    ensures AlikeCalls(t, Attempts(t.v, ctx, timeout, left, req, a), Attempts(t.w, ctx, timeout, left, other, b))
    decreases left
  {
    AttemptAlike(t, ctx, timeout, req, other, a, b);
    var c, d := Attempt(t.v, ctx, timeout, req, a), Attempt(t.w, ctx, timeout, other, b);
    assert CutShort(t.v, ctx, c.wire) == CutShort(t.w, ctx, d.wire);
    if c.outcome.Err? && left > 1 && !CutShort(t.v, ctx, c.wire) {
      AttemptsAlike(t, ctx, timeout, left - 1, req, other, Rested(c.wire), Rested(d.wire));
    }
  }

  lemma {:induction false} CallAlike(t: Twins, ctx: Context, job: Job, req: Request, other: Request, a: Wire, b: Wire)
    requires SameOutcomes(t) && AlikeWires(t, a, b) && AlikeRequests(t, req, other)
    ensures AlikeCalls(t, Call(t.v, ctx, job, req, a), Call(t.w, ctx, job, other, b))
  {
    if job.maxRetries >= 0 {
      AttemptsAlike(t, ctx, job.timeout, job.maxRetries + 1, req, other, a, b);
    }
  }

  /** Two sessions whose claims differ in the claimant's name only. */
  ghost predicate TwinSessions(t: Twins, x: Session, y: Session) {
    && x.world == t.v && x.claim.claimantName == t.name
    && y == x.(world := t.w, claim := x.claim.(claimantName := t.other))
  }

  lemma {:induction false} RequestsAlike(t: Twins, x: Session, y: Session, service: Service, v: Vars)
    requires TwinSessions(t, x, y)
    ensures AlikeRequests(t, RequestFor(x, service, v), RequestFor(y, service, v))
  {
  }

  lemma {:induction false} PerformAlike(t: Twins, x: Session, y: Session, job: Job, a: State, b: State)
    requires SameOutcomes(t) && TwinSessions(t, x, y) && AlikeStates(t, a, b)
    ensures AlikeStates(t, Perform(x, job, a), Perform(y, job, b))
  {
    if a.halted.None? {
      RequestsAlike(t, x, y, job.service, a.vars);
      CallAlike(t, x.ctx, job, RequestFor(x, job.service, a.vars), RequestFor(y, job.service, a.vars), a.wire, b.wire);
    }
  }

  lemma {:induction false} DriveAlike(t: Twins, x: Session, y: Session, jobs: seq<Job>, a: State, b: State)
    requires SameOutcomes(t) && TwinSessions(t, x, y) && AlikeStates(t, a, b)
    ensures AlikeStates(t, Drive(x, jobs, a), Drive(y, jobs, b))
  {
    if jobs != [] {
      var init := jobs[..|jobs| - 1];
      DriveAlike(t, x, y, init, a, b);
      PerformAlike(t, x, y, jobs[|jobs| - 1], Drive(x, init, a), Drive(y, init, b));
    }
  }

  lemma {:induction false} ExchangesAlike(a: seq<Exchange>, b: seq<Exchange>)
    requires RedactLog(a) == RedactLog(b)
    ensures |a| == |b|
    ensures forall i :: 0 <= i < |a| ==>
              if a[i].req.HashRequest?
              then b[i].req.HashRequest?
                   && b[i] == a[i].(req := HashRequest(a[i].req.correlationId, b[i].req.claimantName))
              else b[i] == a[i]
  {
    assert |a| == |RedactLog(a)| == |RedactLog(b)| == |b|;
    forall i | 0 <= i < |a|
      ensures
        if a[i].req.HashRequest?
        then b[i].req.HashRequest?
             && b[i] == a[i].(req := HashRequest(a[i].req.correlationId, b[i].req.claimantName))
        else b[i] == a[i]
    {
      assert RedactLog(a)[i] == RedactLog(b)[i];
    }
  }

  lemma {:induction false} JobsAlike(t: Twins, x: Session, y: Session, e: seq<Job>, m: seq<Job>, p: seq<Job>,
                                     wire: Wire)
    requires SameOutcomes(t) && TwinSessions(t, x, y) && t.base == wire.log
    ensures AlikeStates(t, RunJobs(x, e, m, p, wire), RunJobs(y, e, m, p, wire))
  {
    var a, b := Drive(x, e, Start(x, wire)), Drive(y, e, Start(y, wire));
    DriveAlike(t, x, y, e, Start(x, wire), Start(y, wire));
    DriveAlike(t, x, y, m, a, b);
    DriveAlike(t, x, y, p, Gate(Drive(x, m, a)), Gate(Drive(y, m, b)));
  }

  /** Two claims that differ in the claimant's name, met with the same outcomes, are
      indistinguishable: the answers are equal, and so is every exchange, payload and time
      included, up to the name on the hashing calls. */
  lemma {:induction false} NameReachesOnlyTheHasher(t: Twins, x: Session, y: Session, cfg: Config, wire: Wire)
    requires SameOutcomes(t) && TwinSessions(t, x, y) && t.base == wire.log
    ensures
      var a, b := RunConfig(x, cfg, wire), RunConfig(y, cfg, wire);
      && AnswerOf(a) == AnswerOf(b)
      && |a.wire.log| == |b.wire.log|
      && (forall i :: 0 <= i < |a.wire.log| ==>
            if a.wire.log[i].req.HashRequest?
            then b.wire.log[i].req.HashRequest?
                 && b.wire.log[i] == a.wire.log[i].(req := HashRequest(a.wire.log[i].req.correlationId,
                                                                       b.wire.log[i].req.claimantName))
            else b.wire.log[i] == a.wire.log[i])
  {
    JobsAlike(t, x, y, JobsIn(Enrichment, x, cfg), JobsIn(Scoring, x, cfg), JobsIn(Publishing, x, cfg), wire);
    ExchangesAlike(RunConfig(x, cfg, wire).wire.log, RunConfig(y, cfg, wire).wire.log);
  }

  /** The name a request carries, if any. */
  function NameOn(req: Request): string { if req.HashRequest? then req.claimantName else "" }

  /** Any world that sees a claimant's name only in the request at hand: its answer depends in
      any way on that name, and otherwise on what an observer of the other services sees. */
  function Personal(answer: (string, seq<Exchange>, Request, nat, nat) -> Reply, wins: (seq<Exchange>, nat) -> bool)
    : World
  {
    World(
      (log: seq<Exchange>, req: Request, start: nat, doneBy: nat) =>
        answer(NameOn(req), RedactLog(log), Redact(req), start, doneBy),
      (log: seq<Exchange>, now: nat) => wins(RedactLog(log), now))
  }

  /** The hypothesis leaves such a world free to answer any third name differently: it holds
      as soon as the two names at hand get the same answers. */
  lemma {:induction false} OtherNamesAreFree(base: seq<Exchange>,
                                             answer: (string, seq<Exchange>, Request, nat, nat) -> Reply,
                                             wins: (seq<Exchange>, nat) -> bool, name: string, other: string)
    requires forall log, req, start: nat, doneBy: nat ::
               answer(name, log, req, start, doneBy) == answer(other, log, req, start, doneBy)
    ensures SameOutcomes(Twins(base, Personal(answer, wins), Personal(answer, wins), name, other))
  {
    var w := Personal(answer, wins);
    var t := Twins(base, w, w, name, other);
    forall l, m, req, second, start: nat, doneBy: nat | AlikeLogs(t, l, m) && AlikeRequests(t, req, second)
      ensures t.v.answer(l, req, start, doneBy) == t.w.answer(m, second, start, doneBy)
    {
      var log, seen := RedactLog(l), Redact(req);
      assert RedactLog(m) == log && Redact(second) == seen;
      assert answer(name, log, seen, start, doneBy) == answer(other, log, seen, start, doneBy);
      assert seen.HashRequest? == req.HashRequest? == second.HashRequest?;
      assert t.v.answer(l, req, start, doneBy) == answer(NameOn(req), log, seen, start, doneBy);
      assert t.w.answer(m, second, start, doneBy) == answer(NameOn(second), log, seen, start, doneBy);
    }
  }
}
