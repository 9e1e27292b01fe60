/** The published events against the answer of the run. */
module EventLaws {
  import opened Downstream
  import opened Plan
  import opened Runs
  import opened Ledger
  import opened TraceLaws
  import opened Shipped
  import opened Scripts

  ghost predicate NoPublishFailed(visits: seq<Visit>) {
    forall k :: 0 <= k < |visits| && visits[k].job.service == Publisher ==> visits[k].outcome.Ok?
  }

  lemma {:induction false} StatusIsMonotone(visits: seq<Visit>, j: nat, k: nat)
    requires j <= k <= |visits|
    ensures StatusOf(visits[..j]) == DEGRADED ==> StatusOf(visits[..k]) == DEGRADED
  {
    if StatusOf(visits[..j]) == DEGRADED {
      var i :| 0 <= i < j && visits[..j][i].outcome.Err? && visits[..j][i].job.service != Model;
      assert visits[..k][i] == visits[..j][i];
    }
  }

  /** Without a failed publish, the status has its final value when publishing starts. */
  lemma {:induction false} StatusSettles(visits: seq<Visit>, k: nat)
    requires k <= |visits| && NoPublishFailed(visits)
    requires forall i :: k <= i < |visits| ==> visits[i].job.service == Publisher
    ensures StatusOf(visits[..k]) == StatusOf(visits)
  {
    assert visits[..|visits|] == visits;
    StatusIsMonotone(visits, k, |visits|);
    if AnySetback(visits) {
      var i :| 0 <= i < |visits| && visits[i].outcome.Err? && visits[i].job.service != Model;
      assert visits[..k][i] == visits[i];
    }
  }

  /** The jobs from the gate on are publishers, those before it are not. */
  lemma {:induction false} PublishersAfterGate(e: seq<Job>, m: seq<Job>, p: seq<Job>, k: nat)
    requires Staged(e, m, p) && k < |e + m + p|
    ensures (e + m + p)[k].service == Publisher <==> k >= |e + m|
  {
    assert forall i :: 0 <= i < |e| ==> e[i] in e;
    assert forall i :: 0 <= i < |m| ==> m[i] in m;
    assert forall i :: 0 <= i < |p| ==> p[i] in p;
    if k < |e| {
      assert (e + m + p)[k] == e[k];
    } else if k < |e + m| {
      assert (e + m + p)[k] == m[k - |e|];
    } else {
      assert (e + m + p)[k] == p[k - |e + m|];
    }
  }

  /** What the k-th visit publishes in a run that answers. */
  lemma {:induction false} PublishVisit(x: Session, e: seq<Job>, m: seq<Job>, p: seq<Job>, wire: Wire, k: nat)
    requires Staged(e, m, p)
    requires AnswerOf(RunJobs(x, e, m, p, wire)).Success?
    requires k < |RunJobs(x, e, m, p, wire).visits|
    requires RunJobs(x, e, m, p, wire).visits[k].job.service == Publisher
    ensures
      var s := RunJobs(x, e, m, p, wire);
      var result := AnswerOf(s).result;
      && s.visits[k].req == PublishRequest(Event(x.claim.claimId, x.correlationId, x.tenantId, StatusOf(s.visits[..k]),
                                                 result.fraudScore, result.modelVersion))
      && result.status == StatusOf(s.visits)
      && (NoPublishFailed(s.visits) ==> StatusOf(s.visits[..k]) == result.status)
  {
    var s := RunJobs(x, e, m, p, wire);
    RunClosedForm(x, e, m, p, wire);
    RunKeeps(x, e, m, p, wire);
    AskedAt(x, s.visits, k);
    forall i | 0 <= i < |s.visits|
      ensures s.visits[i].job.service == Publisher <==> i >= |e + m|
    {
      PublishersAfterGate(e, m, p, i);
    }
    LastOkFrame(s.visits, k, Model);
    if NoPublishFailed(s.visits) {
      StatusSettles(s.visits, k);
    }
  }

  /** A publish attempt of a run that answers, as seen on the wire. */
  ghost predicate Agrees(x: Session, result: Result, req: Request) {
    && req.PublishRequest?
    && req.event == Event(x.claim.claimId, x.correlationId, x.tenantId, req.event.status,
                          result.fraudScore, result.modelVersion)
    && (req.event.status == "scored" || req.event.status == "degraded")
    && (req.event.status == "degraded" ==> result.status == "degraded")
  }

  /** Every publish attempt of a run that answers carries the answer's score, version and
      claim, with the answer's status whenever no publish node failed. */
  lemma {:induction false} EventsAgreeWithAnswer(x: Session, e: seq<Job>, m: seq<Job>, p: seq<Job>, wire: Wire, i: nat)
    requires Staged(e, m, p)
    requires AnswerOf(RunJobs(x, e, m, p, wire)).Success?
    requires |wire.log| <= i < |RunJobs(x, e, m, p, wire).wire.log|
    requires RunJobs(x, e, m, p, wire).wire.log[i].req.PublishRequest?
    ensures
      var s := RunJobs(x, e, m, p, wire);
      var req := s.wire.log[i].req;
      && Agrees(x, AnswerOf(s).result, req)
      && (NoPublishFailed(s.visits) ==> req.event.status == AnswerOf(s).result.status)
  {
    var s := RunJobs(x, e, m, p, wire);
    var k := PublishAttemptVisit(x, e, m, p, wire, i);
    PublishVisit(x, e, m, p, wire, k);
    assert s.visits[..|s.visits|] == s.visits;
    StatusIsMonotone(s.visits, k, |s.visits|);
  }

  /** The visit a publish attempt belongs to. */
  lemma {:induction false} PublishAttemptVisit(x: Session, e: seq<Job>, m: seq<Job>, p: seq<Job>, wire: Wire, i: nat)
      returns (k: nat)
    requires |wire.log| <= i < |RunJobs(x, e, m, p, wire).wire.log|
    requires RunJobs(x, e, m, p, wire).wire.log[i].req.PublishRequest?
    ensures
      var s := RunJobs(x, e, m, p, wire);
      && k < |s.visits|
      && s.visits[k].from <= i < s.visits[k].to
      && s.visits[k].job.service == Publisher
      && s.visits[k].req == s.wire.log[i].req
  {
    var s := RunJobs(x, e, m, p, wire);
    RunTiles(x, e, m, p, wire);
    RunIsRouted(x, e, m, p, wire);
    k := SenderOf(x.ctx, |wire.log|, s.visits, s.wire, i);
  }

  /** Event statuses only ever go from scored to degraded. */
  lemma {:induction false} EventStatusIsMonotone(x: Session, e: seq<Job>, m: seq<Job>, p: seq<Job>, wire: Wire,
                                                 i: nat, j: nat)
    requires Staged(e, m, p)
    requires AnswerOf(RunJobs(x, e, m, p, wire)).Success?
    requires |wire.log| <= i < j < |RunJobs(x, e, m, p, wire).wire.log|
    requires RunJobs(x, e, m, p, wire).wire.log[i].req.PublishRequest?
    requires RunJobs(x, e, m, p, wire).wire.log[j].req.PublishRequest?
    ensures
      var log := RunJobs(x, e, m, p, wire).wire.log;
      log[i].req.event.status == "degraded" ==> log[j].req.event.status == "degraded"
  {
    var s := RunJobs(x, e, m, p, wire);
    RunTiles(x, e, m, p, wire);
    var k := PublishAttemptVisit(x, e, m, p, wire, i);
    var l := PublishAttemptVisit(x, e, m, p, wire, j);
    if l < k {
      TilesInOrder(x.ctx, |wire.log|, s.visits, s.wire, l, k);
    }
    PublishVisit(x, e, m, p, wire, k);
    PublishVisit(x, e, m, p, wire, l);
    StatusIsMonotone(s.visits, k, l);
  }

  predicate InLog(s: State, i: nat) { i < |s.wire.log| }

  /** The attempts of one publish node carry the identical event, and at most one of them
      was acknowledged. */
  lemma {:induction false} AtMostOneAcknowledged(x: Session, e: seq<Job>, m: seq<Job>, p: seq<Job>, wire: Wire,
                                                 k: nat, i: nat, j: nat)
    requires k < |RunJobs(x, e, m, p, wire).visits|
    requires
      var v := RunJobs(x, e, m, p, wire).visits[k];
      v.from <= i < v.to && v.from <= j < v.to
    ensures
      var s := RunJobs(x, e, m, p, wire);
      && InLog(s, i) && InLog(s, j)
      && s.wire.log[i].req == s.wire.log[j].req
      && (s.wire.log[i].outcome.Ok? && s.wire.log[j].outcome.Ok? ==> i == j)
  {
    var s := RunJobs(x, e, m, p, wire);
    RunTiles(x, e, m, p, wire);
    assert Tile(x.ctx, s.wire.log, s.visits[k]);
  }

  /** A visit that succeeded was acknowledged by its last attempt exactly when its maxRetries
      is not negative; otherwise nothing was sent and the success is not backed by anyone. */
  lemma {:induction false} AcknowledgedUnlessNegativeRetries(x: Session, e: seq<Job>, m: seq<Job>, p: seq<Job>,
                                                             wire: Wire, k: nat)
    requires k < |RunJobs(x, e, m, p, wire).visits|
    requires RunJobs(x, e, m, p, wire).visits[k].outcome.Ok?
    ensures
      var s := RunJobs(x, e, m, p, wire);
      var v := s.visits[k];
      && (v.job.maxRetries >= 0 <==> exists i :: v.from <= i < v.to && InLog(s, i) && s.wire.log[i].outcome.Ok?)
      && (v.job.maxRetries < 0 <==> v.from == v.to)
  {
    var s := RunJobs(x, e, m, p, wire);
    var v := s.visits[k];
    RunTiles(x, e, m, p, wire);
    assert Tile(x.ctx, s.wire.log, v);
    if v.job.maxRetries >= 0 {
      assert InLog(s, v.to - 1) && s.wire.log[v.to - 1].outcome.Ok?;
    }
  }

  /** A run that answers is reported scored exactly if all its failed visits are to models. */
  lemma {:induction false} ScoredUnlessSetBack(x: Session, e: seq<Job>, m: seq<Job>, p: seq<Job>, wire: Wire)
    requires Staged(e, m, p)
    requires AnswerOf(RunJobs(x, e, m, p, wire)).Success?
    ensures
      var s := RunJobs(x, e, m, p, wire);
      AnswerOf(s).result.status == "scored" <==>
      forall k :: 0 <= k < |s.visits| && s.visits[k].outcome.Err? ==> s.visits[k].job.service == Model
  {
    RunClosedForm(x, e, m, p, wire);
  }

  // A second model node whose failures are tolerated, before the shipped one.
  const MODEL_SHADOW := MODEL_SCORE.(id := "model_shadow", onFailure := "skip")
  const TWO_MODELS := SHIPPED.(nodes := [MODEL_SHADOW, MODEL_SCORE])

  lemma {:induction false} TwoModelsJobs(x: Session)
    ensures JobsIn(Enrichment, x, TWO_MODELS) == []
    ensures JobsIn(Scoring, x, TWO_MODELS) == [Job(Model, 80_000_000, 0, true), Job(Model, 80_000_000, 0, false)]
    ensures JobsIn(Publishing, x, TWO_MODELS) == []
  {
    JobsOfTwo(Enrichment, 250, x.tenantId, MODEL_SHADOW, MODEL_SCORE);
    JobsOfTwo(Scoring, 250, x.tenantId, MODEL_SHADOW, MODEL_SCORE);
    JobsOfTwo(Publishing, 250, x.tenantId, MODEL_SHADOW, MODEL_SCORE);
  }

  lemma {:induction false} TwoModelJobs(x: Session, a: Job, b: Job, wire: Wire)
    ensures RunJobs(x, [], [a, b], [], wire) == Gate(Perform(x, b, Perform(x, a, Start(x, wire))))
  {
    var start := Start(x, wire);
    assert [a, b][..1] == [a];
    assert Drive(x, [a], start) == Perform(x, a, Drive(x, [], start));
    assert Drive(x, [a, b], start) == Perform(x, b, Drive(x, [a], start));
  }

  /** Only the first exchange is lost. */
  function FirstLost(): Script {
    (n: nat, req: Request) => if n == 0 then LOST else Usual(req)
  }

  lemma {:induction false} FirstIsLost(x: Session, a: Job)
    requires x.world == Scripted(FirstLost(), false) && x.ctx == Background
    requires a.service == Model && a.tolerant && a.maxRetries == 0
    ensures
      var s := Perform(x, a, Start(x, Wire([], 0)));
      && s.halted.None? && s.vars == InitialVars(x.claim) && |s.wire.log| == 1
      && |s.visits| == 1 && s.visits[0].job == a && s.visits[0].outcome == LOST
  {
    assert FirstLost()(0, RequestFor(x, Model, InitialVars(x.claim))) == LOST;
  }

  lemma {:induction false} SecondAnswers(x: Session, b: Job, s: State)
    requires x.world == Scripted(FirstLost(), false) && x.ctx == Background
    requires b.service == Model && b.maxRetries >= 0 && s.halted.None? && |s.wire.log| == 1
    ensures
      var t := Perform(x, b, s);
      && t.halted.None? && t.vars.score.ScoreResponse? && t.vars.status == s.vars.status
      && |t.visits| == |s.visits| + 1 && s.visits <= t.visits
  {
    var req := RequestFor(x, Model, s.vars);
    assert FirstLost()(1, req) == Usual(req);
    AnsweredAtOnce(FirstLost(), false, b, req, s.wire);
  }

  /** A model failure that is tolerated leaves no mark: here one model node fails, the other
      answers, and the result says "scored". */
  lemma {:induction false} LostModelLeavesNoMark(base: Session) returns (x: Session)
    ensures x == base.(ctx := Background, world := x.world)
    ensures
      var s := RunConfig(x, TWO_MODELS, Wire([], 0));
      && AnswerOf(s).Success?
      && AnswerOf(s).result.status == "scored"
      && |s.visits| == 2
      && s.visits[0].job.service == Model && s.visits[0].outcome == LOST
  {
    x := base.(ctx := Background, world := Scripted(FirstLost(), false));
    var a, b := Job(Model, 80_000_000, 0, true), Job(Model, 80_000_000, 0, false);
    TwoModelsJobs(x);
    TwoModelJobs(x, a, b, Wire([], 0));
    FirstIsLost(x, a);
    SecondAnswers(x, b, Perform(x, a, Start(x, Wire([], 0))));
  }
}
