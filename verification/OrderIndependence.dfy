/** The order of the node list matters only among the nodes of one service, when outcomes
    depend on the request and the attempt only. */
module OrderIndependence {
  import opened DagConfig
  import opened Downstream
  import opened Plan
  import opened Resilience
  import opened Runs
  import opened Ledger
  import opened Specialisation
  import opened Steadiness

  // ---- the nodes of one service ----

  /** The nodes of one service that some pass dispatches for the tenant, in list order. */
  function LiveOf(nodes: seq<Node>, service: string, tenantId: string): seq<Node> {
    if nodes == [] then []
    else
      var last := nodes[|nodes| - 1];
      LiveOf(nodes[..|nodes| - 1], service, tenantId)
      + if Live(last, tenantId) && last.service == service then [last] else []
  }

  /** The same live nodes, in the same order within each service. */
  ghost predicate Reordered(a: seq<Node>, b: seq<Node>, tenantId: string) {
    forall service: string :: LiveOf(a, service, tenantId) == LiveOf(b, service, tenantId)
  }

  function Of(jobs: seq<Job>, service: Service): seq<Job> {
    if jobs == [] then []
    else
      var last := jobs[|jobs| - 1];
      Of(jobs[..|jobs| - 1], service) + if last.service == service then [last] else []
  }

  ghost predicate SameOf(a: seq<Job>, b: seq<Job>) {
    forall service :: Of(a, service) == Of(b, service)
  }

  lemma {:induction false} OfSnoc(jobs: seq<Job>, job: Job, service: Service)
    ensures Of(jobs + [job], service) == Of(jobs, service) + if job.service == service then [job] else []
  {
    assert (jobs + [job])[..|jobs|] == jobs;
  }

  lemma {:induction false} OfAll(jobs: seq<Job>, service: Service)
    requires forall job :: job in jobs ==> job.service == service
    ensures Of(jobs, service) == jobs
  {
    if jobs != [] {
      assert jobs[|jobs| - 1] in jobs;
      OfAll(jobs[..|jobs| - 1], service);
    }
  }

  lemma {:induction false} OfNone(jobs: seq<Job>, service: Service)
    requires forall job :: job in jobs ==> job.service != service
    ensures Of(jobs, service) == []
  {
    if jobs != [] {
      assert jobs[|jobs| - 1] in jobs;
      OfNone(jobs[..|jobs| - 1], service);
    }
  }

  function ServiceName(service: Service): string {
    match service
    case Hasher => "claimant-id-hashing-svc"
    case Normalizer => "address-normalization-svc"
    case PolicyLookup => "policy-lookup-svc"
    case Model => "model-service"
    case Publisher => "kafka-publisher"
  }

  /** Each service is recognised in its own pass, by its own name. */
  lemma {:induction false} NamesTellApart(stage: Stage, name: string, service: Service)
    ensures Recognise(stage, name) == Some(service) <==> stage == StageOf(service) && name == ServiceName(service)
  {
  }

  lemma {:induction false} LiveIsDispatched(n: Node, service: Service, tenantId: string)
    requires n.service == ServiceName(service)
    ensures Live(n, tenantId) <==> Dispatched(StageOf(service), n, tenantId)
  {
    forall stage
      ensures Recognise(stage, n.service).Some? ==> stage == StageOf(service)
    {
      if Recognise(stage, n.service).Some? {
        NamesTellApart(stage, n.service, Recognise(stage, n.service).value);
      }
    }
  }

  /** The jobs of one service are those of its live nodes. */
  lemma {:induction false} JobsOfService(dag: int32, tenantId: string, nodes: seq<Node>, service: Service)
    ensures
      var stage := StageOf(service);
      Of(Jobs(stage, dag, tenantId, nodes), service) ==
      Jobs(stage, dag, tenantId, LiveOf(nodes, ServiceName(service), tenantId))
  {
    if nodes != [] {
      JobsOfService(dag, tenantId, nodes[..|nodes| - 1], service);
      JobsOfServiceStep(dag, tenantId, nodes[..|nodes| - 1], nodes[|nodes| - 1], service);
    }
  }

  lemma {:induction false} JobsOfServiceStep(dag: int32, tenantId: string, init: seq<Node>, last: Node,
                                             service: Service)
    ensures
      var stage, name := StageOf(service), ServiceName(service);
      var more := if Dispatched(stage, last, tenantId) then [JobOf(stage, dag, last)] else [];
      Of(Jobs(stage, dag, tenantId, init) + more, service) ==
      Of(Jobs(stage, dag, tenantId, init), service) + if last.service == name then more else []
    ensures
      var stage, name := StageOf(service), ServiceName(service);
      var more := if Dispatched(stage, last, tenantId) then [JobOf(stage, dag, last)] else [];
      var live := LiveOf(init, name, tenantId);
      Jobs(stage, dag, tenantId, live + if Live(last, tenantId) && last.service == name then [last] else []) ==
      Jobs(stage, dag, tenantId, live) + if last.service == name then more else []
  {
    var stage, name := StageOf(service), ServiceName(service);
    var live := LiveOf(init, name, tenantId);
    var jobs := Jobs(stage, dag, tenantId, init);
    if Dispatched(stage, last, tenantId) {
      NamesTellApart(stage, last.service, service);
      OfSnoc(jobs, JobOf(stage, dag, last), service);
    } else {
      assert jobs + [] == jobs;
    }
    if last.service == name {
      LiveIsDispatched(last, service, tenantId);
    }
    JobsSnoc(stage, dag, tenantId, live, last);
    assert live + [] == live;
  }

  lemma {:induction false} ReorderedJobs(stage: Stage, dag: int32, tenantId: string, a: seq<Node>, b: seq<Node>)
    requires Reordered(a, b, tenantId)
    ensures SameOf(Jobs(stage, dag, tenantId, a), Jobs(stage, dag, tenantId, b))
  {
    var p, q := Jobs(stage, dag, tenantId, a), Jobs(stage, dag, tenantId, b);
    JobsBelong(stage, dag, tenantId, a);
    JobsBelong(stage, dag, tenantId, b);
    forall service
      ensures Of(p, service) == Of(q, service)
    {
      if stage == StageOf(service) {
        JobsOfService(dag, tenantId, a, service);
        JobsOfService(dag, tenantId, b, service);
        assert LiveOf(a, ServiceName(service), tenantId) == LiveOf(b, ServiceName(service), tenantId);
      } else {
        OfNone(p, service);
        OfNone(q, service);
      }
    }
  }

  /** Lists of jobs of a single service are not reordered at all. */
  lemma {:induction false} SoleService(a: seq<Job>, b: seq<Job>, service: Service)
    requires SameOf(a, b)
    requires (forall job :: job in a ==> job.service == service) && (forall job :: job in b ==> job.service == service)
    ensures a == b
  {
    OfAll(a, service);
    OfAll(b, service);
    assert Of(a, service) == Of(b, service);
  }

  // ---- the course of each service through the enrichment pass ----

  /** How often the service has been called, its last answer, whether a failure of it was
      tolerated, and whether one was not. */
  datatype Course = Course(tries: nat, last: Option<Response>, failed: bool, doomed: bool)

  function Next(f: (Request, nat) -> Outcome, x: Session, c: Course, job: Job): Course {
    if c.doomed then c
    else
      var req := EnrichmentRequest(x, job.service);
      var tried := c.(tries := c.tries + TakenBy(f, job, req, c.tries));
      match Settled(f, job, req, c.tries)
      case Ok(resp) => tried.(last := Some(resp))
      case Err(_) => if job.tolerant then tried.(failed := true) else tried.(doomed := true)
  }

  function Follow(f: (Request, nat) -> Outcome, x: Session, first: nat, jobs: seq<Job>): Course {
    if jobs == [] then Course(first, None, false, false)
    else Next(f, x, Follow(f, x, first, jobs[..|jobs| - 1]), jobs[|jobs| - 1])
  }

  /** The course of one service, whatever the others do. */
  function CourseOf(f: (Request, nat) -> Outcome, x: Session, log: seq<Exchange>, jobs: seq<Job>, service: Service)
    : Course
  {
    Follow(f, x, Tries(log, service), Of(jobs, service))
  }

  lemma {:induction false} CourseSnoc(f: (Request, nat) -> Outcome, x: Session, log: seq<Exchange>, jobs: seq<Job>,
                                      job: Job, service: Service)
    ensures CourseOf(f, x, log, jobs + [job], service) ==
            var c := CourseOf(f, x, log, jobs, service);
            if job.service == service then Next(f, x, c, job) else c
  {
    OfSnoc(jobs, job, service);
    var of := Of(jobs, service);
    assert of + [] == of;
    assert (of + [job])[..|of|] == of;
  }

  function CourseVars(x: Session, h: Course, n: Course, l: Course): Vars {
    Vars(
      if h.failed || n.failed || l.failed then DEGRADED else SCORED,
      match n.last case Some(resp) => resp.GetAddress() case None => x.claim.rawAddress,
      match h.last case Some(resp) => resp.GetHash() case None => "",
      match l.last case Some(resp) => resp.GetStatus() case None => "",
      match l.last case Some(resp) => resp.GetCoverage() case None => "",
      match n.last case Some(resp) => resp.GetValid() case None => false,
      Nil)
  }

  function VarsOfCourses(x: Session, course: Service -> Course): Vars {
    CourseVars(x, course(Hasher), course(Normalizer), course(PolicyLookup))
  }

  /** The state of a pass that has not halted: each service is where its own course puts it. */
  ghost predicate OnCourse(x: Session, course: Service -> Course, s: State) {
    && s.halted.None?
    && s.vars == VarsOfCourses(x, course)
    && (forall service :: Tries(s.wire.log, service) == course(service).tries && !course(service).doomed)
  }

  /** What an enrichment node does in a steady world. */
  lemma {:induction false} PerformSettled(f: (Request, nat) -> Outcome, x: Session, job: Job, s: State)
    requires Steady(x.world, f) && x.ctx == Background
    requires s.halted.None? && StageOf(job.service) == Enrichment
    ensures
      var t, req, tries := Perform(x, job, s), EnrichmentRequest(x, job.service), Tries(s.wire.log, job.service);
      var o := Settled(f, job, req, tries);
      && Tries(t.wire.log, job.service) == tries + TakenBy(f, job, req, tries)
      && (forall other :: other != job.service ==> Tries(t.wire.log, other) == Tries(s.wire.log, other))
      && (t.halted.Some? <==> o.Err? && !job.tolerant)
      && (t.halted.None? ==>
            t.vars == if o.Ok? then Absorb(job.service, o.resp, s.vars) else Setback(job.service, s.vars))
  {
    assert RequestFor(x, job.service, s.vars) == EnrichmentRequest(x, job.service);
    CallSettled(x.world, f, job, EnrichmentRequest(x, job.service), s.wire);
  }

  /** One more node, whose service moves on and the others do not. */
  lemma {:induction false} StepOnCourse(f: (Request, nat) -> Outcome, x: Session, job: Job, s: State,
                                        course: Service -> Course, after: Service -> Course)
    requires Steady(x.world, f) && x.ctx == Background
    requires OnCourse(x, course, s) && StageOf(job.service) == Enrichment
    requires forall service ::
               after(service) == if service == job.service then Next(f, x, course(service), job) else course(service)
    ensures
      var t := Perform(x, job, s);
      && (t.halted.Some? <==> after(job.service).doomed)
      && (t.halted.None? ==> OnCourse(x, after, t))
  {
    PerformSettled(f, x, job, s);
  }

  /** Some service has a failure in its course that is not tolerated. */
  ghost predicate AnyDoomed(course: Service -> Course) {
    exists service :: course(service).doomed
  }

  ghost predicate PassedOn(x: Session, course: Service -> Course, s: State) {
    if s.halted.Some? then AnyDoomed(course) else OnCourse(x, course, s)
  }

  ghost function Courses(f: (Request, nat) -> Outcome, x: Session, log: seq<Exchange>, jobs: seq<Job>)
    : Service -> Course
  {
    (service: Service) => CourseOf(f, x, log, jobs, service)
  }

  /** The enrichment pass in a steady world, whatever services its nodes repeat: it halts
      exactly if the course of some service is doomed, and otherwise every service is where
      its own course puts it. */
  lemma {:induction false} PassOnCourse(f: (Request, nat) -> Outcome, x: Session, jobs: seq<Job>, wire: Wire)
    requires Steady(x.world, f) && x.ctx == Background && AllEnrichment(jobs)
    ensures PassedOn(x, Courses(f, x, wire.log, jobs), Drive(x, jobs, Start(x, wire)))
  {
    if jobs != [] {
      var init, last := jobs[..|jobs| - 1], jobs[|jobs| - 1];
      assert jobs == init + [last];
      assert last in jobs;
      assert forall job :: job in init ==> job in jobs;
      PassOnCourse(f, x, init, wire);
      forall service
        ensures CourseOf(f, x, wire.log, jobs, service) ==
                var c := CourseOf(f, x, wire.log, init, service);
                if service == last.service then Next(f, x, c, last) else c
      {
        CourseSnoc(f, x, wire.log, init, last, service);
      }
      var s := Drive(x, init, Start(x, wire));
      if s.halted.Some? {
        var service :| Courses(f, x, wire.log, init)(service).doomed;
        assert Courses(f, x, wire.log, jobs)(service).doomed;
      } else {
        StepOnCourse(f, x, last, s, Courses(f, x, wire.log, init), Courses(f, x, wire.log, jobs));
      }
    }
  }

  // ---- what the other passes see ----

  /** What a run tells the model and the publisher, and what they answer, in order. */
  datatype Told = Told(service: Service, req: Request, outcome: Outcome)

  function Telling(visits: seq<Visit>): seq<Told> {
    if visits == [] then []
    else
      var last := visits[|visits| - 1];
      Telling(visits[..|visits| - 1])
      + if StageOf(last.job.service) == Enrichment then [] else [Told(last.job.service, last.req, last.outcome)]
  }

  lemma {:induction false} TellingSnoc(visits: seq<Visit>, v: Visit)
    ensures Telling(visits + [v]) ==
            Telling(visits)
            + if StageOf(v.job.service) == Enrichment then [] else [Told(v.job.service, v.req, v.outcome)]
  {
    assert (visits + [v])[..|visits|] == visits;
  }

  lemma {:induction false} EnrichmentTellsNothing(x: Session, jobs: seq<Job>, s: State)
    requires AllEnrichment(jobs)
    ensures Telling(Drive(x, jobs, s).visits) == Telling(s.visits)
  {
    if jobs != [] {
      var init := jobs[..|jobs| - 1];
      EnrichmentTellsNothing(x, init, s);
      var mid, end := Drive(x, init, s), Drive(x, jobs, s);
      assert jobs[|jobs| - 1] in jobs;
      if mid.halted.None? {
        TellingSnoc(mid.visits, end.visits[|mid.visits|]);
      }
    }
  }

  /** Two states from which model and publish nodes behave alike. */
  ghost predicate Synced(s: State, t: State) {
    && s.vars == t.vars
    && s.halted == t.halted
    && Telling(s.visits) == Telling(t.visits)
    && Tries(s.wire.log, Model) == Tries(t.wire.log, Model)
    && Tries(s.wire.log, Publisher) == Tries(t.wire.log, Publisher)
  }

  /** The same call from wires with the same counts has the same outcome and leaves the same
      counts. */
  lemma {:induction false} CallsAlike(w: World, f: (Request, nat) -> Outcome, job: Job, req: Request, s: Wire, t: Wire)
    requires Steady(w, f) && Tries(s.log, req.Callee()) == Tries(t.log, req.Callee())
    ensures
      var c, d := Call(w, Background, job, req, s), Call(w, Background, job, req, t);
      && c.outcome == d.outcome
      && (forall service :: Tries(s.log, service) == Tries(t.log, service) ==>
            Tries(c.wire.log, service) == Tries(d.wire.log, service))
  {
    CallSettled(w, f, job, req, s);
    CallSettled(w, f, job, req, t);
  }

  lemma {:induction false} PerformSynced(f: (Request, nat) -> Outcome, x: Session, job: Job, s: State, t: State)
    requires Steady(x.world, f) && x.ctx == Background
    requires StageOf(job.service) != Enrichment && Synced(s, t)
    ensures Synced(Perform(x, job, s), Perform(x, job, t))
  {
    if s.halted.None? {
      var req := RequestFor(x, job.service, s.vars);
      CallsAlike(x.world, f, job, req, s.wire, t.wire);
      var u, v := Perform(x, job, s), Perform(x, job, t);
      TellingSnoc(s.visits, u.visits[|s.visits|]);
      TellingSnoc(t.visits, v.visits[|t.visits|]);
    }
  }

  lemma {:induction false} DriveSynced(f: (Request, nat) -> Outcome, x: Session, jobs: seq<Job>, s: State, t: State)
    requires Steady(x.world, f) && x.ctx == Background
    requires forall job :: job in jobs ==> StageOf(job.service) != Enrichment
    requires Synced(s, t)
    ensures Synced(Drive(x, jobs, s), Drive(x, jobs, t))
  {
    if jobs != [] {
      var init := jobs[..|jobs| - 1];
      assert jobs[|jobs| - 1] in jobs;
      DriveSynced(f, x, init, s, t);
      PerformSynced(f, x, jobs[|jobs| - 1], Drive(x, init, s), Drive(x, init, t));
    }
  }

  /** The enrichment passes of two reordered lists both halt, or end in synced states. */
  lemma {:induction false} EnrichmentSynced(f: (Request, nat) -> Outcome, x: Session, a: seq<Job>, b: seq<Job>,
                                            wire: Wire)
    requires Steady(x.world, f) && x.ctx == Background
    requires AllEnrichment(a) && AllEnrichment(b) && SameOf(a, b)
    ensures
      var s, t := Drive(x, a, Start(x, wire)), Drive(x, b, Start(x, wire));
      if s.halted.Some? then t.halted.Some? else Synced(s, t)
  {
    PassOnCourse(f, x, a, wire);
    PassOnCourse(f, x, b, wire);
    SameCourses(f, x, wire.log, a, b);
    EnrichmentTellsNothing(x, a, Start(x, wire));
    EnrichmentTellsNothing(x, b, Start(x, wire));
    SyncedOnCourse(x, Courses(f, x, wire.log, a), Courses(f, x, wire.log, b),
                   Drive(x, a, Start(x, wire)), Drive(x, b, Start(x, wire)));
  }

  lemma {:induction false} SameCourses(f: (Request, nat) -> Outcome, x: Session, log: seq<Exchange>,
                                       a: seq<Job>, b: seq<Job>)
    requires SameOf(a, b)
    ensures forall service :: Courses(f, x, log, a)(service) == Courses(f, x, log, b)(service)
  {
    forall service
      ensures Courses(f, x, log, a)(service) == Courses(f, x, log, b)(service)
    {
      assert Of(a, service) == Of(b, service);
    }
  }

  lemma {:induction false} SyncedOnCourse(x: Session, course: Service -> Course, same: Service -> Course,
                                          s: State, t: State)
    requires forall service :: course(service) == same(service)
    requires PassedOn(x, course, s) && PassedOn(x, same, t)
    requires Telling(s.visits) == Telling(t.visits)
    ensures if s.halted.Some? then t.halted.Some? else Synced(s, t)
  {
  }

  /** What two runs that started scoring in synced states have in common. */
  ghost predicate AnswerAlike(s: State, t: State) {
    && (AnswerOf(s).Failure? <==> AnswerOf(t).Failure?)
    && (AnswerOf(s).Success? ==> AnswerOf(s) == AnswerOf(t) && Telling(s.visits) == Telling(t.visits))
  }

  lemma {:induction false} TailsAlike(f: (Request, nat) -> Outcome, x: Session, m: seq<Job>, p: seq<Job>, s: State,
                                      t: State)
    requires Steady(x.world, f) && x.ctx == Background
    requires forall job :: job in m ==> StageOf(job.service) == Scoring
    requires forall job :: job in p ==> StageOf(job.service) == Publishing
    requires if s.halted.Some? then t.halted.Some? else Synced(s, t)
    ensures AnswerAlike(Drive(x, p, Gate(Drive(x, m, s))), Drive(x, p, Gate(Drive(x, m, t))))
  {
    if s.halted.Some? {
      StaysHalted(x, m, p, s);
      StaysHalted(x, m, p, t);
    } else {
      DriveSynced(f, x, m, s, t);
      DriveSynced(f, x, p, Gate(Drive(x, m, s)), Gate(Drive(x, m, t)));
    }
  }

  lemma {:induction false} StaysHalted(x: Session, m: seq<Job>, p: seq<Job>, s: State)
    requires s.halted.Some?
    ensures Drive(x, p, Gate(Drive(x, m, s))) == s
  {
    DriveHalted(x, m, s);
    DriveHalted(x, p, s);
  }

  /** Order independence: moving nodes past nodes of other services changes neither whether
      the run succeeds nor, when it does, the result, the feature maps sent to the model, or
      the events. Nodes that no pass dispatches may be added or dropped. */
  lemma {:induction false} ReorderingPreservesRuns(f: (Request, nat) -> Outcome, x: Session, cfg: Config,
                                                   nodes: seq<Node>, wire: Wire)
    requires Steady(x.world, f) && x.ctx == Background
    requires Reordered(cfg.nodes, nodes, x.tenantId)
    ensures AnswerAlike(RunConfig(x, cfg, wire), RunConfig(x, cfg.(nodes := nodes), wire))
  {
    var other := cfg.(nodes := nodes);
    ConfigIsStaged(x, cfg);
    ConfigIsStaged(x, other);
    ReorderedJobs(Enrichment, cfg.timeoutMs, x.tenantId, cfg.nodes, nodes);
    ReorderedJobs(Scoring, cfg.timeoutMs, x.tenantId, cfg.nodes, nodes);
    ReorderedJobs(Publishing, cfg.timeoutMs, x.tenantId, cfg.nodes, nodes);
    SoleService(JobsIn(Scoring, x, cfg), JobsIn(Scoring, x, other), Model);
    SoleService(JobsIn(Publishing, x, cfg), JobsIn(Publishing, x, other), Publisher);
    EnrichmentSynced(f, x, JobsIn(Enrichment, x, cfg), JobsIn(Enrichment, x, other), wire);
    TailsAlike(f, x, JobsIn(Scoring, x, cfg), JobsIn(Publishing, x, cfg),
               Drive(x, JobsIn(Enrichment, x, cfg), Start(x, wire)),
               Drive(x, JobsIn(Enrichment, x, other), Start(x, wire)));
  }

  // ---- at most one node per service ----

  /** At most one node per service is dispatched for the tenant. */
  predicate AtMostOne(nodes: seq<Node>, tenantId: string) {
    forall i, j :: 0 <= i < j < |nodes| && Live(nodes[i], tenantId) && Live(nodes[j], tenantId) ==>
      nodes[i].service != nodes[j].service
  }

  lemma {:induction false} LiveOfCounts(nodes: seq<Node>, service: string, tenantId: string, n: Node)
    ensures multiset(LiveOf(nodes, service, tenantId))[n] ==
            if Live(n, tenantId) && n.service == service then multiset(nodes)[n] else 0
  {
    if nodes != [] {
      var init, last := nodes[..|nodes| - 1], nodes[|nodes| - 1];
      assert nodes == init + [last];
      LiveOfCounts(init, service, tenantId, n);
    }
  }

  lemma {:induction false} AtMostOneLive(nodes: seq<Node>, service: string, tenantId: string)
    requires AtMostOne(nodes, tenantId)
    ensures |LiveOf(nodes, service, tenantId)| <= 1
  {
    if nodes != [] {
      var init, last := nodes[..|nodes| - 1], nodes[|nodes| - 1];
      AtMostOneLive(init, service, tenantId);
      if Live(last, tenantId) && last.service == service && LiveOf(init, service, tenantId) != [] {
        var i := LiveAt(init, service, tenantId);
      }
    }
  }

  lemma {:induction false} LiveAt(nodes: seq<Node>, service: string, tenantId: string) returns (i: nat)
    requires LiveOf(nodes, service, tenantId) != []
    ensures i < |nodes| && Live(nodes[i], tenantId) && nodes[i].service == service
  {
    var last := nodes[|nodes| - 1];
    if Live(last, tenantId) && last.service == service {
      i := |nodes| - 1;
    } else {
      i := LiveAt(nodes[..|nodes| - 1], service, tenantId);
    }
  }

  /** Any permutation will do if no service is used twice. */
  lemma {:induction false} PermutedIsReordered(a: seq<Node>, b: seq<Node>, tenantId: string)
    requires AtMostOne(a, tenantId) && multiset(a) == multiset(b)
    ensures Reordered(a, b, tenantId)
  {
    forall service: string
      ensures LiveOf(a, service, tenantId) == LiveOf(b, service, tenantId)
    {
      var p, q := LiveOf(a, service, tenantId), LiveOf(b, service, tenantId);
      AtMostOneLive(a, service, tenantId);
      forall n
        ensures multiset(p)[n] == multiset(q)[n]
      {
        LiveOfCounts(a, service, tenantId, n);
        LiveOfCounts(b, service, tenantId, n);
      }
      assert multiset(p) == multiset(q);
      assert |p| == |multiset(p)| == |multiset(q)| == |q|;
      if |p| == 1 {
        assert q[0] in multiset(q);
        assert p == [p[0]];
      }
    }
  }

  /** With at most one node per service every permutation of the node list preserves runs. */
  lemma {:induction false} PermutationPreservesRuns(f: (Request, nat) -> Outcome, x: Session, cfg: Config,
                                                    nodes: seq<Node>, wire: Wire)
    requires Steady(x.world, f) && x.ctx == Background
    requires AtMostOne(cfg.nodes, x.tenantId) && multiset(nodes) == multiset(cfg.nodes)
    ensures AnswerAlike(RunConfig(x, cfg, wire), RunConfig(x, cfg.(nodes := nodes), wire))
  {
    PermutedIsReordered(cfg.nodes, nodes, x.tenantId);
    ReorderingPreservesRuns(f, x, cfg, nodes, wire);
  }
}
