/** The enrichment group as the configuration declares it: its nodes run concurrently, in any
    interleaving of their calls, backoffs and writes. Every interleaving that finishes ends
    where the executor's sequential loop does. */
module Interleavings {
  import opened DagConfig
  import opened Downstream
  import opened Plan
  import opened Runs
  import opened Ledger
  import opened Steadiness

  /** Where one node is: before attempt k, in it, backing off before it, back with its
      outcome, or done with its writes. */
  datatype Phase =
    | Ready(k: nat)
    | Calling(k: nat)
    | Resting(k: nat)
    | Returned(outcome: Outcome)
    | Finished(outcome: Outcome)

  /** The exchanges so far, in the order in which they ended. */
  datatype Group = Group(phases: seq<Phase>, log: seq<Exchange>, vars: Vars, failed: bool)

  /** The fixed part of a concurrent enrichment: the run, and what was sent before it. */
  datatype Scene = Scene(x: Session, log: seq<Exchange>, jobs: seq<Job>)

  /** One step of the schedule: the node that takes it, and when its attempt ran if this
      ends one. */
  datatype Turn = Turn(node: nat, start: nat, doneBy: nat, end: nat)

  /** The exchange that ends with turn `t` if its node is in an attempt. */
  function Ended(c: Scene, log: seq<Exchange>, job: Job, t: Turn): Exchange {
    var req := EnrichmentRequest(c.x, job.service);
    Exchange(req, t.start, t.doneBy, c.x.world.answer(log, req, t.start, t.doneBy).outcome, t.end)
  }

  /** The next phase of a node, given how its attempt ends. */
  function Advance(job: Job, phase: Phase, o: Outcome): Phase {
    match phase
    case Ready(k) => if job.maxRetries < 0 then Returned(Ok(Nil)) else Calling(k)
    case Calling(k) => if o.Ok? || k >= job.maxRetries then Returned(o) else Resting(k + 1)
    case Resting(k) => Ready(k)
    case Returned(last) => Finished(last)
    case Finished(_) => phase
  }

  /** A node takes a step. The end of an attempt goes on the common log; a node that is back
      with its outcome writes the shared variables. */
  function Step(c: Scene, g: Group, t: Turn): Group
    requires |g.phases| == |c.jobs|
  {
    if t.node >= |c.jobs| then g
    else
      var job, phase := c.jobs[t.node], g.phases[t.node];
      var ended := Ended(c, g.log, job, t);
      var moved := g.(phases := g.phases[t.node := Advance(job, phase, ended.outcome)]);
      match phase
      case Calling(_) => moved.(log := g.log + [ended])
      case Returned(Ok(resp)) => moved.(vars := Absorb(job.service, resp, g.vars))
      case Returned(Err(_)) =>
        if job.tolerant then moved.(vars := Setback(job.service, g.vars)) else moved.(failed := true)
      case _ => moved
  }

  function Outset(c: Scene): Group {
    Group(seq(|c.jobs|, _ => Ready(0)), c.log, InitialVars(c.x.claim), false)
  }

  /** The group after the nodes have taken steps in the order of `schedule`. */
  function Interleave(c: Scene, schedule: seq<Turn>): (g: Group)
    ensures |g.phases| == |c.jobs|
  {
    if schedule == [] then Outset(c)
    else Step(c, Interleave(c, schedule[..|schedule| - 1]), schedule[|schedule| - 1])
  }

  predicate AllFinished(g: Group) {
    forall i :: 0 <= i < |g.phases| ==> g.phases[i].Finished?
  }

  /** The phase is on the way to the node's settled outcome. */
  ghost predicate Settling(f: (Request, nat) -> Outcome, c: Scene, job: Job, phase: Phase) {
    var req := EnrichmentRequest(c.x, job.service);
    var first := Tries(c.log, job.service);
    match phase
    case Returned(o) => o == Fate(f, c.x, c.log, job)
    case Finished(o) => o == Fate(f, c.x, c.log, job)
    case _ =>
      if job.maxRetries < 0 then phase == Ready(0)
      else
        && phase.k <= job.maxRetries
        && Verdict(f, req, first + phase.k, job.maxRetries + 1 - phase.k) == Fate(f, c.x, c.log, job)
  }

  /** The attempts of the node so far are the calls of its service on the common log. */
  ghost predicate Counted(c: Scene, log: seq<Exchange>, job: Job, phase: Phase) {
    match phase
    case Returned(_) => true
    case Finished(_) => true
    case _ => Tries(log, job.service) == Tries(c.log, job.service) + phase.k
  }

  ghost predicate OnTrack(f: (Request, nat) -> Outcome, c: Scene, log: seq<Exchange>, job: Job, phase: Phase) {
    Settling(f, c, job, phase) && Counted(c, log, job, phase)
  }

  /** The outcomes written so far, by service. */
  ghost function Written(jobs: seq<Job>, phases: seq<Phase>): Outcomes
    requires |phases| == |jobs| && Distinct(jobs)
  {
    map i | 0 <= i < |jobs| && phases[i].Finished? :: jobs[i].service := phases[i].outcome
  }

  ghost predicate FatalFinish(jobs: seq<Job>, phases: seq<Phase>)
    requires |phases| == |jobs|
  {
    exists i :: 0 <= i < |jobs| && phases[i].Finished? && phases[i].outcome.Err? && !jobs[i].tolerant
  }

  ghost predicate Safe(f: (Request, nat) -> Outcome, c: Scene, g: Group)
    requires Distinct(c.jobs)
  {
    && |g.phases| == |c.jobs|
    && AllOnTrack(f, c, g)
    && (g.failed <==> FatalFinish(c.jobs, g.phases))
    && (!g.failed ==> g.vars == VarsFrom(c.x, Written(c.jobs, g.phases)))
  }

  ghost predicate AllOnTrack(f: (Request, nat) -> Outcome, c: Scene, g: Group)
    requires |g.phases| == |c.jobs|
  {
    forall i :: 0 <= i < |c.jobs| ==> OnTrack(f, c, g.log, c.jobs[i], g.phases[i])
  }

  /** The node that takes the step stays on track: in a steady world its attempt ends as the
      calls of its own service on the log say, whatever the others sent in between. */
  lemma {:induction false} AdvanceOnTrack(f: (Request, nat) -> Outcome, c: Scene, log: seq<Exchange>, job: Job,
                                          phase: Phase, t: Turn)
    requires Steady(c.x.world, f) && OnTrack(f, c, log, job, phase)
    ensures
      var ended := Ended(c, log, job, t);
      OnTrack(f, c, if phase.Calling? then log + [ended] else log, job, Advance(job, phase, ended.outcome))
  {
    if phase.Calling? {
      var ended := Ended(c, log, job, t);
      TriesSnoc(log, ended, job.service);
      assert c.x.world.answer(log, ended.req, t.start, t.doneBy).outcome == f(ended.req, Tries(log, job.service));
    }
  }

  /** The end of another service's attempt does not count. */
  lemma {:induction false} OthersCounted(c: Scene, log: seq<Exchange>, job: Job, phase: Phase, ended: Exchange)
    requires Counted(c, log, job, phase) && ended.req.Callee() != job.service
    ensures Counted(c, log + [ended], job, phase)
  {
    TriesSnoc(log, ended, job.service);
  }

  lemma {:induction false} StepOnTrack(f: (Request, nat) -> Outcome, c: Scene, g: Group, t: Turn)
    requires Steady(c.x.world, f) && Distinct(c.jobs)
    requires |g.phases| == |c.jobs| && AllOnTrack(f, c, g)
    ensures AllOnTrack(f, c, Step(c, g, t))
  {
    if t.node < |c.jobs| {
      var i := t.node;
      var after := Step(c, g, t);
      AdvanceOnTrack(f, c, g.log, c.jobs[i], g.phases[i], t);
      forall j | 0 <= j < |c.jobs| && j != i
        ensures OnTrack(f, c, after.log, c.jobs[j], g.phases[j])
      {
        if g.phases[i].Calling? {
          assert c.jobs[i].service != c.jobs[j].service;
          OthersCounted(c, g.log, c.jobs[j], g.phases[j], Ended(c, g.log, c.jobs[i], t));
        }
      }
    }
  }

  lemma {:induction false} WrittenUnmoved(jobs: seq<Job>, phases: seq<Phase>, i: nat, phase: Phase)
    requires |phases| == |jobs| && Distinct(jobs) && i < |jobs|
    requires !phases[i].Finished? && !phase.Finished?
    ensures Written(jobs, phases[i := phase]) == Written(jobs, phases)
    ensures FatalFinish(jobs, phases[i := phase]) == FatalFinish(jobs, phases)
  {
    var after := phases[i := phase];
    assert forall j :: 0 <= j < |jobs| && (phases[j].Finished? || after[j].Finished?) ==> phases[j] == after[j];
    if FatalFinish(jobs, phases) {
      var j :| 0 <= j < |jobs| && phases[j].Finished? && phases[j].outcome.Err? && !jobs[j].tolerant;
      assert after[j] == phases[j];
    }
  }

  lemma {:induction false} WrittenGrows(jobs: seq<Job>, phases: seq<Phase>, i: nat, o: Outcome)
    requires |phases| == |jobs| && Distinct(jobs) && i < |jobs| && !phases[i].Finished?
    ensures jobs[i].service !in Written(jobs, phases)
    ensures Written(jobs, phases[i := Finished(o)]) == Written(jobs, phases)[jobs[i].service := o]
  {
    var after := phases[i := Finished(o)];
    var was, now := Written(jobs, phases), Written(jobs, after);
    assert forall j :: 0 <= j < |jobs| && j != i ==> after[j] == phases[j] && jobs[j].service != jobs[i].service;
    assert after[i].Finished?;
    forall service
      ensures service in now <==> service in was || service == jobs[i].service
      ensures service in was ==> service in now && now[service] == was[service]
    {
      if service in was {
        var j :| 0 <= j < |jobs| && phases[j].Finished? && jobs[j].service == service;
        assert after[j].Finished?;
      }
    }
  }

  lemma {:induction false} FatalFinishGrows(jobs: seq<Job>, phases: seq<Phase>, i: nat, o: Outcome)
    requires |phases| == |jobs| && i < |jobs| && !phases[i].Finished?
    ensures FatalFinish(jobs, phases[i := Finished(o)]) <==>
            FatalFinish(jobs, phases) || (o.Err? && !jobs[i].tolerant)
  {
    var after := phases[i := Finished(o)];
    assert after[i] == Finished(o);
    if FatalFinish(jobs, phases) {
      var j :| 0 <= j < |jobs| && phases[j].Finished? && phases[j].outcome.Err? && !jobs[j].tolerant;
      assert after[j] == phases[j];
    }
  }

  lemma {:induction false} StepIsSafe(f: (Request, nat) -> Outcome, c: Scene, g: Group, t: Turn)
    requires Steady(c.x.world, f)
    requires Distinct(c.jobs) && AllEnrichment(c.jobs) && Safe(f, c, g)
    ensures Safe(f, c, Step(c, g, t))
  {
    StepOnTrack(f, c, g, t);
    if t.node < |c.jobs| {
      var i, job, phase := t.node, c.jobs[t.node], g.phases[t.node];
      assert job in c.jobs;
      if phase.Returned? {
        WrittenGrows(c.jobs, g.phases, i, phase.outcome);
        FatalFinishGrows(c.jobs, g.phases, i, phase.outcome);
        VarsFromStep(c.x, Written(c.jobs, g.phases), job.service, phase.outcome);
      } else if phase.Finished? {
        assert g.phases[i := phase] == g.phases;
      } else {
        WrittenUnmoved(c.jobs, g.phases, i, Advance(job, phase, Ended(c, g.log, job, t).outcome));
      }
    }
  }

  /** Every state that any interleaving reaches is safe. */
  lemma {:induction false} InterleavingsAreSafe(f: (Request, nat) -> Outcome, c: Scene, schedule: seq<Turn>)
    requires Steady(c.x.world, f)
    requires Distinct(c.jobs) && AllEnrichment(c.jobs)
    ensures Safe(f, c, Interleave(c, schedule))
  {
    if schedule != [] {
      InterleavingsAreSafe(f, c, schedule[..|schedule| - 1]);
      StepIsSafe(f, c, Interleave(c, schedule[..|schedule| - 1]), schedule[|schedule| - 1]);
    }
  }

  /** Every node ended as it was fated to. */
  ghost predicate AllFated(f: (Request, nat) -> Outcome, c: Scene, phases: seq<Phase>) {
    && |phases| == |c.jobs|
    && forall i :: 0 <= i < |c.jobs| ==> phases[i] == Finished(Fate(f, c.x, c.log, c.jobs[i]))
  }

  lemma {:induction false} FinishedIsFated(f: (Request, nat) -> Outcome, c: Scene, g: Group)
    requires Distinct(c.jobs) && Safe(f, c, g) && AllFinished(g)
    ensures AllFated(f, c, g.phases)
  {
    forall i | 0 <= i < |c.jobs|
      ensures g.phases[i] == Finished(Fate(f, c.x, c.log, c.jobs[i]))
    {
      assert OnTrack(f, c, g.log, c.jobs[i], g.phases[i]);
    }
  }

  lemma {:induction false} WrittenHolds(jobs: seq<Job>, phases: seq<Phase>, i: nat)
    requires |phases| == |jobs| && Distinct(jobs) && i < |jobs| && phases[i].Finished?
    ensures jobs[i].service in Written(jobs, phases)
    ensures Written(jobs, phases)[jobs[i].service] == phases[i].outcome
  {
  }

  lemma {:induction false} WrittenBy(jobs: seq<Job>, phases: seq<Phase>, service: Service) returns (i: nat)
    requires |phases| == |jobs| && Distinct(jobs) && service in Written(jobs, phases)
    ensures i < |jobs| && jobs[i].service == service && phases[i].Finished?
  {
    i :| 0 <= i < |jobs| && phases[i].Finished? && jobs[i].service == service;
  }

  lemma {:induction false} FatesHold(f: (Request, nat) -> Outcome, c: Scene, i: nat)
    requires Distinct(c.jobs) && i < |c.jobs|
    ensures c.jobs[i].service in Fates(f, c.x, c.log, c.jobs)
    ensures Fates(f, c.x, c.log, c.jobs)[c.jobs[i].service] == Fate(f, c.x, c.log, c.jobs[i])
  {
    FatesAt(f, c.x, c.log, c.jobs);
    assert c.jobs[i] in c.jobs;
  }

  lemma {:induction false} FatedBy(f: (Request, nat) -> Outcome, c: Scene, service: Service) returns (i: nat)
    requires Distinct(c.jobs) && service in Fates(f, c.x, c.log, c.jobs)
    ensures i < |c.jobs| && c.jobs[i].service == service
  {
    FatesAt(f, c.x, c.log, c.jobs);
    var job :| job in c.jobs && job.service == service;
    i :| 0 <= i < |c.jobs| && c.jobs[i] == job;
  }

  lemma {:induction false} AllWritten(f: (Request, nat) -> Outcome, c: Scene, phases: seq<Phase>)
    requires Distinct(c.jobs) && AllFated(f, c, phases)
    ensures Written(c.jobs, phases) == Fates(f, c.x, c.log, c.jobs)
  {
    var written, fates := Written(c.jobs, phases), Fates(f, c.x, c.log, c.jobs);
    forall service | service in written
      ensures service in fates && written[service] == fates[service]
    {
      var i := WrittenBy(c.jobs, phases, service);
      WrittenHolds(c.jobs, phases, i);
      FatesHold(f, c, i);
    }
    forall service | service in fates
      ensures service in written
    {
      var i := FatedBy(f, c, service);
      WrittenHolds(c.jobs, phases, i);
    }
  }

  lemma {:induction false} FatalIsDoomed(f: (Request, nat) -> Outcome, c: Scene, phases: seq<Phase>)
    requires AllFated(f, c, phases)
    ensures FatalFinish(c.jobs, phases) <==> Doomed(f, c.x, c.log, c.jobs)
  {
    if FatalFinish(c.jobs, phases) {
      var i :| 0 <= i < |c.jobs| && phases[i].Finished? && phases[i].outcome.Err? && !c.jobs[i].tolerant;
      assert c.jobs[i] in c.jobs;
    }
    if Doomed(f, c.x, c.log, c.jobs) {
      var job :| job in c.jobs && !job.tolerant && Fate(f, c.x, c.log, job).Err?;
      var i :| 0 <= i < |c.jobs| && c.jobs[i] == job;
      assert phases[i].outcome.Err?;
    }
  }

  /** Interleaving safety: with at most one enrichment node per service and outcomes that
      depend on the request and the attempt only, an interleaving that finishes meets a fatal
      failure exactly when the sequential loop does, and otherwise leaves the same hash,
      address, validity, policy fields and status. */
  lemma {:induction false} InterleavingMatchesLoop(f: (Request, nat) -> Outcome, x: Session, cfg: Config, wire: Wire,
                                                   schedule: seq<Turn>)
    requires Steady(x.world, f) && x.ctx == Background
    requires Distinct(JobsIn(Enrichment, x, cfg))
    requires AllFinished(Interleave(Scene(x, wire.log, JobsIn(Enrichment, x, cfg)), schedule))
    ensures
      var g := Interleave(Scene(x, wire.log, JobsIn(Enrichment, x, cfg)), schedule);
      var s := Drive(x, JobsIn(Enrichment, x, cfg), Start(x, wire));
      && (g.failed <==> s.halted.Some?)
      && (!g.failed ==> g.vars == s.vars)
  {
    var jobs := JobsIn(Enrichment, x, cfg);
    var c := Scene(x, wire.log, jobs);
    JobsBelong(Enrichment, cfg.timeoutMs, x.tenantId, cfg.nodes);
    InterleavingsAreSafe(f, c, schedule);
    var g := Interleave(c, schedule);
    FinishedIsFated(f, c, g);
    AllWritten(f, c, g.phases);
    FatalIsDoomed(f, c, g.phases);
    SequentialEnrichment(f, x, jobs, wire);
  }

  /** No node exceeds its retries. */
  predicate InRange(job: Job, phase: Phase) {
    match phase
    case Returned(_) => true
    case Finished(_) => true
    case _ => if job.maxRetries < 0 then phase == Ready(0) else phase.k <= job.maxRetries
  }

  lemma {:induction false} AllInRange(c: Scene, schedule: seq<Turn>)
    ensures forall i :: 0 <= i < |c.jobs| ==> InRange(c.jobs[i], Interleave(c, schedule).phases[i])
  {
    if schedule != [] {
      AllInRange(c, schedule[..|schedule| - 1]);
    }
  }

  /** How many steps a node has left at most. */
  function StepsLeft(job: Job, phase: Phase): int {
    match phase
    case Finished(_) => 0
    case Returned(_) => 1
    case Calling(k) => 2 + 3 * (job.maxRetries - k)
    case Ready(k) => if job.maxRetries < 0 then 2 else 3 + 3 * (job.maxRetries - k)
    case Resting(k) => 4 + 3 * (job.maxRetries - k)
  }

  /** Every interleaving can be completed: a node that has not finished can always move, each
      move brings it nearer, and no other node moves it back. */
  lemma {:induction false} CanFinishNode(c: Scene, schedule: seq<Turn>, i: nat) returns (longer: seq<Turn>)
    requires i < |c.jobs|
    ensures schedule <= longer
    ensures Interleave(c, longer).phases[i].Finished?
    ensures forall j :: 0 <= j < |c.jobs| && Interleave(c, schedule).phases[j].Finished? ==>
              Interleave(c, longer).phases[j].Finished?
    decreases StepsLeft(c.jobs[i], Interleave(c, schedule).phases[i])
  {
    var g := Interleave(c, schedule);
    if g.phases[i].Finished? {
      return schedule;
    }
    AllInRange(c, schedule);
    var next := schedule + [Turn(i, 0, 0, 0)];
    assert next[..|schedule|] == schedule;
    AllInRange(c, next);
    longer := CanFinishNode(c, next, i);
  }

  lemma {:induction false} CanFinish(c: Scene, schedule: seq<Turn>) returns (longer: seq<Turn>)
    ensures schedule <= longer && AllFinished(Interleave(c, longer))
  {
    longer := schedule;
    for i := 0 to |c.jobs|
      invariant schedule <= longer
      invariant forall j :: 0 <= j < i ==> Interleave(c, longer).phases[j].Finished?
    {
      longer := CanFinishNode(c, longer, i);
    }
  }
}
