/** Worlds whose outcomes depend on the request and the attempt only: then the outcome of a
    node is settled beforehand, and the enrichment state is a function of the set of
    outcomes and not of their order. */
module Steadiness {
  import opened Downstream
  import opened Plan
  import opened Resilience
  import opened Runs
  import opened Ledger

  /** The outcome is a function of the request and of how often its callee was called before;
      how long it takes may depend on anything. */
  ghost predicate Steady(w: World, f: (Request, nat) -> Outcome) {
    forall log, req, start: nat, doneBy: nat ::
      w.answer(log, req, start, doneBy).outcome == f(req, Tries(log, req.Callee()))
  }

  /** The first success among `left` attempts from attempt `first` on, else the last failure. */
  function Verdict(f: (Request, nat) -> Outcome, req: Request, first: nat, left: nat): Outcome
    requires left >= 1
    decreases left
  {
    if f(req, first).Ok? || left == 1 then f(req, first) else Verdict(f, req, first + 1, left - 1)
  }

  /** How many attempts that takes. */
  function Taken(f: (Request, nat) -> Outcome, req: Request, first: nat, left: nat): nat
    requires left >= 1
    decreases left
  {
    if f(req, first).Ok? || left == 1 then 1 else 1 + Taken(f, req, first + 1, left - 1)
  }

  function TakenBy(f: (Request, nat) -> Outcome, job: Job, req: Request, first: nat): nat {
    if job.maxRetries < 0 then 0 else Taken(f, req, first, job.maxRetries + 1)
  }

  function Settled(f: (Request, nat) -> Outcome, job: Job, req: Request, first: nat): Outcome {
    if job.maxRetries < 0 then Ok(Nil) else Verdict(f, req, first, job.maxRetries + 1)
  }

  lemma {:induction false} TriesSnoc(log: seq<Exchange>, x: Exchange, callee: Service)
    ensures Tries(log + [x], callee) == Tries(log, callee) + if x.req.Callee() == callee then 1 else 0
  {
    assert (log + [x])[..|log|] == log;
  }

  lemma {:induction false} AttemptSteady(w: World, f: (Request, nat) -> Outcome, timeout: nat, req: Request, s: Wire)
    requires Steady(w, f)
    ensures
      var a := Attempt(w, Background, timeout, req, s);
      && a.outcome == f(req, Tries(s.log, req.Callee()))
      && (forall callee :: Tries(a.wire.log, callee) == Tries(s.log, callee) + if req.Callee() == callee then 1 else 0)
  {
    var a := Attempt(w, Background, timeout, req, s);
    forall callee
      ensures Tries(a.wire.log, callee) == Tries(s.log, callee) + if req.Callee() == callee then 1 else 0
    {
      TriesSnoc(s.log, a.wire.log[|s.log|], callee);
    }
  }

  lemma {:induction false} AttemptsSettled(w: World, f: (Request, nat) -> Outcome, timeout: nat, left: nat,
                                           req: Request, s: Wire)
    requires Steady(w, f) && left >= 1
    ensures
      var c := Attempts(w, Background, timeout, left, req, s);
      && c.outcome == Verdict(f, req, Tries(s.log, req.Callee()), left)
      && Tries(c.wire.log, req.Callee()) == Tries(s.log, req.Callee()) + Taken(f, req, Tries(s.log, req.Callee()), left)
      && (forall other :: other != req.Callee() ==> Tries(c.wire.log, other) == Tries(s.log, other))
    decreases left
  {
    var first := Attempt(w, Background, timeout, req, s);
    AttemptSteady(w, f, timeout, req, s);
    if first.outcome.Err? && left > 1 {
      AttemptsSettled(w, f, timeout, left - 1, req, Rested(first.wire));
    }
  }

  lemma {:induction false} CallSettled(w: World, f: (Request, nat) -> Outcome, job: Job, req: Request, s: Wire)
    requires Steady(w, f)
    ensures
      var c := Call(w, Background, job, req, s);
      && c.outcome == Settled(f, job, req, Tries(s.log, req.Callee()))
      && Tries(c.wire.log, req.Callee()) ==
         Tries(s.log, req.Callee()) + TakenBy(f, job, req, Tries(s.log, req.Callee()))
      && (forall other :: other != req.Callee() ==> Tries(c.wire.log, other) == Tries(s.log, other))
  {
    if job.maxRetries >= 0 {
      AttemptsSettled(w, f, job.timeout, job.maxRetries + 1, req, s);
    }
  }

  predicate Distinct(jobs: seq<Job>) {
    forall i, j :: 0 <= i < j < |jobs| ==> jobs[i].service != jobs[j].service
  }

  predicate AllEnrichment(jobs: seq<Job>) {
    forall job :: job in jobs ==> StageOf(job.service) == Enrichment
  }

  /** The outcomes of the enrichment nodes that have finished, by service. */
  type Outcomes = map<Service, Outcome>

  ghost function VarsFrom(x: Session, got: Outcomes): Vars {
    var ok := (service: Service) => service in got && got[service].Ok?;
    Vars(
      if exists service :: service in got && got[service].Err? then DEGRADED else SCORED,
      if ok(Normalizer) then got[Normalizer].resp.GetAddress() else x.claim.rawAddress,
      if ok(Hasher) then got[Hasher].resp.GetHash() else "",
      if ok(PolicyLookup) then got[PolicyLookup].resp.GetStatus() else "",
      if ok(PolicyLookup) then got[PolicyLookup].resp.GetCoverage() else "",
      ok(Normalizer) && got[Normalizer].resp.GetValid(),
      Nil)
  }

  /** One more outcome is absorbed the way the executor's loop does it. */
  lemma {:induction false} VarsFromStep(x: Session, got: Outcomes, service: Service, o: Outcome)
    requires service !in got && StageOf(service) == Enrichment
    ensures VarsFrom(x, got[service := o]) ==
            match o
            case Ok(resp) => Absorb(service, resp, VarsFrom(x, got))
            case Err(_) => Setback(service, VarsFrom(x, got))
  {
    var more := got[service := o];
    assert forall other :: other in got ==> other in more && more[other] == got[other];
  }

  /** What an enrichment node asks; it does not depend on the other nodes. */
  function EnrichmentRequest(x: Session, service: Service): Request {
    RequestFor(x, service, InitialVars(x.claim))
  }

  /** The settled outcome of an enrichment node in a run that starts after `log`. */
  function Fate(f: (Request, nat) -> Outcome, x: Session, log: seq<Exchange>, job: Job): Outcome {
    Settled(f, job, EnrichmentRequest(x, job.service), Tries(log, job.service))
  }

  function Fates(f: (Request, nat) -> Outcome, x: Session, log: seq<Exchange>, jobs: seq<Job>): Outcomes {
    if jobs == [] then map[]
    else
      var last := jobs[|jobs| - 1];
      Fates(f, x, log, jobs[..|jobs| - 1])[last.service := Fate(f, x, log, last)]
  }

  lemma {:induction false} FatesAt(f: (Request, nat) -> Outcome, x: Session, log: seq<Exchange>, jobs: seq<Job>)
    requires Distinct(jobs)
    ensures forall service :: service in Fates(f, x, log, jobs) <==> exists job :: job in jobs && job.service == service
    ensures forall job :: job in jobs ==>
              job.service in Fates(f, x, log, jobs) && Fates(f, x, log, jobs)[job.service] == Fate(f, x, log, job)
  {
    if jobs != [] {
      var init, last := jobs[..|jobs| - 1], jobs[|jobs| - 1];
      FatesAt(f, x, log, init);
      assert jobs == init + [last];
      forall job | job in init
        ensures job.service != last.service
      {
        var i :| 0 <= i < |init| && init[i] == job;
        assert jobs[i] == job;
      }
    }
  }

  /** Some node is doomed to fail without being tolerated. */
  ghost predicate Doomed(f: (Request, nat) -> Outcome, x: Session, log: seq<Exchange>, jobs: seq<Job>) {
    exists job :: job in jobs && !job.tolerant && Fate(f, x, log, job).Err?
  }

  /** The sequential enrichment pass in a steady world: it halts exactly if some node is
      doomed, and otherwise leaves the state determined by the set of fates. */
  lemma {:induction false} SequentialEnrichment(f: (Request, nat) -> Outcome, x: Session, jobs: seq<Job>, wire: Wire)
    requires Steady(x.world, f) && x.ctx == Background
    requires Distinct(jobs) && AllEnrichment(jobs)
    ensures
      var s := Drive(x, jobs, Start(x, wire));
      && (s.halted.Some? <==> Doomed(f, x, wire.log, jobs))
      && (s.halted.None? ==>
            && s.vars == VarsFrom(x, Fates(f, x, wire.log, jobs))
            && (forall service :: (forall job :: job in jobs ==> job.service != service) ==>
                  Tries(s.wire.log, service) == Tries(wire.log, service)))
  {
    if jobs != [] {
      var init, last := jobs[..|jobs| - 1], jobs[|jobs| - 1];
      assert jobs == init + [last];
      assert last in jobs;
      assert forall job :: job in init ==> job in jobs;
      SequentialEnrichment(f, x, init, wire);
      var s := Drive(x, init, Start(x, wire));
      if s.halted.None? {
        NotAmong(init, last);
        SequentialStep(f, x, init, last, wire, s);
      }
    }
  }

  lemma {:induction false} NotAmong(init: seq<Job>, last: Job)
    requires Distinct(init + [last])
    ensures forall job :: job in init ==> job.service != last.service
  {
    forall job | job in init
      ensures job.service != last.service
    {
      var i :| 0 <= i < |init| && init[i] == job;
      assert (init + [last])[i] == job;
      assert (init + [last])[|init|] == last;
    }
  }

  lemma {:induction false} SequentialStep(f: (Request, nat) -> Outcome, x: Session, init: seq<Job>, last: Job,
                                          wire: Wire, s: State)
    requires Steady(x.world, f) && x.ctx == Background
    requires Distinct(init) && StageOf(last.service) == Enrichment
    requires forall job :: job in init ==> job.service != last.service
    requires s.halted.None?
    requires s.vars == VarsFrom(x, Fates(f, x, wire.log, init))
    requires forall service :: (forall job :: job in init ==> job.service != service) ==>
               Tries(s.wire.log, service) == Tries(wire.log, service)
    ensures
      var t := Perform(x, last, s);
      var fate := Fate(f, x, wire.log, last);
      && (t.halted.Some? <==> fate.Err? && !last.tolerant)
      && (t.halted.None? ==> t.vars == VarsFrom(x, Fates(f, x, wire.log, init)[last.service := fate]))
      && (forall service :: service != last.service ==> Tries(t.wire.log, service) == Tries(s.wire.log, service))
  {
    var req := RequestFor(x, last.service, s.vars);
    assert req == EnrichmentRequest(x, last.service);
    CallSettled(x.world, f, last, req, s.wire);
    FatesAt(f, x, wire.log, init);
    VarsFromStep(x, Fates(f, x, wire.log, init), last.service, Fate(f, x, wire.log, last));
  }
}
