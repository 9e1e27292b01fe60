/** The three passes as a linear extension of the declared dependencies. */
module StagedOrder {
  import opened DagConfig
  import opened Downstream
  import opened Plan
  import opened Runs
  import opened TraceLaws
  import opened Specialisation

  /** The pass a node's dependencies ask for. */
  function StageFor(n: Node): Stage {
    if n.dependsOn == [] then Enrichment
    else if NODE_MODEL_SCORE in n.dependsOn then Publishing
    else Scoring
  }

  /** The node fits the three-stage shape: its dependencies name the enrichment group and the
      model score only, its own names are used accordingly, and its service suits its pass. */
  predicate FitsStages(n: Node) {
    && (n.group == GROUP_ENRICHMENT <==> n.dependsOn == [])
    && (forall d :: d in n.dependsOn ==> d == GROUP_ENRICHMENT || d == NODE_MODEL_SCORE)
    && (n.id == GROUP_ENRICHMENT ==> StageFor(n) == Enrichment)
    && (n.id == NODE_MODEL_SCORE || n.group == NODE_MODEL_SCORE ==> StageFor(n) == Scoring)
    && Recognise(StageFor(n), n.service).Some?
  }

  predicate WellStaged(cfg: Config) {
    forall n :: n in cfg.nodes ==> FitsStages(n)
  }

  /** `n` declares a dependency on `on`, by node or by group. */
  predicate DeclaredOn(n: Node, on: Node) {
    on.id in n.dependsOn || on.group in n.dependsOn
  }

  lemma {:induction false} DispatchedOnlyThere(stage: Stage, n: Node, tenantId: string)
    requires FitsStages(n)
    ensures Dispatched(stage, n, tenantId) <==> stage == StageFor(n) && Enabled(n, tenantId)
  {
    if n.dependsOn != [] {
      assert n.dependsOn[0] in n.dependsOn;
    }
  }

  lemma {:induction false} DeclaredIsEarlier(n: Node, on: Node)
    requires FitsStages(n) && FitsStages(on) && DeclaredOn(n, on)
    ensures Rank(StageFor(on)) < Rank(StageFor(n))
  {
  }

  /** The place of a node of a pass in the order of the run. */
  lemma {:induction false} PlaceOf(x: Session, cfg: Config, stage: Stage, i: nat) returns (k: nat)
    requires i < |cfg.nodes| && Dispatched(stage, cfg.nodes[i], x.tenantId)
    ensures k < |Order(x, cfg)| && Order(x, cfg)[k] == Slot(stage, i)
  {
    EveryDispatchedHasAPosition(stage, x.tenantId, cfg.nodes, i);
    var ps := Positions(stage, x.tenantId, cfg.nodes);
    var j :| 0 <= j < |ps| && ps[j] == i;
    var a, b, c := SlotsIn(Enrichment, x, cfg), SlotsIn(Scoring, x, cfg), SlotsIn(Publishing, x, cfg);
    k := match stage case Enrichment => j case Scoring => |a| + j case Publishing => |a| + |b| + j;
    assert SlotsIn(stage, x, cfg)[j] == Slot(stage, i);
    assert (a + b + c)[k] == SlotsIn(stage, x, cfg)[j];
  }

  /** In a well-staged configuration every successful run visits each enabled node exactly
      once, in the pass its dependencies ask for. */
  lemma {:induction false} EachEnabledNodeOnce(x: Session, cfg: Config, wire: Wire, i: nat) returns (k: nat)
    requires WellStaged(cfg)
    requires AnswerOf(RunConfig(x, cfg, wire)).Success?
    requires i < |cfg.nodes| && Enabled(cfg.nodes[i], x.tenantId)
    ensures
      var visits := RunConfig(x, cfg, wire).visits;
      && |visits| == |Order(x, cfg)|
      && k < |visits|
      && Order(x, cfg)[k] == Slot(StageFor(cfg.nodes[i]), i)
      && SlotHolds(x, cfg, Order(x, cfg)[k], visits[k].job)
      && (forall j :: 0 <= j < |visits| && Order(x, cfg)[j].at == i ==> j == k)
  {
    var n := cfg.nodes[i];
    DispatchedOnlyThere(StageFor(n), n, x.tenantId);
    k := PlaceOf(x, cfg, StageFor(n), i);
    TraceGrammar(x, cfg, wire);
    var visits := RunConfig(x, cfg, wire).visits;
    forall j | 0 <= j < |visits| && Order(x, cfg)[j].at == i
      ensures j == k
    {
      var slot := Order(x, cfg)[j];
      assert SlotHolds(x, cfg, slot, visits[j].job);
      DispatchedOnlyThere(slot.stage, n, x.tenantId);
      assert j < k ==> Before(Order(x, cfg)[j], Order(x, cfg)[k]);
      assert k < j ==> Before(Order(x, cfg)[k], Order(x, cfg)[j]);
    }
  }

  /** The run is a linear extension of the declared dependencies: all attempts of a
      dependency come, on the wire and in time, before all attempts of its dependents. */
  lemma {:induction false} DependenciesComeFirst(x: Session, cfg: Config, wire: Wire, i: nat, j: nat, ki: nat, kj: nat)
    requires WellStaged(cfg)
    requires AnswerOf(RunConfig(x, cfg, wire)).Success?
    requires i < |cfg.nodes| && j < |cfg.nodes|
    requires Enabled(cfg.nodes[i], x.tenantId) && Enabled(cfg.nodes[j], x.tenantId)
    requires DeclaredOn(cfg.nodes[j], cfg.nodes[i])
    requires ki < |Order(x, cfg)| && kj < |Order(x, cfg)|
    requires Order(x, cfg)[ki].at == i && Order(x, cfg)[kj].at == j
    ensures
      var visits := RunConfig(x, cfg, wire).visits;
      && |visits| == |Order(x, cfg)|
      && visits[ki].to <= visits[kj].from
      && visits[ki].end <= visits[kj].start
  {
    var s := RunConfig(x, cfg, wire);
    TraceGrammar(x, cfg, wire);
    var a := EachEnabledNodeOnce(x, cfg, wire, i);
    var b := EachEnabledNodeOnce(x, cfg, wire, j);
    assert a == ki && b == kj;
    DeclaredIsEarlier(cfg.nodes[j], cfg.nodes[i]);
    assert kj < ki ==> Before(Order(x, cfg)[kj], Order(x, cfg)[ki]);
    TilesInOrder(x.ctx, |wire.log|, s.visits, s.wire, ki, kj);
  }

  /** Outside that shape the declaration is not honoured: a node whose dependencies name
      neither the enrichment group nor the model score is never visited. */
  lemma {:induction false} OtherDependenciesNeverRun(x: Session, cfg: Config, wire: Wire, i: nat, k: nat)
    requires i < |cfg.nodes| && cfg.nodes[i].dependsOn != []
    requires GROUP_ENRICHMENT !in cfg.nodes[i].dependsOn && NODE_MODEL_SCORE !in cfg.nodes[i].dependsOn
    requires k < |RunConfig(x, cfg, wire).visits|
    ensures k < |Order(x, cfg)| && Order(x, cfg)[k].at != i
  {
    TraceGrammar(x, cfg, wire);
    assert SlotHolds(x, cfg, Order(x, cfg)[k], RunConfig(x, cfg, wire).visits[k].job);
  }

  lemma {:induction false} LiveHasAPlace(x: Session, cfg: Config, i: nat) returns (k: nat)
    requires i < |cfg.nodes| && Live(cfg.nodes[i], x.tenantId)
    ensures k < |Order(x, cfg)| && Order(x, cfg)[k].at == i
  {
    var stage :| Dispatched(stage, cfg.nodes[i], x.tenantId);
    k := PlaceOf(x, cfg, stage, i);
  }

  lemma {:induction false} PlacesAreLive(x: Session, cfg: Config, wire: Wire, k: nat)
    requires AnswerOf(RunConfig(x, cfg, wire)).Success? && k < |Order(x, cfg)|
    ensures Order(x, cfg)[k].at < |cfg.nodes| && Live(cfg.nodes[Order(x, cfg)[k].at], x.tenantId)
    ensures |RunConfig(x, cfg, wire).visits| == |Order(x, cfg)|
  {
    TraceGrammar(x, cfg, wire);
    assert SlotHolds(x, cfg, Order(x, cfg)[k], RunConfig(x, cfg, wire).visits[k].job);
  }

  /** A run that answers has visited exactly the nodes that some pass dispatches for the
      tenant; staged or not, every other node was passed over in silence. */
  lemma {:induction false} VisitedExactlyIfLive(x: Session, cfg: Config, wire: Wire, i: nat)
    requires AnswerOf(RunConfig(x, cfg, wire)).Success? && i < |cfg.nodes|
    ensures
      (exists k :: 0 <= k < |RunConfig(x, cfg, wire).visits| && InPlace(x, cfg, k, i)) <==>
      Live(cfg.nodes[i], x.tenantId)
  {
    if Live(cfg.nodes[i], x.tenantId) {
      var k := LiveHasAPlace(x, cfg, i);
      PlacesAreLive(x, cfg, wire, k);
      assert InPlace(x, cfg, k, i);
    }
    if k: nat :| InPlace(x, cfg, k, i) {
      PlacesAreLive(x, cfg, wire, k);
    }
  }

  /** The `k`-th visit of a run is that of node `i`. */
  predicate InPlace(x: Session, cfg: Config, k: nat, i: nat) {
    k < |Order(x, cfg)| && Order(x, cfg)[k].at == i
  }
}
