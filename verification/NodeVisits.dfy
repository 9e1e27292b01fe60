/** Which nodes a run visits, and with which settings, read off the configuration. */
module NodeVisits {
  import opened DagConfig
  import opened Downstream
  import opened Plan
  import opened Runs
  import opened TraceLaws
  import opened StagedOrder

  /** The node is for everyone, or lists the tenant. */
  predicate Lists(n: Node, tenantId: string) {
    |n.enabledFor| == 0 || exists i :: 0 <= i < |n.enabledFor| && n.enabledFor[i] == tenantId
  }

  /** The dependencies and the service of a node that calls `service` in pass `stage`. */
  predicate DueIn(stage: Stage, n: Node, service: Service) {
    match service
    case Hasher => stage == Enrichment && |n.dependsOn| == 0 && n.service == "claimant-id-hashing-svc"
    case Normalizer => stage == Enrichment && |n.dependsOn| == 0 && n.service == "address-normalization-svc"
    case PolicyLookup => stage == Enrichment && |n.dependsOn| == 0 && n.service == "policy-lookup-svc"
    case Model => stage == Scoring && "enrichment" in n.dependsOn && n.service == "model-service"
    case Publisher => stage == Publishing && "model_score" in n.dependsOn && n.service == "kafka-publisher"
  }

  /** The settings of a node as its calls meet them. */
  predicate Settings(cfg: Config, n: Node, job: Job) {
    && job.maxRetries == n.maxRetries as int
    && (job.tolerant <==> n.onFailure == "skip" || n.onFailure == "degrade")
    && job.timeout ==
       if n.timeoutMs > 0 then n.timeoutMs as int * 1_000_000
       else if cfg.timeoutMs > 0 then cfg.timeoutMs as int * 1_000_000
       else 500_000_000
  }

  lemma {:induction false} EnabledIsListed(n: Node, tenantId: string)
    ensures Enabled(n, tenantId) <==> Lists(n, tenantId)
  {
    if tenantId in n.enabledFor {
      var i :| 0 <= i < |n.enabledFor| && n.enabledFor[i] == tenantId;
    }
  }

  lemma {:induction false} DispatchedIsDue(stage: Stage, n: Node, tenantId: string)
    ensures Dispatched(stage, n, tenantId) <==> Lists(n, tenantId) && exists service :: DueIn(stage, n, service)
    ensures Dispatched(stage, n, tenantId) ==> DueIn(stage, n, Recognise(stage, n.service).value)
  {
    EnabledIsListed(n, tenantId);
    if Dispatched(stage, n, tenantId) {
      assert DueIn(stage, n, Recognise(stage, n.service).value);
    }
  }

  /** Every visit of every run is that of a node which lists the tenant, or nobody, and which
      names this pass and this service; it is made with the node's settings. */
  lemma {:induction false} VisitIsOfItsNode(x: Session, cfg: Config, wire: Wire, k: nat)
    requires k < |RunConfig(x, cfg, wire).visits|
    ensures k < |Order(x, cfg)| && Order(x, cfg)[k].at < |cfg.nodes|
    ensures
      var slot, job := Order(x, cfg)[k], RunConfig(x, cfg, wire).visits[k].job;
      var n := cfg.nodes[slot.at];
      Lists(n, x.tenantId) && DueIn(slot.stage, n, job.service) && Settings(cfg, n, job)
  {
    TraceGrammar(x, cfg, wire);
    var slot := Order(x, cfg)[k];
    assert SlotHolds(x, cfg, slot, RunConfig(x, cfg, wire).visits[k].job);
    DispatchedIsDue(slot.stage, cfg.nodes[slot.at], x.tenantId);
  }

  /** A node whose list is not empty and lacks the tenant is never visited. */
  lemma {:induction false} UnlistedNeverVisited(x: Session, cfg: Config, wire: Wire, i: nat, k: nat)
    requires i < |cfg.nodes| && |cfg.nodes[i].enabledFor| > 0
    requires forall j :: 0 <= j < |cfg.nodes[i].enabledFor| ==> cfg.nodes[i].enabledFor[j] != x.tenantId
    requires k < |RunConfig(x, cfg, wire).visits|
    ensures k < |Order(x, cfg)| && Order(x, cfg)[k].at != i
  {
    VisitIsOfItsNode(x, cfg, wire, k);
  }

  /** A run that answers has visited a node in a pass exactly if the node lists the tenant, or
      nobody, and names that pass and a service of it. */
  lemma {:induction false} VisitedExactlyIfDue(x: Session, cfg: Config, wire: Wire, stage: Stage, i: nat)
    requires AnswerOf(RunConfig(x, cfg, wire)).Success? && i < |cfg.nodes|
    ensures
      (exists k :: 0 <= k < |RunConfig(x, cfg, wire).visits| && InSlot(x, cfg, k, stage, i)) <==>
      Lists(cfg.nodes[i], x.tenantId) && exists service :: DueIn(stage, cfg.nodes[i], service)
  {
    DispatchedIsDue(stage, cfg.nodes[i], x.tenantId);
    if Dispatched(stage, cfg.nodes[i], x.tenantId) {
      var k := PlaceOf(x, cfg, stage, i);
      PlacesAreLive(x, cfg, wire, k);
      assert InSlot(x, cfg, k, stage, i);
    }
    if k: nat :| k < |RunConfig(x, cfg, wire).visits| && InSlot(x, cfg, k, stage, i) {
      VisitIsOfItsNode(x, cfg, wire, k);
    }
  }

  /** The `k`-th visit of a run is that of node `i` in pass `stage`. */
  predicate InSlot(x: Session, cfg: Config, k: nat, stage: Stage, i: nat) {
    k < |Order(x, cfg)| && Order(x, cfg)[k] == Slot(stage, i)
  }
}
