/** The staging of a configuration: which nodes each of the three passes dispatches, in
    which order, and with which effective settings. */
module Plan {
  import opened DagConfig
  import opened Downstream

  datatype Stage = Enrichment | Scoring | Publishing

  const GROUP_ENRICHMENT := "enrichment"
  const NODE_MODEL_SCORE := "model_score"

  const MILLISECOND: int64 := 1_000_000
  const DEFAULT_NODE_TIMEOUT: int64 := 500 * MILLISECOND
  const RETRY_BACKOFF: nat := 20_000_000

  predicate InStage(stage: Stage, n: Node) {
    match stage
    case Enrichment => n.dependsOn == []
    case Scoring => GROUP_ENRICHMENT in n.dependsOn
    case Publishing => NODE_MODEL_SCORE in n.dependsOn
  }

  /** The service names each pass has a case for. */
  function Recognise(stage: Stage, service: string): Option<Service> {
    match stage
    case Enrichment =>
      if service == "claimant-id-hashing-svc" then Some(Hasher)
      else if service == "address-normalization-svc" then Some(Normalizer)
      else if service == "policy-lookup-svc" then Some(PolicyLookup)
      else None
    case Scoring => if service == "model-service" then Some(Model) else None
    case Publishing => if service == "kafka-publisher" then Some(Publisher) else None
  }

  predicate Dispatched(stage: Stage, n: Node, tenantId: string) {
    InStage(stage, n) && Enabled(n, tenantId) && Recognise(stage, n.service).Some?
  }

  /** The per-attempt timeout of a node: its own, else the DAG's, else the default. The
      conversion of milliseconds to nanoseconds is exact: 32-bit milliseconds fit. */
  function NodeTimeout(dagTimeoutMs: int32, n: Node): (timeout: int64)
    ensures 0 < timeout
    ensures n.timeoutMs > 0 ==> timeout as int == n.timeoutMs as int * 1_000_000
    ensures n.timeoutMs <= 0 < dagTimeoutMs ==> timeout as int == dagTimeoutMs as int * 1_000_000
    ensures n.timeoutMs <= 0 && dagTimeoutMs <= 0 ==> timeout as int == 500_000_000
  {
    if n.timeoutMs > 0 then n.timeoutMs as int64 * MILLISECOND
    else if dagTimeoutMs > 0 then dagTimeoutMs as int64 * MILLISECOND
    else DEFAULT_NODE_TIMEOUT
  }

  /** Whether a failure of the node lets the run go on. An unset policy is fail_fast. */
  predicate Tolerant(n: Node): (tolerant: bool)
    ensures tolerant <==> n.onFailure == "skip" || n.onFailure == "degrade"
  {
    EffectiveOnFailure(n) == ON_FAILURE_SKIP || EffectiveOnFailure(n) == ON_FAILURE_DEGRADE
  }

  /** A dispatched node, reduced to what the run can observe of it. */
  datatype Job = Job(service: Service, timeout: nat, maxRetries: int, tolerant: bool)

  function JobOf(stage: Stage, dagTimeoutMs: int32, n: Node): Job
    requires Recognise(stage, n.service).Some?
  {
    Job(Recognise(stage, n.service).value, NodeTimeout(dagTimeoutMs, n) as nat,
        n.maxRetries as int, Tolerant(n))
  }

  /** The jobs of one pass, in list order. */
  function Jobs(stage: Stage, dagTimeoutMs: int32, tenantId: string, nodes: seq<Node>): seq<Job> {
    if nodes == [] then []
    else
      var last := nodes[|nodes| - 1];
      Jobs(stage, dagTimeoutMs, tenantId, nodes[..|nodes| - 1])
      + if Dispatched(stage, last, tenantId) then [JobOf(stage, dagTimeoutMs, last)] else []
  }

  /** The list positions of those jobs. */
  function Positions(stage: Stage, tenantId: string, nodes: seq<Node>): (ps: seq<nat>)
    ensures forall k :: 0 <= k < |ps| ==> ps[k] < |nodes| && Dispatched(stage, nodes[ps[k]], tenantId)
    ensures forall j, k :: 0 <= j < k < |ps| ==> ps[j] < ps[k]
  {
    if nodes == [] then []
    else
      Positions(stage, tenantId, nodes[..|nodes| - 1])
      + if Dispatched(stage, nodes[|nodes| - 1], tenantId) then [|nodes| - 1] else []
  }

  lemma {:induction false} JobsSnoc(stage: Stage, dagTimeoutMs: int32, tenantId: string, nodes: seq<Node>, n: Node)
    ensures Jobs(stage, dagTimeoutMs, tenantId, nodes + [n]) ==
            Jobs(stage, dagTimeoutMs, tenantId, nodes)
            + if Dispatched(stage, n, tenantId) then [JobOf(stage, dagTimeoutMs, n)] else []
  {
    assert (nodes + [n])[..|nodes|] == nodes;
  }

  lemma {:induction false} JobsGrow(stage: Stage, dagTimeoutMs: int32, tenantId: string, nodes: seq<Node>, i: nat)
    requires i < |nodes|
    ensures Jobs(stage, dagTimeoutMs, tenantId, nodes[..i + 1]) ==
            Jobs(stage, dagTimeoutMs, tenantId, nodes[..i])
            + if Dispatched(stage, nodes[i], tenantId) then [JobOf(stage, dagTimeoutMs, nodes[i])] else []
  {
    assert nodes[..i + 1] == nodes[..i] + [nodes[i]];
    JobsSnoc(stage, dagTimeoutMs, tenantId, nodes[..i], nodes[i]);
  }

  lemma {:induction false} JobsAppend(stage: Stage, dagTimeoutMs: int32, tenantId: string, a: seq<Node>, b: seq<Node>)
    ensures Jobs(stage, dagTimeoutMs, tenantId, a + b) ==
            Jobs(stage, dagTimeoutMs, tenantId, a) + Jobs(stage, dagTimeoutMs, tenantId, b)
  {
    if b == [] {
      assert a + b == a;
    } else {
      var init := b[..|b| - 1];
      assert (a + b)[..|a + b| - 1] == a + init;
      JobsAppend(stage, dagTimeoutMs, tenantId, a, init);
    }
  }

  /** The jobs are those of the nodes at the positions, one for one. */
  lemma {:induction false} JobsAreAtPositions(stage: Stage, dagTimeoutMs: int32, tenantId: string, nodes: seq<Node>)
    ensures
      var ps := Positions(stage, tenantId, nodes);
      var jobs := Jobs(stage, dagTimeoutMs, tenantId, nodes);
      && |ps| == |jobs|
      && (forall k :: 0 <= k < |ps| ==> jobs[k] == JobOf(stage, dagTimeoutMs, nodes[ps[k]]))
  {
    if nodes != [] {
      JobsAreAtPositions(stage, dagTimeoutMs, tenantId, nodes[..|nodes| - 1]);
    }
  }

  /** A pass dispatches every node of its stage that is enabled and recognised. */
  lemma {:induction false} EveryDispatchedHasAPosition(stage: Stage, tenantId: string, nodes: seq<Node>, i: nat)
    requires i < |nodes| && Dispatched(stage, nodes[i], tenantId)
    ensures i in Positions(stage, tenantId, nodes)
  {
    var init := nodes[..|nodes| - 1];
    if i < |init| {
      EveryDispatchedHasAPosition(stage, tenantId, init, i);
    } else {
      assert (Positions(stage, tenantId, init) + [i])[|Positions(stage, tenantId, init)|] == i;
    }
  }
}
