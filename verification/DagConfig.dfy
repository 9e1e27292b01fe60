/** The DAG configuration of the orchestration service: nodes, their failure policy,
    and the tenants they are enabled for. */
module DagConfig {

  newtype int32 = x: int | -0x8000_0000 <= x < 0x8000_0000
  newtype int64 = x: int | -0x8000_0000_0000_0000 <= x < 0x8000_0000_0000_0000

  datatype Node = Node(
    id: string,
    service: string,
    group: string,
    timeoutMs: int32,
    maxRetries: int32,
    onFailure: string,
    dependsOn: seq<string>,
    enabledFor: seq<string>)

  datatype Config = Config(
    tenantId: string,
    product: string,
    eventType: string,
    version: int32,
    timeoutMs: int32,
    nodes: seq<Node>)

  const ON_FAILURE_FAIL_FAST := "fail_fast"
  const ON_FAILURE_SKIP := "skip"
  const ON_FAILURE_DEGRADE := "degrade"

  function EffectiveOnFailure(n: Node): string {
    if n.onFailure == "" then ON_FAILURE_FAIL_FAST else n.onFailure
  }

  /** An empty list enables the node for every tenant. */
  predicate Enabled(n: Node, tenantId: string) {
    n.enabledFor == [] || tenantId in n.enabledFor
  }

  method EnabledForTenant(n: Node, tenantId: string) returns (enabled: bool)
    ensures enabled == Enabled(n, tenantId)
    ensures enabled <==> |n.enabledFor| == 0 || exists i :: 0 <= i < |n.enabledFor| && n.enabledFor[i] == tenantId
  {
    if |n.enabledFor| == 0 {
      return true;
    }
    for i := 0 to |n.enabledFor|
      invariant tenantId !in n.enabledFor[..i]
    {
      if n.enabledFor[i] == tenantId {
        return true;
      }
    }
    return false;
  }
}
