/** Specialising a configuration to a tenant: the nodes that can never run are dropped and
    every default is written out, without changing any run. */
module Specialisation {
  import opened DagConfig
  import opened Downstream
  import opened Plan
  import opened Runs

  /** Some pass dispatches the node for the tenant. */
  predicate Live(n: Node, tenantId: string) {
    Dispatched(Enrichment, n, tenantId) || Dispatched(Scoring, n, tenantId) || Dispatched(Publishing, n, tenantId)
  }

  /** The node with its effective timeout and failure policy, for every tenant. */
  function Filled(dagTimeoutMs: int32, n: Node): Node {
    n.(timeoutMs := if n.timeoutMs > 0 then n.timeoutMs else if dagTimeoutMs > 0 then dagTimeoutMs else 500,
       onFailure := EffectiveOnFailure(n),
       enabledFor := [])
  }

  function SpecialNodes(dagTimeoutMs: int32, tenantId: string, nodes: seq<Node>): seq<Node> {
    if nodes == [] then []
    else
      var last := nodes[|nodes| - 1];
      SpecialNodes(dagTimeoutMs, tenantId, nodes[..|nodes| - 1])
      + if Live(last, tenantId) then [Filled(dagTimeoutMs, last)] else []
  }

  function Specialise(cfg: Config, tenantId: string): Config {
    cfg.(nodes := SpecialNodes(cfg.timeoutMs, tenantId, cfg.nodes))
  }

  lemma {:induction false} FilledJob(stage: Stage, dag: int32, otherDag: int32, n: Node, tenantId: string)
    requires Enabled(n, tenantId)
    ensures Dispatched(stage, Filled(dag, n), tenantId) == Dispatched(stage, n, tenantId)
    ensures Dispatched(stage, n, tenantId) ==>
              JobOf(stage, otherDag, Filled(dag, n)) == JobOf(stage, dag, n)
  {
  }

  lemma {:induction false} SpecialSnoc(dag: int32, tenantId: string, nodes: seq<Node>, n: Node)
    ensures SpecialNodes(dag, tenantId, nodes + [n]) ==
            SpecialNodes(dag, tenantId, nodes) + if Live(n, tenantId) then [Filled(dag, n)] else []
  {
    assert (nodes + [n])[..|nodes|] == nodes;
  }

  /** Whatever the DAG timeout of the specialised list, its passes dispatch the same jobs. */
  lemma {:induction false} SameJobs(stage: Stage, dag: int32, otherDag: int32, tenantId: string, nodes: seq<Node>)
    ensures Jobs(stage, otherDag, tenantId, SpecialNodes(dag, tenantId, nodes)) == Jobs(stage, dag, tenantId, nodes)
  {
    if nodes != [] {
      var init, last := nodes[..|nodes| - 1], nodes[|nodes| - 1];
      assert nodes == init + [last];
      SameJobs(stage, dag, otherDag, tenantId, init);
      SpecialSnoc(dag, tenantId, init, last);
      JobsSnoc(stage, dag, tenantId, init, last);
      if Live(last, tenantId) {
        FilledJob(stage, dag, otherDag, last, tenantId);
        JobsSnoc(stage, otherDag, tenantId, SpecialNodes(dag, tenantId, init), Filled(dag, last));
      } else {
        assert SpecialNodes(dag, tenantId, nodes) == SpecialNodes(dag, tenantId, init);
      }
    }
  }

  /** Specialisation preserves meaning: for every world, context and claim, the run of the
      specialised configuration makes the same visits and the same exchanges at the same
      times and ends in the same answer, even when its DAG timeout is changed. */
  lemma {:induction false} SpecialisationPreservesRuns(x: Session, cfg: Config, otherDag: int32, wire: Wire)
    ensures RunConfig(x, Specialise(cfg, x.tenantId).(timeoutMs := otherDag), wire) == RunConfig(x, cfg, wire)
  {
    SameJobs(Enrichment, cfg.timeoutMs, otherDag, x.tenantId, cfg.nodes);
    SameJobs(Scoring, cfg.timeoutMs, otherDag, x.tenantId, cfg.nodes);
    SameJobs(Publishing, cfg.timeoutMs, otherDag, x.tenantId, cfg.nodes);
  }

  /** Nothing is left to specialise afterwards: every remaining node is dispatched for every
      tenant, and specialising again, for any tenant, changes nothing. */
  lemma {:induction false} SpecialisedIsSettled(dag: int32, tenantId: string, other: string, nodes: seq<Node>)
    ensures forall n :: n in SpecialNodes(dag, tenantId, nodes) ==> Live(n, other)
    ensures SpecialNodes(dag, other, SpecialNodes(dag, tenantId, nodes)) == SpecialNodes(dag, tenantId, nodes)
  {
    if nodes != [] {
      var init, last := nodes[..|nodes| - 1], nodes[|nodes| - 1];
      var special := SpecialNodes(dag, tenantId, init);
      assert nodes == init + [last];
      SpecialisedIsSettled(dag, tenantId, other, init);
      SpecialSnoc(dag, tenantId, init, last);
      if Live(last, tenantId) {
        FilledIsSettled(dag, last, tenantId, other);
        SpecialSnoc(dag, other, special, Filled(dag, last));
      } else {
        assert SpecialNodes(dag, tenantId, nodes) == special;
      }
    }
  }

  lemma {:induction false} FilledIsSettled(dag: int32, n: Node, tenantId: string, other: string)
    requires Live(n, tenantId)
    ensures Live(Filled(dag, n), other)
    ensures Filled(dag, Filled(dag, n)) == Filled(dag, n)
  {
  }
}
