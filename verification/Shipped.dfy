/** The configuration shipped for acme_insurance / auto / claim.fnol. */
module Shipped {
  import opened DagConfig
  import opened Downstream
  import opened Plan
  import opened Runs

  const CLAIMANT_ID_HASH :=
    Node("claimant_id_hash", "claimant-id-hashing-svc", "enrichment", 40, 1, "fail_fast", [], [])
  const ADDRESS_NORMALIZE := Node("address_normalize", "address-normalization-svc", "enrichment", 40, 1, "skip", [], [])
  const POLICY_LOOKUP := Node("policy_lookup", "policy-lookup-svc", "enrichment", 40, 1, "degrade", [], [])
  const MODEL_SCORE := Node("model_score", "model-service", "", 80, 0, "", ["enrichment"], [])
  const PUBLISH := Node("publish", "kafka-publisher", "", 100, 0, "skip", ["model_score"], [])
  const SHIPPED := Config("acme_insurance", "auto", "claim.fnol", 4, 250,
                          [CLAIMANT_ID_HASH, ADDRESS_NORMALIZE, POLICY_LOOKUP, MODEL_SCORE, PUBLISH])

  /** The job of a node in a pass, if any. */
  function One(stage: Stage, dag: int32, tenantId: string, n: Node): seq<Job> {
    if Dispatched(stage, n, tenantId) then [JobOf(stage, dag, n)] else []
  }

  lemma {:induction false} JobsOfTwo(stage: Stage, dag: int32, tenantId: string, a: Node, b: Node)
    ensures Jobs(stage, dag, tenantId, [a, b]) == One(stage, dag, tenantId, a) + One(stage, dag, tenantId, b)
  {
    JobsSnoc(stage, dag, tenantId, [], a);
    JobsSnoc(stage, dag, tenantId, [a], b);
    assert [] + [a] == [a] && [a] + [b] == [a, b];
  }

  lemma {:induction false} JobsOfThree(stage: Stage, dag: int32, tenantId: string, a: Node, b: Node, c: Node)
    ensures Jobs(stage, dag, tenantId, [a, b, c]) ==
            One(stage, dag, tenantId, a) + One(stage, dag, tenantId, b) + One(stage, dag, tenantId, c)
  {
    JobsOfTwo(stage, dag, tenantId, a, b);
    JobsSnoc(stage, dag, tenantId, [a, b], c);
    assert [a, b] + [c] == [a, b, c];
  }

  lemma {:induction false} JobsOfFive(stage: Stage, dag: int32, tenantId: string, a: Node, b: Node, c: Node, d: Node,
                                      e: Node)
    ensures Jobs(stage, dag, tenantId, [a, b, c, d, e]) ==
            One(stage, dag, tenantId, a) + One(stage, dag, tenantId, b) + One(stage, dag, tenantId, c)
            + (One(stage, dag, tenantId, d) + One(stage, dag, tenantId, e))
  {
    JobsOfThree(stage, dag, tenantId, a, b, c);
    JobsOfTwo(stage, dag, tenantId, d, e);
    JobsAppend(stage, dag, tenantId, [a, b, c], [d, e]);
    assert [a, b, c] + [d, e] == [a, b, c, d, e];
  }

  lemma {:induction false} ShippedJobs(x: Session)
    ensures JobsIn(Enrichment, x, SHIPPED) ==
            [Job(Hasher, 40_000_000, 1, false), Job(Normalizer, 40_000_000, 1, true),
             Job(PolicyLookup, 40_000_000, 1, true)]
    ensures JobsIn(Scoring, x, SHIPPED) == [Job(Model, 80_000_000, 0, false)]
    ensures JobsIn(Publishing, x, SHIPPED) == [Job(Publisher, 100_000_000, 0, true)]
  {
    JobsOfFive(Enrichment, 250, x.tenantId, CLAIMANT_ID_HASH, ADDRESS_NORMALIZE, POLICY_LOOKUP, MODEL_SCORE, PUBLISH);
    JobsOfFive(Scoring, 250, x.tenantId, CLAIMANT_ID_HASH, ADDRESS_NORMALIZE, POLICY_LOOKUP, MODEL_SCORE, PUBLISH);
    JobsOfFive(Publishing, 250, x.tenantId, CLAIMANT_ID_HASH, ADDRESS_NORMALIZE, POLICY_LOOKUP, MODEL_SCORE, PUBLISH);
  }
}
