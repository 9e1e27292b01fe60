/** The staged executor itself: three passes over the node list that update the run's
    variables, proved to compute the run function. */
module Executors {
  import opened DagConfig
  import opened Downstream
  import opened Plan
  import opened Resilience
  import opened Runs

  datatype Loaded = Loaded(cfg: Config) | Unavailable(cause: string)

  method DependsOn(n: Node, name: string) returns (depends: bool)
    ensures depends == (name in n.dependsOn)
  {
    for i := 0 to |n.dependsOn|
      invariant name !in n.dependsOn[..i]
    {
      if n.dependsOn[i] == name {
        return true;
      }
    }
    return false;
  }

  class Executor {
    const world: World
    const load: (string, string, string) -> Loaded
    // What has gone over the wire, and the clock.
    var wire: Wire

    constructor (world: World, load: (string, string, string) -> Loaded, now: nat)
      ensures this.world == world && this.load == load && this.wire == Wire([], now)
    {
      this.world := world;
      this.load := load;
      this.wire := Wire([], now);
    }

    /** Sends one request under a context derived with `timeout` and waits for the answer. */
    method Invoke(ctx: Context, timeout: nat, req: Request) returns (outcome: Outcome)
      modifies this
      ensures Called(outcome, wire) == Attempt(world, ctx, timeout, req, old(wire))
    {
      var doneBy := DoneBy(ctx, wire.now, timeout);
      var reply := world.answer(wire.log, req, wire.now, doneBy);
      outcome := reply.outcome;
      var end := wire.now + reply.took;
      wire := Wire(wire.log + [Exchange(req, wire.now, doneBy, outcome, end)], end);
    }

    method CallWithResilience(ctx: Context, cfg: Config, node: Node, ghost stage: Stage, req: Request)
      returns (outcome: Outcome)
      requires Recognise(stage, node.service).Some?
      modifies this
      ensures Called(outcome, wire) == Call(world, ctx, JobOf(stage, cfg.timeoutMs, node), req, old(wire))
    {
      var timeout := NodeTimeout(cfg.timeoutMs, node) as nat;
      var retries := node.maxRetries as int;
      ghost var whole := Call(world, ctx, JobOf(stage, cfg.timeoutMs, node), req, wire);
      var lastErr := None;
      var attempt := 0;
      while attempt <= retries
        invariant 0 <= attempt
        invariant retries < 0 ==> attempt == 0 && lastErr.None? && whole == Called(Ok(Nil), wire)
        invariant 0 <= retries ==> attempt <= retries + 1
        invariant attempt <= retries ==> whole == Attempts(world, ctx, timeout, retries + 1 - attempt, req, wire)
        invariant 0 <= retries < attempt ==> lastErr.Some? && whole == Called(Err(lastErr.value), wire)
        decreases retries - attempt
      {
        outcome := Invoke(ctx, timeout, req);
        if outcome.Ok? {
          return;
        }
        lastErr := Some(outcome.error);
        if attempt < retries {
          if CutShort(world, ctx, wire) {
            wire := Interrupted(ctx, wire);
            return Err(ctx.cause);
          }
          wire := Rested(wire);
        }
        attempt := attempt + 1;
      }
      return if lastErr.Some? then Err(lastErr.value) else Ok(Nil);
    }

    /** The first pass: nodes with no dependencies. */
    method Enrich(ctx: Context, cfg: Config, tenantId: string, correlationId: string, claim: Claim)
      returns (failed: Option<Error>, status: string, normalizedAddress: string, claimantIdHash: string,
               policyStatus: string, policyCoverageType: string, addressValid: bool)
      modifies this
      ensures
        var x := Session(world, ctx, tenantId, correlationId, claim);
        var s := Drive(x, JobsIn(Enrichment, x, cfg), Start(x, old(wire)));
        && s.halted == failed && s.wire == wire
        && var vars := Vars(status, normalizedAddress, claimantIdHash,
                            policyStatus, policyCoverageType, addressValid, Nil);
           (failed.None? ==> s.vars == vars)
    {
      ghost var x := Session(world, ctx, tenantId, correlationId, claim);
      ghost var start := Start(x, wire);
      ghost var s := start;
      failed := None;
      status := SCORED;
      normalizedAddress := claim.rawAddress;
      claimantIdHash := "";
      policyStatus := "";
      policyCoverageType := "";
      addressValid := false;
      PassEnds(x, Enrichment, cfg, start);
      for i := 0 to |cfg.nodes|
        invariant s == PassTo(x, Enrichment, cfg, i, start)
        invariant failed.None? && s.halted.None? && s.wire == wire
        invariant s.vars ==
          Vars(status, normalizedAddress, claimantIdHash, policyStatus, policyCoverageType, addressValid, Nil)
      {
        var node := cfg.nodes[i];
        var enabled := EnabledForTenant(node, tenantId);
        if |node.dependsOn| != 0 || !enabled {
          PassSkips(x, Enrichment, cfg, i, start);
          continue;
        }
        var service := Recognise(Enrichment, node.service);
        if service.None? {
          PassSkips(x, Enrichment, cfg, i, start);
          continue;
        }
        assert Dispatched(Enrichment, node, tenantId);
        var req :=
          if service.value == Hasher then HashRequest(correlationId, claim.claimantName)
          else if service.value == Normalizer then NormalizeRequest(correlationId, claim.rawAddress)
          else LookupRequest(correlationId, claim.policyNumber);
        assert req == RequestFor(x, service.value, s.vars);
        var outcome := CallWithResilience(ctx, cfg, node, Enrichment, req);
        PassCalls(x, Enrichment, cfg, i, start, Called(outcome, wire));
        s := PassTo(x, Enrichment, cfg, i + 1, start);
        if outcome.Err? {
          if !Tolerant(node) {
            HaltedMidway(x, Enrichment, cfg, i + 1, start);
            failed := Some(outcome.error);
            return;
          }
          status := DEGRADED;
          continue;
        }
        var resp := outcome.resp;
        if service.value == Hasher {
          claimantIdHash := resp.GetHash();
        } else if service.value == Normalizer {
          normalizedAddress := resp.GetAddress();
          addressValid := resp.GetValid();
        } else {
          policyStatus := resp.GetStatus();
          policyCoverageType := resp.GetCoverage();
        }
      }
    }

    /** The second pass: nodes depending on the enrichment group. `before` is the run so far. */
    method ScoreNodes(ctx: Context, cfg: Config, tenantId: string, correlationId: string, claim: Claim,
                      claimantIdHash: string, normalizedAddress: string, policyStatus: string,
                      policyCoverageType: string, addressValid: bool, ghost before: State)
      returns (failed: Option<Error>, scoreResp: Response)
      requires before.halted.None? && before.wire == wire
      requires before.vars ==
        Vars(before.vars.status, normalizedAddress, claimantIdHash, policyStatus, policyCoverageType, addressValid, Nil)
      modifies this
      ensures
        var x := Session(world, ctx, tenantId, correlationId, claim);
        var s := Drive(x, JobsIn(Scoring, x, cfg), before);
        && s.halted == failed && s.wire == wire
        && (failed.None? ==> s.vars == before.vars.(score := scoreResp))
    {
      ghost var x := Session(world, ctx, tenantId, correlationId, claim);
      ghost var s := before;
      failed := None;
      scoreResp := Nil;
      PassEnds(x, Scoring, cfg, before);
      for i := 0 to |cfg.nodes|
        invariant s == PassTo(x, Scoring, cfg, i, before)
        invariant failed.None? && s.halted.None? && s.wire == wire
        invariant s.vars == before.vars.(score := scoreResp)
      {
        var node := cfg.nodes[i];
        var depends := DependsOn(node, GROUP_ENRICHMENT);
        var enabled := EnabledForTenant(node, tenantId);
        if !depends || !enabled {
          PassSkips(x, Scoring, cfg, i, before);
          continue;
        }
        if node.service == "model-service" {
          assert Dispatched(Scoring, node, tenantId);
          var features := map[
            "tenant_id" := tenantId,
            "product" := claim.product,
            "event_type" := claim.eventType,
            "policy_number" := claim.policyNumber,
            "claimant_id_hash" := claimantIdHash,
            "normalized_address" := normalizedAddress,
            "policy_status" := policyStatus,
            "policy_coverage_type" := policyCoverageType,
            "address_valid" := FormatBool(addressValid)];
          assert features == Features(x, s.vars);
          var outcome := CallWithResilience(ctx, cfg, node, Scoring, ScoreRequest(correlationId, features));
          PassCalls(x, Scoring, cfg, i, before, Called(outcome, wire));
          s := PassTo(x, Scoring, cfg, i + 1, before);
          if outcome.Err? {
            if !Tolerant(node) {
              HaltedMidway(x, Scoring, cfg, i + 1, before);
              failed := Some(outcome.error);
              return;
            }
            continue;
          }
          scoreResp := if outcome.resp.ScoreResponse? then outcome.resp else Nil;
        } else {
          PassSkips(x, Scoring, cfg, i, before);
        }
      }
    }

    /** The third pass: nodes depending on the model score. `before` is the run so far. */
    method PublishNodes(ctx: Context, cfg: Config, tenantId: string, correlationId: string, claim: Claim,
                        statusBefore: string, scoreResp: Response, ghost before: State)
      returns (failed: Option<Error>, status: string)
      requires before.halted.None? && before.wire == wire
      requires before.vars.status == statusBefore && before.vars.score == scoreResp
      modifies this
      ensures
        var x := Session(world, ctx, tenantId, correlationId, claim);
        var s := Drive(x, JobsIn(Publishing, x, cfg), before);
        && s.halted == failed && s.wire == wire
        && (failed.None? ==> s.vars == before.vars.(status := status))
    {
      ghost var x := Session(world, ctx, tenantId, correlationId, claim);
      ghost var s := before;
      failed := None;
      status := statusBefore;
      PassEnds(x, Publishing, cfg, before);
      for i := 0 to |cfg.nodes|
        invariant s == PassTo(x, Publishing, cfg, i, before)
        invariant failed.None? && s.halted.None? && s.wire == wire
        invariant s.vars == before.vars.(status := status)
      {
        var node := cfg.nodes[i];
        var depends := DependsOn(node, NODE_MODEL_SCORE);
        var enabled := EnabledForTenant(node, tenantId);
        if !depends || !enabled {
          PassSkips(x, Publishing, cfg, i, before);
          continue;
        }
        if node.service == "kafka-publisher" {
          assert Dispatched(Publishing, node, tenantId);
          var event := Event(claim.claimId, correlationId, tenantId, status,
                             scoreResp.GetScore(), scoreResp.GetVersion());
          assert PublishRequest(event) == RequestFor(x, Publisher, s.vars);
          var outcome := CallWithResilience(ctx, cfg, node, Publishing, PublishRequest(event));
          PassCalls(x, Publishing, cfg, i, before, Called(outcome, wire));
          s := PassTo(x, Publishing, cfg, i + 1, before);
          if outcome.Err? {
            if !Tolerant(node) {
              HaltedMidway(x, Publishing, cfg, i + 1, before);
              failed := Some(outcome.error);
              return;
            }
            status := DEGRADED;
            continue;
          }
        } else {
          PassSkips(x, Publishing, cfg, i, before);
        }
      }
    }

    /** Runs the configured DAG for a claim. The answer and everything sent downstream are
        those of `RunConfig`; a configuration that does not load sends nothing. */
    method Run(ctx: Context, tenantId: string, correlationId: string, claim: Claim) returns (answer: Answer)
      modifies this
      ensures
        match load(tenantId, claim.product, claim.eventType)
        case Unavailable(cause) => answer == Failure(LoadFailed(cause)) && wire == old(wire)
        case Loaded(cfg) =>
          var final := RunConfig(Session(world, ctx, tenantId, correlationId, claim), cfg, old(wire));
          answer == AnswerOf(final) && wire == final.wire
    {
      ghost var x := Session(world, ctx, tenantId, correlationId, claim);
      var loaded := load(tenantId, claim.product, claim.eventType);
      if loaded.Unavailable? {
        return Failure(LoadFailed(loaded.cause));
      }
      var cfg := loaded.cfg;

      var failed, status, normalizedAddress, claimantIdHash, policyStatus, policyCoverageType, addressValid :=
        Enrich(ctx, cfg, tenantId, correlationId, claim);
      ghost var enriched := Drive(x, JobsIn(Enrichment, x, cfg), Start(x, old(wire)));
      if failed.Some? {
        DriveHalted(x, JobsIn(Scoring, x, cfg), enriched);
        DriveHalted(x, JobsIn(Publishing, x, cfg), enriched);
        return Failure(failed.value);
      }

      var scoreResp;
      failed, scoreResp := ScoreNodes(ctx, cfg, tenantId, correlationId, claim, claimantIdHash, normalizedAddress,
                                      policyStatus, policyCoverageType, addressValid, enriched);
      ghost var scored := Gate(Drive(x, JobsIn(Scoring, x, cfg), enriched));
      if failed.Some? {
        DriveHalted(x, JobsIn(Publishing, x, cfg), scored);
        return Failure(failed.value);
      }
      if scoreResp.Nil? {
        DriveHalted(x, JobsIn(Publishing, x, cfg), scored);
        return Failure(NoModelScore);
      }

      failed, status := PublishNodes(ctx, cfg, tenantId, correlationId, claim, status, scoreResp, scored);
      if failed.Some? {
        return Failure(failed.value);
      }
      return Success(Result(status, normalizedAddress, scoreResp.GetScore(), scoreResp.GetVersion()));
    }
  }
}
