/** Exactly when every model call carries the hash that the hashing service gave last. */
module HashGuarantee {
  import opened DagConfig
  import opened Downstream
  import opened Plan
  import opened Runs
  import opened Ledger
  import opened TraceLaws
  import opened Scripts

  /** A fail_fast hashing job that sends requests, with none after it that does not. */
  ghost predicate HashSure(e: seq<Job>) {
    exists j :: 0 <= j < |e| && Guards(e, j)
  }

  ghost predicate Guards(e: seq<Job>, j: int)
    requires 0 <= j < |e|
  {
    && e[j].service == Hasher && !e[j].tolerant && e[j].maxRetries >= 0
    && forall l :: j < l < |e| && e[l].service == Hasher ==> e[l].maxRetries >= 0
  }

  /** Exchange `h` of this run is a hashing call that was answered with `hash`. */
  ghost predicate Hashed(x: Session, log: seq<Exchange>, h: nat, hash: string) {
    && h < |log|
    && log[h].req == HashRequest(x.correlationId, x.claim.claimantName)
    && log[h].outcome.Ok? && log[h].outcome.resp.GetHash() == hash
  }

  /** No hashing call between exchanges `h` and `i` was answered. */
  ghost predicate NoneBetween(log: seq<Exchange>, h: nat, i: nat) {
    forall l :: h < l < i < |log| && log[l].req.HashRequest? ==> log[l].outcome.Err?
  }

  /** Exchange `i` asks for a score with the hash of the last answered hashing call since `base`. */
  ghost predicate Backed(x: Session, log: seq<Exchange>, base: nat, i: nat)
    requires i < |log|
  {
    && log[i].req.ScoreRequest? && "claimant_id_hash" in log[i].req.features
    && exists h: nat ::
         base <= h < i && Hashed(x, log, h, log[i].req.features["claimant_id_hash"]) && NoneBetween(log, h, i)
  }

  /** Exchange `i` asks for a score with a hash that no hashing call of this run gave. */
  ghost predicate Unheard(x: Session, log: seq<Exchange>, i: nat)
    requires i < |log|
  {
    && log[i].req.ScoreRequest? && "claimant_id_hash" in log[i].req.features
    && forall h: nat :: !Hashed(x, log, h, log[i].req.features["claimant_id_hash"])
  }

  /** What hashing and model visits ask: the claimant's name, and a score for the hash of the
      last successful hashing visit. */
  ghost predicate Carries(x: Session, visits: seq<Visit>, k: int)
    requires 0 <= k < |visits|
  {
    && (visits[k].job.service == Hasher ==> visits[k].req == HashRequest(x.correlationId, x.claim.claimantName))
    && (visits[k].job.service == Model ==>
          && visits[k].req.ScoreRequest?
          && "claimant_id_hash" in visits[k].req.features
          && visits[k].req.features["claimant_id_hash"] ==
             match LastOk(visits[..k], Hasher) case None => "" case Some(resp) => resp.GetHash())
  }

  ghost predicate AllCarry(x: Session, visits: seq<Visit>) {
    forall k :: 0 <= k < |visits| ==> Carries(x, visits, k)
  }

  /** Every model visit carries the hash of the last successful hashing visit. */
  lemma {:induction false} ModelSeesTheHash(x: Session, visits: seq<Visit>)
    requires Asked(x, visits)
    ensures AllCarry(x, visits) && Routed(visits)
  {
    AskedIsRouted(x, visits);
    forall k | 0 <= k < |visits|
      ensures Carries(x, visits, k)
    {
      AskedAt(x, visits, k);
    }
  }

  /** A model visit comes after all enrichment visits. */
  lemma {:induction false} ModelAfterEnrichment(e: seq<Job>, m: seq<Job>, p: seq<Job>, k: nat)
    requires Staged(e, m, p) && k < |e + m + p| && (e + m + p)[k].service == Model
    ensures |e| <= k
  {
    forall i | 0 <= i < |e|
      ensures (e + m + p)[i] in e
    {
    }
  }

  /** With a guard the last successful hashing visit is one that sent its request. */
  lemma {:induction false} GuardedHash(e: seq<Job>, rest: seq<Job>, visits: seq<Visit>, k: nat, j: nat) returns (h: nat)
    requires j < |e| <= k < |visits| <= |e + rest| && Guards(e, j)
    requires forall i :: 0 <= i < |visits| ==> visits[i].job == (e + rest)[i]
    requires forall i :: 0 <= i < k ==> !visits[i].Fatal()
    requires forall job :: job in rest ==> job.service != Hasher
    ensures LastOk(visits[..k], Hasher).Some?
    ensures h < k && visits[h].job.service == Hasher && visits[h].job.maxRetries >= 0
    ensures visits[h].outcome == Ok(LastOk(visits[..k], Hasher).value)
    ensures forall l :: h < l < k && visits[l].job.service == Hasher ==> visits[l].outcome.Err?
  {
    assert visits[..k][j] == visits[j] && visits[j].job == e[j];
    LastOkMissing(visits[..k], Hasher);
    h := LastOkFound(visits[..k], Hasher);
    assert visits[..k][h] == visits[h];
    assert forall l :: h < l < k ==> visits[..k][l] == visits[l];
    forall i | |e| <= i < |visits|
      ensures visits[i].job.service != Hasher
    {
      assert (e + rest)[i] in rest;
    }
    assert visits[h].job == e[h] && h >= j;
  }

  /** The exchange that gave the answer of a successful hashing visit. */
  lemma {:induction false} VisitGaveHash(x: Session, base: nat, visits: seq<Visit>, wire: Wire, h: nat,
                                         k: nat) returns (i: nat)
    requires Tiled(x.ctx, base, visits, wire) && h < k < |visits|
    requires visits[h].req == HashRequest(x.correlationId, x.claim.claimantName)
    requires visits[h].outcome.Ok? && visits[h].job.maxRetries >= 0
    ensures base <= i < visits[k].from <= |wire.log| && Hashed(x, wire.log, i, visits[h].outcome.resp.GetHash())
    ensures i == visits[h].to - 1
  {
    assert Tile(x.ctx, wire.log, visits[h]) && Tile(x.ctx, wire.log, visits[k]);
    TilesInOrder(x.ctx, base, visits, wire, h, k);
    if h > 0 {
      TilesInOrder(x.ctx, base, visits, wire, 0, h);
      assert Tile(x.ctx, wire.log, visits[0]);
    }
    i := visits[h].to - 1;
  }

  /** After the last successful hashing visit before `k`, no hashing call is answered up to
      the calls of `k`. */
  lemma {:induction false} NoneAfter(ctx: Context, base: nat, visits: seq<Visit>, wire: Wire, h: nat, k: nat, l: nat)
    requires Tiled(ctx, base, visits, wire) && Routed(visits) && h < k < |visits|
    requires visits[k].job.service == Model
    requires forall i :: h < i < k && visits[i].job.service == Hasher ==> visits[i].outcome.Err?
    requires base <= l < |wire.log| && visits[h].to <= l < visits[k].to && wire.log[l].req.HashRequest?
    ensures wire.log[l].outcome.Err?
  {
    var v := SenderOf(ctx, base, visits, wire, l);
    assert Tile(ctx, wire.log, visits[h]);
    if v < h {
      TilesInOrder(ctx, base, visits, wire, v, h);
    } else if v > k {
      TilesInOrder(ctx, base, visits, wire, k, v);
    }
  }

  /** The visits of a run over `e + rest`, all but the last not fatal. */
  ghost predicate Visited(e: seq<Job>, rest: seq<Job>, visits: seq<Visit>) {
    && |visits| <= |e + rest|
    && (forall i :: 0 <= i < |visits| ==> visits[i].job == (e + rest)[i])
    && (forall i :: 0 <= i < |visits| - 1 ==> !visits[i].Fatal())
    && (forall job :: job in rest ==> job.service != Hasher)
  }

  lemma {:induction false} VisitIsBacked(x: Session, base: nat, e: seq<Job>, rest: seq<Job>, visits: seq<Visit>,
                                         wire: Wire, k: nat, i: nat)
    requires Tiled(x.ctx, base, visits, wire) && AllCarry(x, visits) && Routed(visits) && Visited(e, rest, visits)
    requires HashSure(e) && |e| <= k < |visits| && visits[k].job.service == Model
    requires visits[k].from <= i < visits[k].to
    ensures i < |wire.log| && Backed(x, wire.log, base, i)
  {
    InTile(x.ctx, wire.log, visits[k], i);
    assert Carries(x, visits, k);
    var j :| 0 <= j < |e| && Guards(e, j);
    var h := GuardedHash(e, rest, visits, k, j);
    assert Carries(x, visits, h);
    var gave := VisitGaveHash(x, base, visits, wire, h, k);
    forall l | gave < l < i && wire.log[l].req.HashRequest?
      ensures wire.log[l].outcome.Err?
    {
      NoneAfter(x.ctx, base, visits, wire, h, k, l);
    }
    assert Hashed(x, wire.log, gave, wire.log[i].req.features["claimant_id_hash"]);
  }

  lemma {:induction false} RunIsVisited(x: Session, e: seq<Job>, m: seq<Job>, p: seq<Job>, wire: Wire)
    requires Staged(e, m, p)
    ensures Visited(e, m + p, RunJobs(x, e, m, p, wire).visits)
    ensures AllCarry(x, RunJobs(x, e, m, p, wire).visits) && Routed(RunJobs(x, e, m, p, wire).visits)
  {
    RunKeeps(x, e, m, p, wire);
    ShapeIsVisited(e, m, p, |e + m|, RunJobs(x, e, m, p, wire));
    ModelSeesTheHash(x, RunJobs(x, e, m, p, wire).visits);
  }

  lemma {:induction false} ShapeIsVisited(e: seq<Job>, m: seq<Job>, p: seq<Job>, gate: nat, s: State)
    requires Staged(e, m, p) && Shape(e + m + p, gate, s)
    ensures Visited(e, m + p, s.visits)
  {
    assert e + (m + p) == e + m + p;
  }

  /** With a guard every model call carries the hash of the last hashing call of its run that
      was answered before it. */
  lemma {:induction false} ModelCallsAreBacked(x: Session, e: seq<Job>, m: seq<Job>, p: seq<Job>, wire: Wire, i: nat)
    requires Staged(e, m, p) && HashSure(e)
    requires |wire.log| <= i < |RunJobs(x, e, m, p, wire).wire.log|
    requires RunJobs(x, e, m, p, wire).wire.log[i].req.ScoreRequest?
    ensures Backed(x, RunJobs(x, e, m, p, wire).wire.log, |wire.log|, i)
  {
    var s := RunJobs(x, e, m, p, wire);
    RunTiles(x, e, m, p, wire);
    RunIsVisited(x, e, m, p, wire);
    var k := SenderOf(x.ctx, |wire.log|, s.visits, s.wire, i);
    assert e + (m + p) == e + m + p;
    ModelAfterEnrichment(e, m, p, k);
    VisitIsBacked(x, |wire.log|, e, m + p, s.visits, s.wire, k, i);
  }

  /** A fail_fast hashing job has succeeded before any model visit, if only by sending
      nothing. */
  lemma {:induction false} FailFastHashSucceeded(x: Session, e: seq<Job>, m: seq<Job>, p: seq<Job>, wire: Wire,
                                                 j: nat, k: nat)
    requires Staged(e, m, p) && j < |e| && e[j].service == Hasher && !e[j].tolerant
    requires k < |RunJobs(x, e, m, p, wire).visits| && RunJobs(x, e, m, p, wire).visits[k].job.service == Model
    ensures LastOk(RunJobs(x, e, m, p, wire).visits[..k], Hasher).Some?
  {
    var visits := RunJobs(x, e, m, p, wire).visits;
    RunIsVisited(x, e, m, p, wire);
    assert e + (m + p) == e + m + p;
    ModelAfterEnrichment(e, m, p, k);
    LastOkMissing(visits[..k], Hasher);
    assert visits[..k][j] == visits[j] && visits[j].job == (e + (m + p))[j] == e[j];
  }

  // ---- without a guard ----

  /** Every hashing call before `at` is answered "h", the later ones are lost. */
  function HashThenLost(at: nat): nat -> Outcome {
    (n: nat) => if n < at then Ok(HashResponse("h")) else LOST
  }

  lemma {:induction false} HashThenLostAt(at: nat, n: nat)
    ensures HashThenLost(at)(n) == if n < at then Ok(HashResponse("h")) else LOST
  {
  }

  /** Where the losable hashing jobs at the end of the list begin. */
  lemma {:induction false} LastUnlosable(e: seq<Job>) returns (cut: nat)
    ensures cut <= |e|
    ensures forall k :: cut <= k < |e| && e[k].service == Hasher ==> Losable(e[k])
    ensures cut > 0 ==> e[cut - 1].service == Hasher && !Losable(e[cut - 1])
  {
    cut := |e|;
    while cut > 0 && !(e[cut - 1].service == Hasher && !Losable(e[cut - 1]))
      invariant cut <= |e|
      invariant forall k :: cut <= k < |e| && e[k].service == Hasher ==> Losable(e[k])
    {
      cut := cut - 1;
    }
  }

  /** Without a guard, losing every losable hashing job leaves no hash. */
  lemma {:induction false} UnguardedHashIsEmpty(x: Session, e: seq<Job>, visits: seq<Visit>, cut: nat)
    requires !HashSure(e) && |visits| >= |e| && cut <= |e|
    requires forall k :: cut <= k < |e| && e[k].service == Hasher ==> Losable(e[k])
    requires cut > 0 ==> e[cut - 1].service == Hasher && !Losable(e[cut - 1])
    requires forall k :: 0 <= k < |e| ==> visits[k].job == e[k]
    requires forall k :: 0 <= k < |e| ==>
               visits[k].outcome == Due(x, Hasher, HashThenLost(Sending(e[..cut])), e, cut, k)
    requires forall k :: |e| <= k < |visits| ==> visits[k].job.service != Hasher
    ensures match LastOk(visits, Hasher) case None => true case Some(resp) => resp == Nil
  {
    LastOkMissing(visits, Hasher);
    if LastOk(visits, Hasher).Some? {
      var h := LastOkFound(visits, Hasher);
      assert h < cut;
      assert !Guards(e, cut - 1);
      assert e[cut - 1].maxRetries < 0;
      assert visits[cut - 1].outcome == Ok(Nil);
      assert h == cut - 1;
    }
  }

  /** In such a run no hashing call is answered with anything but "h". */
  lemma {:induction false} OnlyHashIsH(x: Session, base: nat, visits: seq<Visit>, wire: Wire, h: nat, hash: string)
    requires Tiled(x.ctx, base, visits, wire) && AllCarry(x, visits) && Routed(visits)
    requires forall k :: 0 <= k < |visits| && visits[k].job.service == Hasher && visits[k].job.maxRetries >= 0 ==>
               visits[k].outcome == Ok(HashResponse("h")) || visits[k].outcome == LOST
    requires base <= h && Hashed(x, wire.log, h, hash)
    ensures hash == "h"
  {
    var k := SenderOf(x.ctx, base, visits, wire, h);
  }

  lemma {:induction false} HashRigCuts(e: seq<Job>, cut: nat)
    requires cut <= |e| && forall k :: cut <= k < |e| && e[k].service == Hasher ==> Losable(e[k])
    ensures Cuts(Hasher, HashThenLost(Sending(e[..cut])), e, cut)
  {
    forall n: nat
      ensures HashThenLost(Sending(e[..cut]))(n) == if n < Sending(e[..cut]) then Ok(HashResponse("h")) else LOST
    {
      HashThenLostAt(Sending(e[..cut]), n);
    }
  }

  /** What is due to the hashing jobs under that rigging. */
  lemma {:induction false} HashDue(x: Session, e: seq<Job>, cut: nat, k: nat)
    requires cut <= |e| && k < |e| && e[k].service == Hasher && e[k].maxRetries >= 0
    ensures
      var o := Due(x, Hasher, HashThenLost(Sending(e[..cut])), e, cut, k);
      o == (if k < cut then Ok(HashResponse("h")) else LOST)
  {
    HashThenLostAt(Sending(e[..cut]), Sending(e[..k]));
    if k < cut {
      SendingGrows(e, k, cut);
    }
  }

  /** Without a guard, if some model job sends requests, some run makes a model call with a
      hash that no hashing call gave. */
  lemma {:induction false} UnguardedCallIsUnbacked(base: Session, e: seq<Job>, m: seq<Job>, p: seq<Job>, l: nat)
      returns (x: Session, i: nat)
    requires Staged(e, m, p) && !HashSure(e) && l < |m| && m[l].maxRetries >= 0
    ensures x == base.(ctx := Background, world := x.world)
    ensures
      var log := RunJobs(x, e, m, p, Wire([], 0)).wire.log;
      i < |log| && Unheard(x, log, i)
  {
    var cut := LastUnlosable(e);
    var g := HashThenLost(Sending(e[..cut]));
    x := base.(ctx := Background, world := Scripted(Rig(Hasher, g), false));
    HashRigCuts(e, cut);
    ScriptedRun(x, Hasher, g, cut, e, m, p);
    RunTiles(x, e, m, p, Wire([], 0));
    RunIsVisited(x, e, m, p, Wire([], 0));
    i := UnbackedCall(x, e, m, p, cut, l, RunJobs(x, e, m, p, Wire([], 0)));
  }

  lemma {:induction false} ModelVisit(e: seq<Job>, m: seq<Job>, p: seq<Job>, l: nat, visits: seq<Visit>)
    requires Staged(e, m, p) && l < |m| && Visited(e, m + p, visits) && |visits| >= |e + m|
    ensures visits[|e| + l].job == m[l] && m[l].service == Model
    ensures forall job :: job in m + p ==> job.service != Hasher
  {
    assert visits[|e| + l].job == (e + (m + p))[|e| + l];
    assert m[l] in m;
  }

  /** The enrichment visits of a run that loses every losable hashing job from `cut` on. */
  ghost predicate LosesHashes(x: Session, e: seq<Job>, cut: nat, visits: seq<Visit>) {
    && cut <= |e| <= |visits|
    && (forall k :: cut <= k < |e| && e[k].service == Hasher ==> Losable(e[k]))
    && (cut > 0 ==> e[cut - 1].service == Hasher && !Losable(e[cut - 1]))
    && (forall k :: 0 <= k < |e| ==>
          visits[k].outcome == Due(x, Hasher, HashThenLost(Sending(e[..cut])), e, cut, k))
  }

  lemma {:induction false} NoHashBefore(x: Session, e: seq<Job>, rest: seq<Job>, cut: nat, visits: seq<Visit>, k: nat)
    requires !HashSure(e) && LosesHashes(x, e, cut, visits) && Visited(e, rest, visits)
    requires |e| <= k <= |visits|
    ensures match LastOk(visits[..k], Hasher) case None => true case Some(resp) => resp == Nil
  {
    HashVisits(x, e, rest, visits, cut);
    UnguardedHashIsEmpty(x, e, visits[..k], cut);
  }

  lemma {:induction false} UnbackedCall(x: Session, e: seq<Job>, m: seq<Job>, p: seq<Job>, cut: nat, l: nat, s: State)
      returns (i: nat)
    requires Staged(e, m, p) && !HashSure(e) && l < |m| && m[l].maxRetries >= 0
    requires LosesHashes(x, e, cut, s.visits)
    requires Visited(e, m + p, s.visits) && AllCarry(x, s.visits) && Routed(s.visits) && |s.visits| >= |e + m|
    requires Tiled(x.ctx, 0, s.visits, s.wire)
    ensures i < |s.wire.log| && Unheard(x, s.wire.log, i)
  {
    var k := |e| + l;
    ModelVisit(e, m, p, l, s.visits);
    NoHashBefore(x, e, m + p, cut, s.visits, k);
    HashVisits(x, e, m + p, s.visits, cut);
    i := EmptyHashCall(x, s.visits, s.wire, k);
  }

  lemma {:induction false} SendsAtLeastOnce(ctx: Context, log: seq<Exchange>, v: Visit)
    requires Tile(ctx, log, v) && v.job.maxRetries >= 0
    ensures v.from < v.to
  {
  }

  /** A model call without a hash is unheard of when every given hash is "h". */
  lemma {:induction false} EmptyHashCall(x: Session, visits: seq<Visit>, wire: Wire, k: nat) returns (i: nat)
    requires Tiled(x.ctx, 0, visits, wire) && AllCarry(x, visits) && Routed(visits)
    requires k < |visits| && visits[k].job.service == Model && visits[k].job.maxRetries >= 0
    requires match LastOk(visits[..k], Hasher) case None => true case Some(resp) => resp == Nil
    requires forall k :: 0 <= k < |visits| && visits[k].job.service == Hasher && visits[k].job.maxRetries >= 0 ==>
               visits[k].outcome == Ok(HashResponse("h")) || visits[k].outcome == LOST
    ensures i < |wire.log| && Unheard(x, wire.log, i)
  {
    i := visits[k].from;
    assert Carries(x, visits, k);
    SendsAtLeastOnce(x.ctx, wire.log, visits[k]);
    InTile(x.ctx, wire.log, visits[k], i);
    forall h: nat, hash | Hashed(x, wire.log, h, hash)
      ensures hash == "h"
    {
      OnlyHashIsH(x, 0, visits, wire, h, hash);
    }
  }

  lemma {:induction false} HashVisits(x: Session, e: seq<Job>, rest: seq<Job>, visits: seq<Visit>, cut: nat)
    requires Visited(e, rest, visits) && |visits| >= |e| && cut <= |e|
    requires forall k :: 0 <= k < |e| ==>
               visits[k].outcome == Due(x, Hasher, HashThenLost(Sending(e[..cut])), e, cut, k)
    ensures forall k :: 0 <= k < |e| ==> visits[k].job == e[k]
    ensures forall k :: |e| <= k < |visits| ==> visits[k].job.service != Hasher
    ensures forall k :: 0 <= k < |visits| && visits[k].job.service == Hasher && visits[k].job.maxRetries >= 0 ==>
              visits[k].outcome == Ok(HashResponse("h")) || visits[k].outcome == LOST
  {
    forall k | 0 <= k < |visits|
      ensures k < |e| ==> visits[k].job == e[k]
      ensures k >= |e| ==> visits[k].job in rest
    {
      assert visits[k].job == (e + rest)[k];
    }
    forall k | 0 <= k < |e| && e[k].service == Hasher && e[k].maxRetries >= 0
      ensures visits[k].outcome == Ok(HashResponse("h")) || visits[k].outcome == LOST
    {
      HashDue(x, e, cut, k);
    }
  }

  // ---- exactly ----

  /** In every run of the tenant every model call carries the hash that was given last. */
  ghost predicate AlwaysBacked(tenantId: string, e: seq<Job>, m: seq<Job>, p: seq<Job>) {
    forall x: Session, wire: Wire, i: nat ::
      x.tenantId == tenantId && CallsModel(x, e, m, p, wire, i) ==>
        Backed(x, RunJobs(x, e, m, p, wire).wire.log, |wire.log|, i)
  }

  ghost predicate CallsModel(x: Session, e: seq<Job>, m: seq<Job>, p: seq<Job>, wire: Wire, i: nat) {
    var log := RunJobs(x, e, m, p, wire).wire.log;
    |wire.log| <= i < |log| && log[i].req.ScoreRequest?
  }

  lemma {:induction false} JobsBackedExactly(tenantId: string, e: seq<Job>, m: seq<Job>, p: seq<Job>)
    requires Staged(e, m, p)
    ensures AlwaysBacked(tenantId, e, m, p) <==> HashSure(e) || forall job :: job in m ==> job.maxRetries < 0
  {
    if HashSure(e) {
      forall x: Session, wire: Wire, i: nat | CallsModel(x, e, m, p, wire, i)
        ensures Backed(x, RunJobs(x, e, m, p, wire).wire.log, |wire.log|, i)
      {
        ModelCallsAreBacked(x, e, m, p, wire, i);
      }
    } else if exists job :: job in m && job.maxRetries >= 0 {
      var l :| 0 <= l < |m| && m[l].maxRetries >= 0;
      var base := Sample(tenantId);
      var x, i := UnguardedCallIsUnbacked(base, e, m, p, l);
      assert CallsModel(x, e, m, p, Wire([], 0), i);
    } else {
      forall x: Session, wire: Wire, i: nat
        ensures !CallsModel(x, e, m, p, wire, i)
      {
        SilentModel(x, e, m, p, wire, i);
      }
    }
  }

  lemma {:induction false} SilentModel(x: Session, e: seq<Job>, m: seq<Job>, p: seq<Job>, wire: Wire, i: nat)
    requires Staged(e, m, p) && forall job :: job in m ==> job.maxRetries < 0
    ensures !CallsModel(x, e, m, p, wire, i)
  {
    if CallsModel(x, e, m, p, wire, i) {
      var k := ModelCallVisit(x, e, m, p, wire, i);
      assert false;
    }
  }

  /** The job behind a model call sends requests. */
  lemma {:induction false} ModelCallVisit(x: Session, e: seq<Job>, m: seq<Job>, p: seq<Job>, wire: Wire, i: nat)
      returns (job: Job)
    requires Staged(e, m, p) && CallsModel(x, e, m, p, wire, i)
    ensures job in m && job.maxRetries >= 0
  {
    var s := RunJobs(x, e, m, p, wire);
    RunTiles(x, e, m, p, wire);
    RunIsVisited(x, e, m, p, wire);
    assert e + (m + p) == e + m + p;
    var k := SenderOf(x.ctx, |wire.log|, s.visits, s.wire, i);
    job := s.visits[k].job;
    ModelJobIn(e, m, p, k);
  }

  lemma {:induction false} ModelJobIn(e: seq<Job>, m: seq<Job>, p: seq<Job>, k: nat)
    requires Staged(e, m, p) && k < |e + m + p| && (e + m + p)[k].service == Model
    ensures (e + m + p)[k] in m
  {
    forall i | 0 <= i < |e + m + p|
      ensures (e + m + p)[i] in if i < |e| then e else if i < |e + m| then m else p
    {
    }
  }

  /** Every model call of every run of a configuration carries the hash the service gave last
      exactly when a fail_fast hashing node that sends requests is dispatched, with none after it
      that sends nothing, or when no model node sends anything. */
  lemma {:induction false} HashIsBackedExactly(cfg: Config, tenantId: string)
    ensures
      var jobs := (stage: Stage) => Jobs(stage, cfg.timeoutMs, tenantId, cfg.nodes);
      AlwaysBacked(tenantId, jobs(Enrichment), jobs(Scoring), jobs(Publishing)) <==>
      HashSure(jobs(Enrichment)) || forall job :: job in jobs(Scoring) ==> job.maxRetries < 0
  {
    TenantIsStaged(cfg, tenantId);
    JobsBackedExactly(tenantId,
      Jobs(Enrichment, cfg.timeoutMs, tenantId, cfg.nodes),
      Jobs(Scoring, cfg.timeoutMs, tenantId, cfg.nodes),
      Jobs(Publishing, cfg.timeoutMs, tenantId, cfg.nodes));
  }
}
