/** What goes over the wire, and what a run answers, written out field by field. */
module Payloads {
  import opened Downstream
  import opened Plan
  import opened Runs
  import opened Ledger
  import opened TraceLaws

  // ---- what is kept of the answers so far ----

  /** No visit to the service has succeeded. */
  ghost predicate NoneKept(before: seq<Visit>, service: Service) {
    forall k :: 0 <= k < |before| && before[k].job.service == service ==> before[k].outcome.Err?
  }

  /** The last visit to the service that succeeded brought `resp`. */
  ghost predicate Kept(before: seq<Visit>, service: Service, resp: Response) {
    exists k: nat :: LastSuccess(before, service, k) && before[k].outcome == Ok(resp)
  }

  ghost predicate AddressKept(x: Session, before: seq<Visit>, address: string) {
    || (NoneKept(before, Normalizer) && address == x.claim.rawAddress)
    || exists resp :: Kept(before, Normalizer, resp)
                      && address == if resp.NormalizeResponse? then resp.normalizedAddress else ""
  }

  ghost predicate ValidityKept(before: seq<Visit>, valid: string) {
    || (NoneKept(before, Normalizer) && valid == "false")
    || exists resp :: Kept(before, Normalizer, resp)
                      && valid == if resp.NormalizeResponse? && resp.valid then "true" else "false"
  }

  ghost predicate HashKept(before: seq<Visit>, hash: string) {
    || (NoneKept(before, Hasher) && hash == "")
    || exists resp :: Kept(before, Hasher, resp)
                      && hash == if resp.HashResponse? then resp.claimantIdHash else ""
  }

  ghost predicate PolicyStatusKept(before: seq<Visit>, status: string) {
    || (NoneKept(before, PolicyLookup) && status == "")
    || exists resp :: Kept(before, PolicyLookup, resp)
                      && status == if resp.LookupResponse? then resp.status else ""
  }

  ghost predicate CoverageKept(before: seq<Visit>, coverage: string) {
    || (NoneKept(before, PolicyLookup) && coverage == "")
    || exists resp :: Kept(before, PolicyLookup, resp)
                      && coverage == if resp.LookupResponse? then resp.coverageType else ""
  }

  /** Degraded from the first failure on of a node that is not a model. */
  ghost predicate StatusKept(before: seq<Visit>, status: string) {
    status ==
    if exists k :: 0 <= k < |before| && before[k].outcome.Err? && before[k].job.service != Model
    then "degraded" else "scored"
  }

  lemma {:induction false} KeptOrNone(before: seq<Visit>, service: Service)
    ensures LastOk(before, service).None? ==> NoneKept(before, service)
    ensures LastOk(before, service).Some? ==> Kept(before, service, LastOk(before, service).value)
  {
    LastOkMissing(before, service);
    if LastOk(before, service).Some? {
      var k := LastOkFound(before, service);
    }
  }

  /** The variables of a run hold what is kept. */
  lemma {:induction false} VarsAreKept(x: Session, before: seq<Visit>)
    ensures
      var v := VarsOf(x, before);
      && AddressKept(x, before, v.address) && ValidityKept(before, if v.addressValid then "true" else "false")
      && HashKept(before, v.hash)
      && PolicyStatusKept(before, v.policyStatus) && CoverageKept(before, v.coverage)
      && StatusKept(before, v.status)
  {
    KeptOrNone(before, Hasher);
    KeptOrNone(before, Normalizer);
    KeptOrNone(before, PolicyLookup);
  }

  // ---- requests ----

  /** Exactly nine features, each from its own place. */
  ghost predicate NineFeatures(x: Session, before: seq<Visit>, features: map<string, string>) {
    && features.Keys == {"tenant_id", "product", "event_type", "policy_number", "claimant_id_hash",
                         "normalized_address", "policy_status", "policy_coverage_type", "address_valid"}
    && features["tenant_id"] == x.tenantId
    && features["product"] == x.claim.product
    && features["event_type"] == x.claim.eventType
    && features["policy_number"] == x.claim.policyNumber
    && HashKept(before, features["claimant_id_hash"])
    && AddressKept(x, before, features["normalized_address"])
    && PolicyStatusKept(before, features["policy_status"])
    && CoverageKept(before, features["policy_coverage_type"])
    && ValidityKept(before, features["address_valid"])
  }

  /** The fields of a request made after the visits `before`. */
  ghost predicate Payload(x: Session, before: seq<Visit>, req: Request) {
    match req
    case HashRequest(id, name) => id == x.correlationId && name == x.claim.claimantName
    case NormalizeRequest(id, address) => id == x.correlationId && address == x.claim.rawAddress
    case LookupRequest(id, number) => id == x.correlationId && number == x.claim.policyNumber
    case ScoreRequest(id, features) => id == x.correlationId && NineFeatures(x, before, features)
    case PublishRequest(event) =>
      && event.claimId == x.claim.claimId && event.correlationId == x.correlationId && event.tenantId == x.tenantId
      && StatusKept(before, event.status)
  }

  /** The request is of the kind the service takes. */
  predicate Suits(service: Service, req: Request) {
    match service
    case Hasher => req.HashRequest?
    case Normalizer => req.NormalizeRequest?
    case PolicyLookup => req.LookupRequest?
    case Model => req.ScoreRequest?
    case Publisher => req.PublishRequest?
  }

  lemma {:induction false} FeaturesAreNine(x: Session, before: seq<Visit>)
    ensures NineFeatures(x, before, Features(x, VarsOf(x, before)))
  {
    VarsAreKept(x, before);
  }

  /** The k-th visit of a run asks its own service, with the fields due to it. */
  lemma {:induction false} VisitPayload(x: Session, e: seq<Job>, m: seq<Job>, p: seq<Job>, wire: Wire, k: nat)
    requires k < |RunJobs(x, e, m, p, wire).visits|
    ensures
      var visits := RunJobs(x, e, m, p, wire).visits;
      Suits(visits[k].job.service, visits[k].req) && Payload(x, visits[..k], visits[k].req)
  {
    var visits := RunJobs(x, e, m, p, wire).visits;
    RunKeeps(x, e, m, p, wire);
    AskedAt(x, visits, k);
    FeaturesAreNine(x, visits[..k]);
    VarsAreKept(x, visits[..k]);
  }

  /** Every exchange of a run belongs to a visit and carries the fields due to it there. */
  lemma {:induction false} WirePayload(x: Session, e: seq<Job>, m: seq<Job>, p: seq<Job>, wire: Wire, i: nat)
      returns (k: nat)
    requires |wire.log| <= i < |RunJobs(x, e, m, p, wire).wire.log|
    ensures
      var s := RunJobs(x, e, m, p, wire);
      && k < |s.visits| && s.visits[k].from <= i < s.visits[k].to
      && Suits(s.visits[k].job.service, s.wire.log[i].req)
      && Payload(x, s.visits[..k], s.wire.log[i].req)
  {
    var s := RunJobs(x, e, m, p, wire);
    RunTiles(x, e, m, p, wire);
    RunIsRouted(x, e, m, p, wire);
    k := SenderOf(x.ctx, |wire.log|, s.visits, s.wire, i);
    VisitPayload(x, e, m, p, wire, k);
  }

  // ---- the answer ----

  /** The answer of a run, field by field. */
  lemma {:induction false} AnswerFields(x: Session, e: seq<Job>, m: seq<Job>, p: seq<Job>, wire: Wire)
    requires Staged(e, m, p) && AnswerOf(RunJobs(x, e, m, p, wire)).Success?
    ensures
      var s := RunJobs(x, e, m, p, wire);
      var result := AnswerOf(s).result;
      && StatusKept(s.visits, result.status)
      && AddressKept(x, s.visits, result.normalizedAddress)
      && Kept(s.visits, Model, ScoreResponse(result.fraudScore, result.modelVersion))
  {
    var visits := RunJobs(x, e, m, p, wire).visits;
    RunClosedForm(x, e, m, p, wire);
    VarsAreKept(x, visits);
    KeptOrNone(visits, Model);
  }
}
