/** What the executor exchanges with the services behind its narrow interfaces, and the
    world that answers: an arbitrary function of everything on the wire so far. */
module Downstream {

  datatype Option<+T> = None | Some(value: T)

  datatype Event = Event(
    claimId: string,
    correlationId: string,
    tenantId: string,
    status: string,
    fraudScore: real,
    modelVersion: string)

  datatype Service = Hasher | Normalizer | PolicyLookup | Model | Publisher

  datatype Request =
    | HashRequest(correlationId: string, claimantName: string)
    | NormalizeRequest(correlationId: string, rawAddress: string)
    | LookupRequest(correlationId: string, policyNumber: string)
    | ScoreRequest(correlationId: string, features: map<string, string>)
    | PublishRequest(event: Event)
  {
    function Callee(): Service {
      match this
      case HashRequest(_, _) => Hasher
      case NormalizeRequest(_, _) => Normalizer
      case LookupRequest(_, _) => PolicyLookup
      case ScoreRequest(_, _) => Model
      case PublishRequest(_) => Publisher
    }
  }

  /** A response message, or nil (also the empty struct of a publish). The
      accessors are the generated getters: they read a zero value from nil. */
  datatype Response =
    | Nil
    | HashResponse(claimantIdHash: string)
    | NormalizeResponse(normalizedAddress: string, valid: bool)
    | LookupResponse(found: bool, status: string, coverageType: string)
    | ScoreResponse(score: real, modelVersion: string)
  {
    function GetHash(): string { if HashResponse? then claimantIdHash else "" }
    function GetAddress(): string { if NormalizeResponse? then normalizedAddress else "" }
    function GetValid(): bool { NormalizeResponse? && valid }
    function GetStatus(): string { if LookupResponse? then status else "" }
    function GetCoverage(): string { if LookupResponse? then coverageType else "" }
    function GetScore(): real { if ScoreResponse? then score else 0.0 }
    function GetVersion(): string { if ScoreResponse? then modelVersion else "" }
  }

  datatype Error =
    | ServiceFailure(code: string)
    | Canceled
    | DeadlineExceeded
    | LoadFailed(cause: string)
    | NoModelScore

  datatype Outcome = Ok(resp: Response) | Err(error: Error)

  /** The caller's context: never done, or done from instant `at` on. Instants and
      durations are in nanoseconds. */
  datatype Context = Background | DoneAt(at: nat, cause: Error)

  /** One attempt on the wire: sent at `start` under a context done at `doneBy`. */
  datatype Exchange = Exchange(req: Request, start: nat, doneBy: nat, outcome: Outcome, end: nat)

  datatype Reply = Reply(outcome: Outcome, took: nat)

  /** `answer` may depend on every earlier exchange, so it covers services with state;
      `timerWins` settles the tie of a backoff timer and a context that are ready together. */
  datatype World = World(
    answer: (seq<Exchange>, Request, nat, nat) -> Reply,
    timerWins: (seq<Exchange>, nat) -> bool)

  /** The exchanges so far and the clock. */
  datatype Wire = Wire(log: seq<Exchange>, now: nat)

  /** How many of the exchanges went to `callee`. */
  function Tries(log: seq<Exchange>, callee: Service): nat {
    if log == [] then 0
    else Tries(log[..|log| - 1], callee) + if log[|log| - 1].req.Callee() == callee then 1 else 0
  }
}
