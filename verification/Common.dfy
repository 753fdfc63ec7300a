// Values shared by every component: identifiers, optional values, JSON
// documents and the hashes the control plane stores beside them.

module Common {

  datatype Option<+T> = None | Some(value: T)

  /** An opaque identifier (work unit, attempt, assignment, worker, result, ...). */
  datatype Id = Id(text: string)

  /** A JSON document as Python sees it after decoding. */
  datatype Json =
    | Null
    | Bool(b: bool)
    | Int(i: int)
    | Float(f: real)
    | Str(s: string)
    | List(items: seq<Json>)
    | Obj(members: seq<Member>)

  datatype Member = Member(key: string, value: Json)

  /** dict.get on an object document. */
  function Get(members: seq<Member>, key: string): Option<Json>
  {
    if members == [] then None
    else if members[0].key == key then Some(members[0].value)
    else Get(members[1..], key)
  }
}

// SHA-256 over canonical JSON is injective for the purposes of the model: a
// hash is the value that was hashed, under the domain it was hashed in.
module Hashes {
  import opened Common

  /** The raw secret of an assignment lease. */
  datatype LeaseToken = LeaseToken(secret: nat)

  /** core/tokens.py: the stable hash of a lease token. */
  datatype TokenHash = TokenHash(token: LeaseToken)

  datatype ResultStatus = ResultSucceeded | ResultFailed | ResultQuarantined

  /** What the producer hashes for an envelope, and the verifier hashes again. */
  datatype ResultPayload = ResultPayload(
    workUnit: Id, attempt: Id, assignment: Id,
    backend: Option<Id>, backendClass: Option<string>,
    outputHash: Hash, status: ResultStatus,
    usageRecords: seq<Id>, errorCodes: seq<string>)

  /** A stored hash column: a digest made by this system, or any other text. */
  datatype Hash =
    | OutputHash(output: Json)
    | EnvelopeHash(payload: ResultPayload)
    | BareResultHash(attempt: Id, assignment: Id, backend: Id, outputHash: Hash, status: ResultStatus)
    | ForeignText(text: string)

  /** The envelope fields the scheduler, the verifier and the ledger read. */
  datatype Envelope = Envelope(
    id: Id, workUnit: Id, attempt: Id, assignment: Id,
    worker: Option<Id>, status: ResultStatus,
    backend: Option<Id>, backendClass: Option<string>,
    output: Json, outputHash: Hash, resultHash: Hash,
    usageRecords: seq<Id>, errorCodes: seq<string>)
}

/** Which backends only the control plane's own gateway worker may run. */
module Gateways {
  const GATEWAY_WORKER := "wrk_control_plane_gateway"
  const GATEWAY_CLASSES: set<string> := {"api_model_gateway", "primary_model_gateway"}
}
