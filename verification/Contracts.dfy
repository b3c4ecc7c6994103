/** The data contracts shared by every process, and the errors that cross them. */
module Contracts {
  import opened Wrappers

  const U32_MAX: nat := 0xFFFF_FFFF
  const U64_MAX: nat := 0xFFFF_FFFF_FFFF_FFFF

  /** Policy ceilings (crates/contracts and crates/control-plane). */
  const MAX_LEASE_SECONDS: nat := 300
  const MAX_MOCK_VALUE: nat := 100
  const MAX_SAMPLES: nat := 10_000
  const MAX_HYPOTHESIS_CHARS: nat := 4_096
  const MIN_HYPOTHESIS_CHARS: nat := 1
  const MAX_DECISION_TEMPERATURE_C: real := 90.0
  const MAX_DECISION_POWER_W: real := 250.0
  const MAX_DECISION_ERRORS: nat := 0

  /** NonZeroU32 and NonZeroU64. */
  type Positive = n: nat | 0 < n witness 1

  /** A JSON value; numbers are integers or (finite) reals. */
  datatype Json =
    | Null
    | Bool(flag: bool)
    | Int(n: int)
    | Float(r: real)
    | Str(text: string)
    | Arr(items: seq<Json>)
    | Obj(fields: map<string, Json>)

  function Field(value: Json, key: string): Option<Json> {
    if value.Obj? && key in value.fields then Some(value.fields[key]) else None
  }

  function AsU64(value: Json): Option<nat> {
    if value.Int? && 0 <= value.n <= U64_MAX then Some(value.n) else None
  }

  /** The unsigned integer stored under `key`, if there is one. */
  function FieldU64(value: Json, key: string): Option<nat> {
    match Field(value, key)
    case Some(field) => AsU64(field)
    case None => None
  }

  datatype RiskClass = ReadOnly | Reversible | ApprovalRequired | Denied

  datatype Capability = Capability(id: string, risk: RiskClass)

  datatype ProviderManifest = ProviderManifest(id: string, capabilities: seq<Capability>)

  datatype ChangeRequest = ChangeRequest(
    capabilityId: string,
    parameters: Json,
    leaseSeconds: Positive)

  /** Provider state captured before a change; `state` is opaque to the broker. */
  datatype StateSnapshot = StateSnapshot(providerId: string, state: Json)

  datatype ProviderError =
    | UnsupportedCapability(detail: string)
    | InvalidRequest(detail: string)
    | Unavailable(detail: string)
    | RollbackFailed(detail: string)
  {
    /** The error's display text. */
    function Display(): string {
      match this
      case UnsupportedCapability(detail) => "unsupported capability: " + detail
      case InvalidRequest(detail) => "invalid request: " + detail
      case Unavailable(detail) => "provider unavailable: " + detail
      case RollbackFailed(detail) => "rollback failed: " + detail
    }
  }

  datatype ControlPlaneError =
    | UnknownCapability(id: string)
    | PolicyDenied(detail: string)
    | Provider(cause: ProviderError)
    | VerificationFailed
    | RollbackVerificationFailed
    | UnknownTrial(trial: int)
    | Journal(detail: string)
    | Serialization(detail: string)
  {
    /** The stable machine-readable kind written into terminal records. */
    function Kind(): string {
      match this
      case UnknownCapability(_) => "unknown-capability"
      case PolicyDenied(_) => "policy-denied"
      case Provider(_) => "provider"
      case VerificationFailed => "verification-failed"
      case RollbackVerificationFailed => "rollback-verification-failed"
      case UnknownTrial(_) => "unknown-trial"
      case Journal(_) => "journal"
      case Serialization(_) => "serialization"
    }
  }

  /** The auditable outcome of one lifecycle. */
  datatype LifecycleResult = LifecycleResult(
    providerId: string,
    preview: string,
    verified: bool,
    rolledBack: bool)

  // ----- the broker's wire contract --------------------------------------

  datatype BrokerOp = Discover | RunLifecycle

  /** A request as decoded: the owner and the change are optional for either operation. */
  datatype BrokerRequest = BrokerRequest(op: BrokerOp, owner: Option<string>, change: Option<ChangeRequest>)

  datatype BrokerErrorKind =
    | Unauthenticated
    | Malformed
    | UncataloguedCapability
    | RequestDenied
    | KnobOwned
    | LifecycleFailed
    | Internal
  {
    /** The kind's name on the wire. */
    function Name(): string {
      match this
      case Unauthenticated => "unauthenticated"
      case Malformed => "malformed"
      case UncataloguedCapability => "unknown-capability"
      case RequestDenied => "policy-denied"
      case KnobOwned => "owner-conflict"
      case LifecycleFailed => "lifecycle-failed"
      case Internal => "internal"
    }
  }
}
