// Per peer session records: the store's key space, what one operation does to a peer's two
// records, and the operations in flight cut at their awaits.
module Sessions {
  import opened Options
  import opened Text

  type Handle = string
  type Record = string
  type Identity = string
  type Cipher = string
  type Bytes = seq<Byte>

  // --- the key space of the store ---

  const IDENTITY_KEY_PAIR := "idkeypair"
  const REGISTRATION_ID := "regid"
  const LOCAL_HANDLE := "localhandle"
  const SIGNED_PREKEY := "signedprekey:1"
  const KYBER_PREKEY := "kyberprekey:1"
  const STORE_FORMAT := "storefmt"

  const LOCAL_KEYS: set<string> :=
    {IDENTITY_KEY_PAIR, REGISTRATION_ID, LOCAL_HANDLE, SIGNED_PREKEY, KYBER_PREKEY, STORE_FORMAT}

  function SessionKey(h: Handle): string {
    "session:" + h + ".1"
  }

  function IdentityKey(h: Handle): string {
    "identity:" + h
  }

  type Kv = map<string, string>

  function Get(kv: Kv, key: string): Option<string> {
    if key in kv then Some(kv[key]) else None
  }

  // A peer's two records.
  datatype Peer = Peer(session: Option<Record>, pin: Option<Identity>)

  function PeerAt(kv: Kv, h: Handle): Peer {
    Peer(Get(kv, SessionKey(h)), Get(kv, IdentityKey(h)))
  }

  // What an operation needs of the local party; no operation here writes it.
  datatype Local = Local(provisioned: bool, prekeys: bool)

  function LocalAt(kv: Kv): Local {
    Local(
      IDENTITY_KEY_PAIR in kv && REGISTRATION_ID in kv && LOCAL_HANDLE in kv,
      SIGNED_PREKEY in kv && KYBER_PREKEY in kv)
  }

  // --- operations ---

  datatype Failure =
    | NotProvisioned
    | NoSession
    | NoPreKeys
    | BackendFailure(message: string)
    | DuplicateMessage
    | IdentityChanged(identity: Identity)
    | BadPadding

  datatype Value = Sealed(cipher: Cipher) | Opened(bytes: Bytes) | Nothing

  type Outcome = Result<Value, Failure>

  datatype Bundle = Bundle(identityKey: Identity, prekeys: string)

  datatype Op =
    | Encrypt(plaintext: Bytes)
    | DecryptPreKey(cipher: Cipher)
    | DecryptWhisper(cipher: Cipher)
    | StartSession(bundle: Bundle)
    | DeleteSession

  // The cipher: each call is a step on the records it is given.
  datatype Backend = Backend(
    processPreKeyBundle: (Option<Record>, Bundle) -> Result<Record, Failure>,
    encrypt: (Record, Bytes) -> Result<(Record, Cipher), Failure>,
    decryptPreKey: (Option<Record>, Cipher) -> Result<(Record, Identity, Bytes), Failure>,
    decryptWhisper: (Record, Cipher) -> Result<(Record, Bytes), Failure>,
    unpad: Bytes -> Option<Bytes>)

  function Unpadded(b: Backend, padded: Bytes): Outcome {
    match b.unpad(padded)
    case None => Err(BadPadding)
    case Some(bytes) => Ok(Opened(bytes))
  }

  // What the operation decides once its reads and the backend call are done: fail, or write a
  // session record, perhaps pin an identity, and return.
  datatype Decision = Fail(failure: Failure) | Write(record: Record, pin: Option<Identity>, outcome: Outcome)

  function Decide(b: Backend, local: Local, op: Op, pinned: Option<Identity>, existing: Option<Record>): Decision
    requires !op.DeleteSession?
  {
    match op
    case Encrypt(plaintext) =>
      if existing.None? then Fail(NoSession)
      else (match b.encrypt(existing.value, plaintext)
            case Err(f) => Fail(f)
            case Ok((record, cipher)) => Write(record, None, Ok(Sealed(cipher))))
    case DecryptPreKey(cipher) =>
      if !local.prekeys then Fail(NoPreKeys)
      else (match b.decryptPreKey(existing, cipher)
            case Err(f) => Fail(f)
            case Ok((record, identity, padded)) =>
              if pinned.Some? && pinned.value != identity then Fail(IdentityChanged(identity))
              else Write(record, if pinned.None? then Some(identity) else None, Unpadded(b, padded)))
    case DecryptWhisper(cipher) =>
      if existing.None? then Fail(NoSession)
      else (match b.decryptWhisper(existing.value, cipher)
            case Err(f) => Fail(f)
            case Ok((record, padded)) => Write(record, None, Unpadded(b, padded)))
    case StartSession(bundle) =>
      (match b.processPreKeyBundle(existing, bundle)
       case Err(f) => Fail(f)
       case Ok(record) => Write(record, Some(bundle.identityKey), Ok(Nothing)))
  }

  // The operation run on its own: the new records of the peer, and what it returns.
  function Apply(b: Backend, local: Local, p: Peer, op: Op): (Peer, Outcome) {
    if op.DeleteSession? then (Peer(None, None), Ok(Nothing))
    else if !local.provisioned then (p, Err(NotProvisioned))
    else
      match Decide(b, local, op, if op.DecryptPreKey? then p.pin else None, p.session)
      case Fail(f) => (p, Err(f))
      case Write(record, pin, outcome) => (Peer(Some(record), if pin.Some? then pin else p.pin), outcome)
  }

  // --- operations in flight ---

  // Where an operation stands between two awaits, with what it has read so far.
  datatype Pc =
    | Waiting
    | Begun
    | HaveParty
    | HavePin(pinned: Option<Identity>)
    | HaveRecords(pinned: Option<Identity>, existing: Option<Record>)
    | ToStore(record: Record, pin: Option<Identity>, outcome: Outcome)
    | ToPin(identity: Identity, outcome: Outcome)
    | ToUnpin
    | Done(outcome: Outcome)

  // `after` is the promise this operation was chained on: the previous call for the handle.
  datatype Call = Call(handle: Handle, op: Op, after: Option<nat>, pc: Pc)

  datatype State = State(kv: Kv, calls: seq<Call>, chains: map<Handle, nat>)

  datatype Event = Enter(handle: Handle, op: Op) | Tick(call: nat)

  predicate MayRun(s: State, call: Call) {
    call.pc.Waiting? ==> call.after.None? || (call.after.value < |s.calls| && s.calls[call.after.value].pc.Done?)
  }

  predicate Enabled(s: State, e: Event) {
    match e
    case Enter(_, _) => true
    case Tick(t) => t < |s.calls| && !s.calls[t].pc.Done? && MayRun(s, s.calls[t])
  }

  // The next segment of one call: the key value map after it, and where it stops.
  function Segment(b: Backend, kv: Kv, h: Handle, op: Op, pc: Pc): (Kv, Pc)
    requires !pc.Done?
  {
    match pc
    case Waiting => (kv, Begun)
    case Begun =>
      if op.DeleteSession? then (kv - {SessionKey(h)}, ToUnpin)
      else if !LocalAt(kv).provisioned then (kv, Done(Err(NotProvisioned)))
      else (kv, HaveParty)
    case HaveParty =>
      if op.DecryptPreKey? then (kv, HavePin(Get(kv, IdentityKey(h))))
          else (kv, HaveRecords(None, Get(kv, SessionKey(h))))
    case HavePin(pinned) => (kv, HaveRecords(pinned, Get(kv, SessionKey(h))))
    case HaveRecords(pinned, existing) =>
      if op.DeleteSession? then (kv, Done(Ok(Nothing)))
      else (match Decide(b, LocalAt(kv), op, pinned, existing)
            case Fail(f) => (kv, Done(Err(f)))
            case Write(record, pin, outcome) => (kv, ToStore(record, pin, outcome)))
    case ToStore(record, pin, outcome) =>
      (kv[SessionKey(h) := record], if pin.Some? then ToPin(pin.value, outcome) else Done(outcome))
    case ToPin(identity, outcome) => (kv[IdentityKey(h) := identity], Done(outcome))
    case ToUnpin => (kv - {IdentityKey(h)}, Done(Ok(Nothing)))
  }

  function StepEnter(s: State, h: Handle, op: Op): State {
    var previous := if h in s.chains then Some(s.chains[h]) else None;
    s.(calls := s.calls + [Call(h, op, previous, Waiting)], chains := s.chains[h := |s.calls|])
  }

  function StepTick(b: Backend, s: State, t: nat): State
    requires Enabled(s, Tick(t))
  {
    var c := s.calls[t];
    var (kv, pc) := Segment(b, s.kv, c.handle, c.op, c.pc);
    s.(kv := kv, calls := s.calls[t := c.(pc := pc)])
  }

  function Step(b: Backend, s: State, e: Event): State
    requires Enabled(s, e)
  {
    match e
    case Enter(h, op) => StepEnter(s, h, op)
    case Tick(t) => StepTick(b, s, t)
  }

  predicate Runs(b: Backend, s: State, events: seq<Event>, t: State)
    decreases |events|
  {
    if events == [] then t == s else Enabled(s, events[0]) && Runs(b, Step(b, s, events[0]), events[1..], t)
  }
}
