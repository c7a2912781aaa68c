/**
 Any number of concurrent `execute` calls over one ledger. Every transaction, blob write and dispatcher call is one
 step; a caller may crash or abandon its call between any two steps, and anybody may use the capability service or
 move branches at any time.
 */
module EffectProtocol {
  import opened Wrappers
  import opened Capabilities
  import opened Effects

  type Caller = nat
  type Blobs = map<Hash, Bytes>

  datatype Fault = NoFault | AfterPrepared | AfterDispatchedBeforeInvoke | AfterInvokeBeforeCommit

  datatype Outcome = Accepted(bytes: Bytes, mediaType: string) | Declined

  datatype Receipt = Receipt(operation: OperationId, inputHash: Hash, resultHash: Hash, result: Bytes, replayed: bool)

  /** Where an `execute` call is. */
  datatype Stage =
    | Finding
    | Storing
    | Persisting
    | Ready(effect: EffectId)                          // the intent is durable
    | Marked(effect: EffectId)                         // the dispatch is durable
    | Invoked(effect: EffectId, outcome: Outcome)      // the dispatcher has returned
    | ResultStored(effect: EffectId, bytes: Bytes, mediaType: string)
    | Resolving(row: Intent)                           // an existing row was read
    | Returned(reply: Result<Receipt, GatewayError>)
    | Crashed

  datatype Call = Call(intent: CanonicalIntent, authorizer: Authorizer, fault: Fault, stage: Stage)

  /** One call of the downstream dispatcher. */
  datatype Invocation = Invocation(operation: OperationId, effect: EffectId, inputHash: Hash)

  datatype System = System(ledger: Ledger, blobs: Blobs, calls: map<Caller, Call>, invocations: seq<Invocation>)

  /** `BlobStore::put` seen as one step: an existing blob is verified and kept, never replaced. */
  function Put(digest: Bytes -> Hash, blobs: Blobs, bytes: Bytes): Option<Blobs> {
    var h := digest(bytes);
    if h !in blobs then Some(blobs[h := bytes])
    else if digest(blobs[h]) == h then Some(blobs)
    else None
  }

  /** `resolve_existing` */
  function ResolveExisting(digest: Bytes -> Hash, blobs: Blobs, intent: CanonicalIntent,
                           row: Intent): Result<Receipt, GatewayError> {
    if row.request.inputHash != intent.inputHash then Err(OperationInputConflict)
    else if row.state != Succeeded then Err(UnresolvedOperation)
    else if row.resultHash.None? then Err(InvalidStoredValue)
    else
      var h := row.resultHash.value;
      if h !in blobs || digest(blobs[h]) != h then Err(BlobFailure)
      else Ok(Receipt(intent.operation, intent.inputHash, h, blobs[h], true))
  }

  /** Free choices of a step: a fresh effect ID, the clock, and what the dispatcher answers. */
  datatype Choice = Choice(effect: EffectId, clock: int, outcome: Outcome)

  const INPUT_MEDIA_TYPE := "application/vnd.epoch.effect-intent+json"

  function MoveTo(s: System, c: Caller, stage: Stage): System
    requires c in s.calls
  {
    s.(calls := s.calls[c := s.calls[c].(stage := stage)])
  }

  /** A transaction that either moves the ledger and the caller on, or ends the call with its error. */
  function Attempt(s: System, c: Caller, r: Result<Ledger, GatewayError>, next: Stage): System
    requires c in s.calls
  {
    if r.Ok? then MoveTo(s.(ledger := r.value), c, next) else MoveTo(s, c, Returned(Err(r.error)))
  }

  ghost function Advance(digest: Bytes -> Hash, s: System, c: Caller, choice: Choice): System
    requires c in s.calls
  {
    var call := s.calls[c];
    var l, intent := s.ledger, call.intent;
    match call.stage
    case Finding =>
      var found := Find(l, intent.operation);
      MoveTo(s, c, if found.Some? then Resolving(l.intents[found.value]) else Storing)
    case Storing =>
      var stored := Put(digest, s.blobs, intent.input);
      if stored.None? then MoveTo(s, c, Returned(Err(BlobFailure)))
          else MoveTo(s.(blobs := stored.value), c, Persisting)
    case Persisting =>
      var r := AuthorizeAndPersist(l, call.authorizer, intent, choice.effect, BlobRow(|intent.input|, INPUT_MEDIA_TYPE),
          choice.clock);
      if r.Err? then MoveTo(s, c, Returned(Err(r.error)))
      else
        var (l', created) := r.value;
        MoveTo(s.(ledger := l'), c,
            match created
            case Fresh(e) => Ready(e)
            case Refused => Returned(Err(AuthorizationDenied))
            case Existing(e) => if e in l.intents then Resolving(l.intents[e]) else Crashed)
    case Ready(e) =>
      if call.fault == AfterPrepared then MoveTo(s, c, Returned(Err(FaultInjected)))
      else Attempt(s, c, MarkDispatched(l, e), Marked(e))
    case Marked(e) =>
      if call.fault == AfterDispatchedBeforeInvoke then Attempt(s, c, MarkUnknown(l, e), Returned(Err(FaultInjected)))
      else
        MoveTo(s.(invocations := s.invocations + [Invocation(intent.operation, e, intent.inputHash)]), c,
          Invoked(e, choice.outcome))
    case Invoked(e, outcome) =>
      if call.fault == AfterInvokeBeforeCommit then Attempt(s, c, MarkUnknown(l, e), Returned(Err(FaultInjected)))
      else if outcome.Declined? then Attempt(s, c, MarkFailed(l, e), Returned(Err(DispatchFailed)))
      else
        var stored := Put(digest, s.blobs, outcome.bytes);
        if stored.None? then MoveTo(s, c, Returned(Err(BlobFailure)))
        else MoveTo(s.(blobs := stored.value), c, ResultStored(e, outcome.bytes, outcome.mediaType))
    case ResultStored(e, bytes, mediaType) =>
      var h := digest(bytes);
      Attempt(s, c, CommitResult(l, e, h, BlobRow(|bytes|, mediaType)),
              Returned(Ok(Receipt(intent.operation, intent.inputHash, h, bytes, false))))
    case Resolving(row) => MoveTo(s, c, Returned(ResolveExisting(digest, s.blobs, intent, row)))
    case Returned(_) => s
    case Crashed => s
  }

  datatype Event =
    | Enter(caller: Caller, intent: CanonicalIntent, authorizer: Authorizer, fault: Fault)
    | Proceed(caller: Caller, choice: Choice)
    | Crash(caller: Caller)                             // the process dies between two steps
    | Abandon(caller: Caller, error: GatewayError)      // an I/O failure, or a CHECK on a timestamp, ends the call
    | Outside(op: Operation)                            // somebody else uses the capability service
    | MoveBranches(states: map<BranchKey, BranchState>) // somebody else changes branch states

  ghost function Step(digest: Bytes -> Hash, s: System, event: Event): System {
    match event
    case Enter(c, intent, z, fault) =>
      if c in s.calls || intent.inputHash != digest(intent.input) then s
      else s.(calls := s.calls[c := Call(intent, z, fault, Finding)])
    case Proceed(c, choice) => if c in s.calls then Advance(digest, s, c, choice) else s
    case Crash(c) => if c in s.calls && !s.calls[c].stage.Returned? then MoveTo(s, c, Crashed) else s
    case Abandon(c, error) => if c in s.calls && !s.calls[c].stage.Crashed? && !s.calls[c].stage.Returned?
        then MoveTo(s, c, Returned(Err(error))) else s
    case Outside(op) => s.(ledger := s.ledger.(authority := Commit(s.ledger.authority, op)))
    case MoveBranches(states) => s.(ledger := s.ledger.(branchStates := states))
  }

  ghost function RunSystem(digest: Bytes -> Hash, s: System, events: seq<Event>): System {
    if events == [] then s else Step(digest, RunSystem(digest, s, events[..|events| - 1]), events[|events| - 1])
  }

  /** No effect yet; the authority may be in any state its service can reach. */
  function Start(a: Authority, branches: map<BranchKey, BranchState>): System {
    System(Ledger(a, map[], map[], map[], map[], branches, map[]), map[], map[], [])
  }
}
