/**
 The durable effect gateway (crates/epoch-effects): its tables and the transactions of one `execute` call.
 The capability authorizer runs inside the transaction that persists an intent.
 */
module Effects {
  import opened Wrappers
  import opened Capabilities

  type EffectId = nat
  type OperationId = string
  type Bytes = seq<bv8>

  /** `effect_intents.state` */
  datatype IntentState = Prepared | Denied | Dispatched | Succeeded | Failed | Unknown

  /** States of the append-only histories. */
  datatype Mark = RequestedMark | PreparedMark | DispatchedMark | CommittedMark | FailedMark | UnknownMark
  datatype AttemptState = Started | AttemptSucceeded | AttemptFailed | AttemptUnknown
  datatype AttemptMark = StartedMark | AttemptCommittedMark | AttemptFailedMark | AttemptUnknownMark

  datatype BranchState = BranchCreated | Running | Suspended | Completed | Promoted | Abandoned | BranchFailed

  /** A canonicalized request; `operation` is derived from session, branch and replay key, `inputHash` from `input`. */
  datatype CanonicalIntent = CanonicalIntent(
    at: BranchKey, replayKey: string, action: string, resource: string, policyRevision: nat,
    operation: OperationId, input: Bytes, inputHash: Hash)

  /** One row of `effect_intents`. */
  datatype Intent = Intent(
    request: CanonicalIntent, capability: Option<CapabilityId>, state: IntentState, resultHash: Option<Hash>,
      revision: nat)

  datatype BlobRow = BlobRow(length: nat, mediaType: string)

  /** Position in an append-only history: PRIMARY KEY (effect_id, sequence). Only attempt number 1 exists. */
  datatype At = At(effect: EffectId, sequence: nat)

  datatype Ledger = Ledger(
    authority: Authority,
    intents: map<EffectId, Intent>,
    transitions: map<At, Mark>,
    attempts: map<EffectId, AttemptState>,
    attemptTransitions: map<At, AttemptMark>,
    branchStates: map<BranchKey, BranchState>,
    blobRows: map<Hash, BlobRow>)

  /** `CapabilityAuthorizer` */
  datatype Authorizer = Authorizer(handleHash: Hash, subject: string, budgetUnits: nat)

  datatype GatewayError =
    | AuthorizationDenied | AuthorizationUnavailable | OperationInputConflict | UnresolvedOperation
    | ConcurrentStateChange | DispatchFailed | FaultInjected | InvalidStoredValue | BlobMetadataConflict
    | GatewayDatabase | BlobFailure

  // ---------------------------------------------------------------- authorize and persist

  function UseFor(z: Authorizer, intent: CanonicalIntent): CapabilityUse {
    CapabilityUse(Scope(intent.at, z.subject, intent.action, intent.resource), intent.policyRevision, z.budgetUnits,
                  intent.operation, intent.inputHash)
  }

  /** The row of an operation, if any. */
  ghost function Find(l: Ledger, operation: OperationId): (r: Option<EffectId>)
    ensures r.Some? ==> r.value in l.intents && l.intents[r.value].request.operation == operation
    ensures r.None? ==> forall e :: e in l.intents ==> l.intents[e].request.operation != operation
  {
    if exists e :: e in l.intents && l.intents[e].request.operation == operation then
      var e :| e in l.intents && l.intents[e].request.operation == operation; Some(e)
    else None
  }

  /** `insert_blob_metadata`: an existing row must agree. */
  function RegisterBlob(rows: map<Hash, BlobRow>, hash: Hash, row: BlobRow): Result<map<Hash, BlobRow>, GatewayError> {
    if hash in rows && rows[hash] != row then Err(BlobMetadataConflict) else Ok(rows[hash := row])
  }

  /** The constraints on a new intent row: primary key, UNIQUE (branch_id, replay_key), and both foreign keys. */
  predicate Insertable(l: Ledger, a: Authority, effect: EffectId, intent: CanonicalIntent,
                       capability: Option<CapabilityId>) {
    && effect !in l.intents
    && (forall e :: e in l.intents ==>
          !(l.intents[e].request.at.branch == intent.at.branch && l.intents[e].request.replayKey == intent.replayKey))
    && intent.at in a.branches
    && (capability.Some? ==>
       capability.value in a.capabilities && a.capabilities[capability.value].scope.at == intent.at)
  }

  datatype Created = Fresh(effect: EffectId) | Refused | Existing(effect: EffectId)

  /** The row and the two transitions of a new intent. */
  function AddIntent(l: Ledger, a: Authority, rows: map<Hash, BlobRow>, effect: EffectId, intent: CanonicalIntent,
                     d: Decision): Ledger {
    var allowed := d.reason == Allowed && d.capability.Some?;
    l.(authority := a,
       blobRows := rows,
       intents := l.intents[effect := Intent(intent, d.capability, if allowed then Prepared else Denied, None, 0)],
       transitions :=
         l.transitions[At(effect, 0) := RequestedMark][At(effect, 1) := if allowed then PreparedMark else FailedMark])
  }

  /** `authorize_and_persist` with the capability authorizer plugged in. */
  ghost function AuthorizeAndPersist(l: Ledger, z: Authorizer, intent: CanonicalIntent, effect: EffectId,
                                     input: BlobRow, clock: int)
    : Result<(Ledger, Created), GatewayError>
  {
    var existing := Find(l, intent.operation);
    if existing.Some? then Ok((l, Existing(existing.value)))
    else
      var authorization := AuthorizeInTransaction(l.authority, z.handleHash, UseFor(z, intent), clock);
      if authorization.Err? then Err(AuthorizationUnavailable)
      else
        var (a, d) := authorization.value;
        var rows :- RegisterBlob(l.blobRows, intent.inputHash, input);
        if !Insertable(l, a, effect, intent, d.capability) then Err(GatewayDatabase)
        else
          Ok((AddIntent(l, a, rows, effect, intent, d),
              if d.reason == Allowed && d.capability.Some? then Fresh(effect) else Refused))
  }

  // ---------------------------------------------------------------- later transactions

  /** `mark_dispatched` */
  function MarkDispatched(l: Ledger, effect: EffectId): Result<Ledger, GatewayError> {
    if effect !in l.intents || l.intents[effect].state != Prepared then Err(ConcurrentStateChange)
    else if effect in l.attempts || At(effect, 2) in l.transitions || At(effect, 0) in l.attemptTransitions then
      Err(GatewayDatabase)
    else
      var row := l.intents[effect];
      Ok(l.(intents := l.intents[effect := row.(state := Dispatched, revision := row.revision + 1)],
            attempts := l.attempts[effect := Started],
            transitions := l.transitions[At(effect, 2) := DispatchedMark],
            attemptTransitions := l.attemptTransitions[At(effect, 0) := StartedMark]))
  }

  datatype Resolution = ToSucceeded(hash: Hash) | ToFailed | ToUnknown

  function StateOf(r: Resolution): IntentState {
    match r case ToSucceeded(_) => Succeeded case ToFailed => Failed case ToUnknown => Unknown
  }

  function MarkOf(r: Resolution): Mark {
    match r case ToSucceeded(_) => CommittedMark case ToFailed => FailedMark case ToUnknown => UnknownMark
  }

  function AttemptOf(r: Resolution): AttemptState {
    match r case ToSucceeded(_) => AttemptSucceeded case ToFailed => AttemptFailed case ToUnknown => AttemptUnknown
  }

  function AttemptMarkOf(r: Resolution): AttemptMark {
    match r
    case ToSucceeded(_) => AttemptCommittedMark
    case ToFailed => AttemptFailedMark
    case ToUnknown => AttemptUnknownMark
  }

  /** `update_resolution`, `update_attempt` and both appends, shared by the three ways an attempt ends. */
  function Resolve(l: Ledger, effect: EffectId, r: Resolution): Result<Ledger, GatewayError> {
    if effect !in l.intents || l.intents[effect].state != Dispatched then Err(InvalidStoredValue)
    else if effect !in l.attempts || l.attempts[effect] != Started then Err(InvalidStoredValue)
    else if At(effect, 3) in l.transitions || At(effect, 1) in l.attemptTransitions then Err(GatewayDatabase)
    else
      var row := l.intents[effect];
      Ok(l.(intents := l.intents[effect := row.(state := StateOf(r), revision := row.revision + 1,
                                                resultHash := if r.ToSucceeded? then Some(r.hash) else None)],
            attempts := l.attempts[effect := AttemptOf(r)],
            transitions := l.transitions[At(effect, 3) := MarkOf(r)],
            attemptTransitions := l.attemptTransitions[At(effect, 1) := AttemptMarkOf(r)]))
  }

  predicate Suspendable(s: BranchState) {
    s in {BranchCreated, Running, Suspended, Completed}
  }

  /** `mark_unknown`: also suspends the branch, and rolls everything back when the branch cannot be suspended. */
  function MarkUnknown(l: Ledger, effect: EffectId): Result<Ledger, GatewayError> {
    var resolved :- Resolve(l, effect, ToUnknown);
    var at := l.intents[effect].request.at;
    if at !in l.branchStates || !Suspendable(l.branchStates[at]) then Err(InvalidStoredValue)
    else Ok(resolved.(branchStates := l.branchStates[at := Suspended]))
  }

  /** `mark_failed` */
  function MarkFailed(l: Ledger, effect: EffectId): Result<Ledger, GatewayError> {
    Resolve(l, effect, ToFailed)
  }

  /** The transaction of `commit_result`. */
  function CommitResult(l: Ledger, effect: EffectId, hash: Hash, row: BlobRow): Result<Ledger, GatewayError> {
    var rows :- RegisterBlob(l.blobRows, hash, row);
    Resolve(l.(blobRows := rows), effect, ToSucceeded(hash))
  }
}
