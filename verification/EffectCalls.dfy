/** What each transaction of the effect gateway does, and what each reply of a call says, in terms of the tables. */
module EffectCalls {
  import opened Wrappers
  import opened Capabilities
  import opened Delegation
  import opened AuthorityInvariant
  import opened AuthorityRuns
  import opened AuthorityCalls
  import opened Effects
  import opened EffectProtocol
  import opened EffectInvariant
  import opened EffectSteps
  import opened EffectTheorems
  import opened EffectGateways

  // ---------------------------------------------------------------- blob rows

  /** A blob row is registered exactly when the hash is new or stored with the same length and media type. */
  lemma RegisteredExactlyWhen(rows: map<Hash, BlobRow>, hash: Hash, length: nat, mediaType: string)
    ensures var r := RegisterBlob(rows, hash, BlobRow(length, mediaType));
      && (r.Ok? <==> hash !in rows || (rows[hash].length == length && rows[hash].mediaType == mediaType))
      && (r.Ok? ==> r.value == rows[hash := BlobRow(length, mediaType)])
      && (r.Err? ==> r.error == BlobMetadataConflict)
  {
  }

  // ---------------------------------------------------------------- marks

  /** The row of an effect was moved to a state, by one revision; every other row is as it was. */
  ghost predicate RowMoved(l: Ledger, m: Ledger, e: EffectId, state: IntentState, result: Option<Hash>) {
    && e in l.intents && e in m.intents && m.intents == l.intents[e := m.intents[e]]
    && m.intents[e].state == state && m.intents[e].resultHash == result
    && m.intents[e].revision == l.intents[e].revision + 1
    && m.intents[e].request == l.intents[e].request && m.intents[e].capability == l.intents[e].capability
  }

  /** An intent is marked dispatched exactly when it is prepared and has no attempt yet. */
  lemma DispatchMarkedExactlyWhen(l: Ledger, e: EffectId)
    ensures var r := MarkDispatched(l, e);
      && (r.Ok? <==> e in l.intents && l.intents[e].state == Prepared && e !in l.attempts
                     && At(e, 2) !in l.transitions && At(e, 0) !in l.attemptTransitions)
      && (r.Ok? ==> var m := r.value;
            && RowMoved(l, m, e, Dispatched, l.intents[e].resultHash)
            && m == l.(intents := m.intents, attempts := l.attempts[e := Started],
                       transitions := l.transitions[At(e, 2) := DispatchedMark],
                       attemptTransitions := l.attemptTransitions[At(e, 0) := StartedMark]))
      && (r == Err(ConcurrentStateChange) <==> e !in l.intents || l.intents[e].state != Prepared)
      && (r.Err? ==> r.error in {ConcurrentStateChange, GatewayDatabase})
  {
  }

  /** The effect was dispatched and its one attempt is under way. */
  predicate InFlight(l: Ledger, e: EffectId) {
    e in l.intents && l.intents[e].state == Dispatched && e in l.attempts && l.attempts[e] == Started
  }

  /** And no history says that it ended. */
  predicate Undecided(l: Ledger, e: EffectId) {
    && InFlight(l, e)
    && At(e, 3) !in l.transitions && At(e, 1) !in l.attemptTransitions
  }

  /** The effect ended: its row, its attempt and both histories say how. */
  ghost predicate Ended(l: Ledger, m: Ledger, e: EffectId, state: IntentState, result: Option<Hash>, mark: Mark,
                        attempt: AttemptState, attemptMark: AttemptMark) {
    && RowMoved(l, m, e, state, result)
    && m.attempts == l.attempts[e := attempt]
    && m.transitions == l.transitions[At(e, 3) := mark]
    && m.attemptTransitions == l.attemptTransitions[At(e, 1) := attemptMark]
    && m.authority == l.authority
  }

  /**
   An unknown outcome is recorded exactly when the attempt is open and the branch of the intent is created, running,
   suspended or completed. The effect then ends as unknown, without a result, and that branch alone becomes suspended.
   */
  lemma UnknownMarkedExactlyWhen(l: Ledger, e: EffectId)
    ensures var r := MarkUnknown(l, e);
      && (r.Ok? <==>
            && Undecided(l, e) && l.intents[e].request.at in l.branchStates
            && l.branchStates[l.intents[e].request.at] in {BranchCreated, Running, Suspended, Completed})
      && (r.Ok? ==> var m, at := r.value, l.intents[e].request.at;
            && Ended(l, m, e, Unknown, None, UnknownMark, AttemptUnknown, AttemptUnknownMark)
            && m.branchStates.Keys == l.branchStates.Keys && m.branchStates[at] == Suspended
            && (forall b :: b in l.branchStates && b != at ==> m.branchStates[b] == l.branchStates[b])
            && m.blobRows == l.blobRows)
      && (r == Err(GatewayDatabase) <==> InFlight(l, e) && !Undecided(l, e))
      && (r.Err? ==> r.error in {InvalidStoredValue, GatewayDatabase})
  {
  }

  /** A failure is recorded exactly when the attempt is open; the effect then ends as failed, without a result. */
  lemma FailureMarkedExactlyWhen(l: Ledger, e: EffectId)
    ensures var r := MarkFailed(l, e);
      && (r.Ok? <==> Undecided(l, e))
      && (r.Ok? ==>
            && Ended(l, r.value, e, Failed, None, FailedMark, AttemptFailed, AttemptFailedMark)
            && r.value.branchStates == l.branchStates && r.value.blobRows == l.blobRows)
      && (r == Err(GatewayDatabase) <==> InFlight(l, e) && !Undecided(l, e))
      && (r.Err? ==> r.error in {InvalidStoredValue, GatewayDatabase})
  {
  }

  /** A result is committed exactly when the attempt is open and its blob can be registered; its hash is recorded. */
  lemma ResultCommittedExactlyWhen(l: Ledger, e: EffectId, hash: Hash, length: nat, mediaType: string)
    ensures var r := CommitResult(l, e, hash, BlobRow(length, mediaType));
      && (r.Ok? <==> Undecided(l, e) && (hash !in l.blobRows || l.blobRows[hash] == BlobRow(length, mediaType)))
      && (r.Ok? ==>
            && Ended(l, r.value, e, Succeeded, Some(hash), CommittedMark, AttemptSucceeded, AttemptCommittedMark)
            && r.value.branchStates == l.branchStates
            && r.value.blobRows == l.blobRows[hash := BlobRow(length, mediaType)])
      && (r == Err(BlobMetadataConflict) <==> hash in l.blobRows && l.blobRows[hash] != BlobRow(length, mediaType))
      && (r.Err? && r.error != BlobMetadataConflict ==>
            r.error == if InFlight(l, e) then GatewayDatabase else InvalidStoredValue)
  {
  }

  // ---------------------------------------------------------------- authorize and persist

  /** What the gateway presents to the authority for an intent: the intent's own scope, and the authorizer's charge. */
  ghost predicate IsPresented(u: CapabilityUse, z: Authorizer, intent: CanonicalIntent) {
    && u.scope.at == intent.at && u.scope.subject == z.subject
    && u.scope.action == intent.action && u.scope.resource == intent.resource
    && u.policyRevision == intent.policyRevision && u.budgetUnits == z.budgetUnits
    && u.requestId == intent.operation && u.requestHash == intent.inputHash
  }

  lemma PresentedIsUnique(u: CapabilityUse, z: Authorizer, intent: CanonicalIntent)
    ensures IsPresented(u, z, intent) <==> u == UseFor(z, intent)
  {
  }

  /** The constraints on a new intent row: identifier, replay key and branch, and the branch of its capability. */
  ghost predicate Recordable(l: Ledger, named: Option<CapabilityId>, effect: EffectId, intent: CanonicalIntent) {
    && effect !in l.intents
    && (forall e :: e in l.intents && l.intents[e].request.at.branch == intent.at.branch ==>
          l.intents[e].request.replayKey != intent.replayKey)
    && intent.at in l.authority.branches
    && (named.Some? ==>
       named.value in l.authority.capabilities && l.authority.capabilities[named.value].scope.at == intent.at)
  }

  /** A new intent: its row, its two transitions, its blob row, and what the authority wrote for its use. */
  ghost predicate Persists(l: Ledger, z: Authorizer, u: CapabilityUse, intent: CanonicalIntent, effect: EffectId,
                           input: BlobRow,
                           clock: int, m: Ledger) {
    var allowed := Answer(l.authority, z.handleHash, u, clock) == Allowed;
    && Leaves(l.authority, z.handleHash, u, clock, m.authority)
    && m.intents == l.intents[effect :=
       Intent(intent, Named(l.authority, z.handleHash), if allowed then Prepared else Denied, None, 0)]
    && m.transitions
       == l.transitions[At(effect, 0) := RequestedMark][At(effect, 1) := if allowed then PreparedMark else FailedMark]
    && m.blobRows == l.blobRows[intent.inputHash := input]
    && m.attempts == l.attempts && m.attemptTransitions == l.attemptTransitions && m.branchStates == l.branchStates
  }

  /** The rows of the authority after an answered use belong to the same branches as before. */
  lemma LeavesKeepsBranches(a: Authority, hash: Hash, u: CapabilityUse, now: int, b: Authority)
    requires Valid(a) && Leaves(a, hash, u, now, b)
    ensures b.branches == a.branches && b.capabilities.Keys == a.capabilities.Keys
    ensures forall x :: x in a.capabilities ==> b.capabilities[x].scope == a.capabilities[x].scope
  {
    hide Valid, Chain, Answer;
  }

  /**
   An intent is persisted exactly when its use can be answered, its blob registered and its row recorded. Everything
   that is then written is what the use leaves, under the authorizer's own subject and charge, and the rows of the
   intent; on any failure nothing is.
   */
  lemma PersistedExactlyWhen(l: Ledger, z: Authorizer, u: CapabilityUse, intent: CanonicalIntent, effect: EffectId,
                             input: BlobRow,
                             clock: int)
    requires Valid(l.authority) && IsPresented(u, z, intent) && Find(l, intent.operation).None?
    ensures var r, named := AuthorizeAndPersist(l, z, intent, effect, input, clock), Named(l.authority, z.handleHash);
      && (r.Ok? <==>
            && Answerable(l.authority, z.handleHash, u, clock)
            && (intent.inputHash !in l.blobRows || l.blobRows[intent.inputHash] == input)
            && Recordable(l, named, effect, intent))
      && (r.Ok? ==>
            && Persists(l, z, u, intent, effect, input, clock, r.value.0)
            && r.value.1 == if Answer(l.authority, z.handleHash, u, clock) == Allowed then Fresh(effect) else Refused)
      && (r == Err(AuthorizationUnavailable) <==> !Answerable(l.authority, z.handleHash, u, clock))
      && (r == Err(BlobMetadataConflict) <==>
            && Answerable(l.authority, z.handleHash, u, clock)
            && intent.inputHash in l.blobRows && l.blobRows[intent.inputHash] != input)
      && (r.Err? ==> r.error in {AuthorizationUnavailable, BlobMetadataConflict, GatewayDatabase})
  {
    PresentedIsUnique(u, z, intent);
    hide Valid, IsPresented, UseFor, Find, AuthorizeInTransaction, Transact, Answerable, Leaves, Insertable;
    hide Recordable, AddIntent;
    UseAnsweredExactlyWhen(l.authority, z.handleHash, u, clock);
    UseReplies(l.authority, z.handleHash, u, clock);
    var r := AuthorizeInTransaction(l.authority, z.handleHash, u, clock);
    if r.Ok? {
      LeavesKeepsBranches(l.authority, z.handleHash, u, clock, r.value.0);
      InsertableMeans(l, r.value.0, effect, intent, r.value.1.capability);
      AnswerNames(l.authority, z.handleHash, u, clock);
      IntentAdded(l, z, u, intent, effect, input, clock, r.value.0);
      hide Persists, Answer;
    } else {
      hide Persists, Answer;
    }
  }

  /** Only a named capability is ever allowed. */
  lemma AnswerNames(a: Authority, hash: Hash, u: CapabilityUse, now: int)
    ensures Answer(a, hash, u, now) == Allowed ==> Named(a, hash).Some?
  {
    hide Verdict;
  }

  lemma InsertableMeans(l: Ledger, b: Authority, effect: EffectId, intent: CanonicalIntent, named: Option<CapabilityId>)
    requires b.branches == l.authority.branches && b.capabilities.Keys == l.authority.capabilities.Keys
    requires forall x :: x in l.authority.capabilities ==> b.capabilities[x].scope == l.authority.capabilities[x].scope
    ensures Insertable(l, b, effect, intent, named) <==> Recordable(l, named, effect, intent)
  {
  }

  lemma IntentAdded(l: Ledger, z: Authorizer, u: CapabilityUse, intent: CanonicalIntent, effect: EffectId,
                    input: BlobRow, clock: int,
                    b: Authority)
    requires Leaves(l.authority, z.handleHash, u, clock, b)
    ensures var d := Decision(Answer(l.authority, z.handleHash, u, clock), Named(l.authority, z.handleHash));
      Persists(l, z, u, intent, effect, input, clock,
        AddIntent(l, b, l.blobRows[intent.inputHash := input], effect, intent, d))
  {
    AnswerNames(l.authority, z.handleHash, u, clock);
    hide Leaves, Answer;
  }

  // ---------------------------------------------------------------- what a reply says

  /** The outcome of an effect is on record as unknown, and its branch is suspended. */
  ghost predicate LostTrack(l: Ledger, e: EffectId) {
    && e in l.intents && l.intents[e].state == Unknown && l.intents[e].resultHash.None?
    && l.intents[e].request.at in l.branchStates && l.branchStates[l.intents[e].request.at] == Suspended
  }

  /** What a call that stops at a stage with a reply has done to the ledger. */
  ghost predicate Tells(digest: Bytes -> Hash, s: System, t: System, c: Caller, reply: Result<Receipt, GatewayError>)
    requires c in s.calls
  {
    var call, l, m := s.calls[c], s.ledger, t.ledger;
    match call.stage
    case Ready(e) => m == l && (reply == Err(FaultInjected) <==> call.fault == AfterPrepared)
    case Marked(e) =>
      call.fault == AfterDispatchedBeforeInvoke && t.invocations == s.invocations
      && (if reply == Err(FaultInjected) then LostTrack(m, e) else m == l)
    case Invoked(e, outcome) =>
      if reply == Err(FaultInjected) then call.fault == AfterInvokeBeforeCommit && LostTrack(m, e)
      else if reply == Err(DispatchFailed) then
        outcome.Declined? && e in m.intents && m.intents[e].state == Failed && m.intents[e].resultHash.None?
      else reply.Err? && m == l
    case ResultStored(e, bytes, mediaType) =>
      if reply.Ok? then
        && reply.value == Receipt(call.intent.operation, call.intent.inputHash, digest(bytes), bytes, false)
        && e in m.intents && m.intents[e].state == Succeeded && m.intents[e].resultHash == Some(digest(bytes))
        && digest(bytes) in m.blobRows && m.blobRows[digest(bytes)] == BlobRow(|bytes|, mediaType)
      else m == l
    case Resolving(row) => m == l && RowAnswers(digest, s.blobs, call.intent, row, reply)
    case Storing =>
      var h := digest(call.intent.input);
      m == l && reply == Err(BlobFailure) && h in s.blobs && digest(s.blobs[h]) != h
    case Persisting =>
      if reply == Err(AuthorizationDenied) then exists e :: RefusalRecorded(l, m, e, call.intent)
      else m == l && reply.Err? && reply.error in {AuthorizationUnavailable, BlobMetadataConflict, GatewayDatabase}
    case _ => false
  }

  /** A new row says that the intent was denied. */
  ghost predicate RefusalRecorded(l: Ledger, m: Ledger, e: EffectId, intent: CanonicalIntent) {
    e !in l.intents && e in m.intents && m.intents[e].state == Denied && m.intents[e].request == intent
  }

  /** The answer to a call that meets an existing row. */
  ghost predicate RowAnswers(digest: Bytes -> Hash, blobs: Blobs, intent: CanonicalIntent, row: Intent,
                             reply: Result<Receipt, GatewayError>) {
    if row.request.inputHash != intent.inputHash then reply == Err(OperationInputConflict)
    else if row.state != Succeeded then reply == Err(UnresolvedOperation)
    else if reply.Ok? then
      && row.resultHash == Some(reply.value.resultHash) && reply.value.resultHash in blobs
      && reply.value
         == Receipt(intent.operation, intent.inputHash, reply.value.resultHash, blobs[reply.value.resultHash], true)
      && digest(reply.value.result) == reply.value.resultHash
    else
      || (row.resultHash.None? && reply == Err(InvalidStoredValue))
      || (row.resultHash.Some? && reply == Err(BlobFailure)
          && (row.resultHash.value in blobs ==> digest(blobs[row.resultHash.value]) != row.resultHash.value))
  }

  lemma RowAnswered(digest: Bytes -> Hash, blobs: Blobs, intent: CanonicalIntent, row: Intent)
    ensures RowAnswers(digest, blobs, intent, row, ResolveExisting(digest, blobs, intent, row))
  {
  }

  lemma UnknownLosesTrack(l: Ledger, e: EffectId)
    requires MarkUnknown(l, e).Ok?
    ensures LostTrack(MarkUnknown(l, e).value, e)
  {
    UnknownMarkedExactlyWhen(l, e);
    hide MarkUnknown;
  }

  /** The step that ends a call, from any stage. */
  ghost predicate Returns(digest: Bytes -> Hash, s: System, c: Caller, choice: Choice) {
    && c in s.calls && !s.calls[c].stage.Returned?
    && c in Advance(digest, s, c, choice).calls && Advance(digest, s, c, choice).calls[c].stage.Returned?
  }

  lemma DispatchRepliesTell(digest: Bytes -> Hash, s: System, c: Caller, choice: Choice)
    requires Returns(digest, s, c, choice) && (s.calls[c].stage.Ready? || s.calls[c].stage.Marked?)
    ensures var t := Advance(digest, s, c, choice); Tells(digest, s, t, c, t.calls[c].stage.reply)
  {
    var e := s.calls[c].stage.effect;
    DispatchMarkedExactlyWhen(s.ledger, e);
    DispatchErrors(s.ledger, e);
    if MarkUnknown(s.ledger, e).Ok? { UnknownLosesTrack(s.ledger, e); }
    hide MarkDispatched, MarkUnknown, LostTrack, RowMoved;
  }

  /** No transaction answers as if a fault had been injected or the dispatcher had declined. */
  lemma DispatchErrors(l: Ledger, e: EffectId)
    ensures MarkDispatched(l, e).Err? ==> MarkDispatched(l, e).error in {ConcurrentStateChange, GatewayDatabase}
    ensures MarkUnknown(l, e).Err? ==> MarkUnknown(l, e).error in {InvalidStoredValue, GatewayDatabase}
    ensures MarkFailed(l, e).Err? ==> MarkFailed(l, e).error in {InvalidStoredValue, GatewayDatabase}
  {
  }

  lemma FailureFails(l: Ledger, e: EffectId)
    requires MarkFailed(l, e).Ok?
    ensures var m := MarkFailed(l, e).value;
      e in m.intents && m.intents[e].state == Failed && m.intents[e].resultHash.None?
  {
    FailureMarkedExactlyWhen(l, e);
    hide MarkFailed;
  }

  lemma InvokedRepliesTell(digest: Bytes -> Hash, s: System, c: Caller, choice: Choice)
    requires Returns(digest, s, c, choice) && s.calls[c].stage.Invoked?
    ensures var t := Advance(digest, s, c, choice); Tells(digest, s, t, c, t.calls[c].stage.reply)
  {
    var e := s.calls[c].stage.effect;
    AdvanceInvoked(digest, s, c, choice);
    hide MarkFailed, MarkUnknown, LostTrack, Put, RowAnswers, Advance;
    DispatchErrors(s.ledger, e);
    if MarkFailed(s.ledger, e).Ok? { FailureFails(s.ledger, e); }
    if MarkUnknown(s.ledger, e).Ok? { UnknownLosesTrack(s.ledger, e); }
  }

  lemma AdvanceInvoked(digest: Bytes -> Hash, s: System, c: Caller, choice: Choice)
    requires c in s.calls && s.calls[c].stage.Invoked?
    ensures var call := s.calls[c];
      var e, outcome := call.stage.effect, call.stage.outcome;
      Advance(digest, s, c, choice) ==
        if call.fault == AfterInvokeBeforeCommit
        then Attempt(s, c, MarkUnknown(s.ledger, e), Returned(Err(FaultInjected)))
        else if outcome.Declined? then Attempt(s, c, MarkFailed(s.ledger, e), Returned(Err(DispatchFailed)))
        else if Put(digest, s.blobs, outcome.bytes).None? then MoveTo(s, c, Returned(Err(BlobFailure)))
        else MoveTo(s.(blobs := Put(digest, s.blobs, outcome.bytes).value), c,
          ResultStored(e, outcome.bytes, outcome.mediaType))
  {
    hide MarkFailed, MarkUnknown, Put, Attempt, MoveTo, AuthorizeAndPersist, Find, MarkDispatched;
    hide CommitResult, ResolveExisting;
  }

  lemma StoredRepliesTell(digest: Bytes -> Hash, s: System, c: Caller, choice: Choice)
    requires Returns(digest, s, c, choice) && s.calls[c].stage.ResultStored?
    ensures var t := Advance(digest, s, c, choice); Tells(digest, s, t, c, t.calls[c].stage.reply)
  {
    var stage := s.calls[c].stage;
    AdvanceStored(digest, s, c, choice);
    ResultCommittedExactlyWhen(s.ledger, stage.effect, digest(stage.bytes), |stage.bytes|, stage.mediaType);
    hide CommitResult, Advance;
  }

  lemma EarlyRepliesTell(digest: Bytes -> Hash, s: System, c: Caller, choice: Choice)
    requires Returns(digest, s, c, choice)
    requires var stage := s.calls[c].stage; stage.Finding? || stage.Storing? || stage.Resolving? || stage.Crashed?
    ensures var t := Advance(digest, s, c, choice); Tells(digest, s, t, c, t.calls[c].stage.reply)
  {
    var stage := s.calls[c].stage;
    if stage.Resolving? { RowAnswered(digest, s.blobs, s.calls[c].intent, stage.row); }
    hide RowAnswers, ResolveExisting, Find, AuthorizeAndPersist;
  }

  lemma PersistingRepliesTell(digest: Bytes -> Hash, s: System, c: Caller, choice: Choice)
    requires Returns(digest, s, c, choice) && s.calls[c].stage.Persisting?
    ensures var t := Advance(digest, s, c, choice); Tells(digest, s, t, c, t.calls[c].stage.reply)
  {
    var call := s.calls[c];
    var input := BlobRow(|call.intent.input|, INPUT_MEDIA_TYPE);
    PersistAnswers(s.ledger, call.authorizer, call.intent, choice.effect, input, choice.clock);
    hide RowAnswers, Find, AuthorizeAndPersist, RefusalRecorded;
  }

  lemma PersistAnswers(l: Ledger, z: Authorizer, intent: CanonicalIntent, effect: EffectId, input: BlobRow, clock: int)
    ensures var r := AuthorizeAndPersist(l, z, intent, effect, input, clock);
      && (r.Err? ==> r.error in {AuthorizationUnavailable, BlobMetadataConflict, GatewayDatabase})
      && (r.Ok? && r.value.1.Refused? ==> RefusalRecorded(l, r.value.0, effect, intent))
      && (r.Ok? && r.value.1.Existing? ==> r.value.1.effect in l.intents)
  {
    hide AuthorizeInTransaction;
  }

  /** A call that finds its operation recorded, at once or on persisting, answers from that row and touches nothing. */
  lemma RecordedOperationAnswers(digest: Bytes -> Hash, s: System, c: Caller, choice: Choice, later: Choice)
    requires c in s.calls && (s.calls[c].stage.Finding? || s.calls[c].stage.Persisting?)
    requires Find(s.ledger, s.calls[c].intent.operation).Some?
    ensures var t, e := Advance(digest, s, c, choice), Find(s.ledger, s.calls[c].intent.operation).value;
      && c in t.calls
      && var u := Advance(digest, t, c, later);
      && u == s.(calls := u.calls) && c in u.calls && u.calls[c].stage.Returned?
      && RowAnswers(digest, s.blobs, s.calls[c].intent, s.ledger.intents[e], u.calls[c].stage.reply)
  {
    var intent, e := s.calls[c].intent, Find(s.ledger, s.calls[c].intent.operation).value;
    RowAnswered(digest, s.blobs, intent, s.ledger.intents[e]);
    ReadsRow(digest, s, c, choice);
    hide RowAnswers, ResolveExisting, Find, AuthorizeAndPersist;
  }

  lemma ReadsRow(digest: Bytes -> Hash, s: System, c: Caller, choice: Choice)
    requires c in s.calls && (s.calls[c].stage.Finding? || s.calls[c].stage.Persisting?)
    requires Find(s.ledger, s.calls[c].intent.operation).Some?
    ensures Advance(digest, s, c, choice)
      == MoveTo(s, c, Resolving(s.ledger.intents[Find(s.ledger, s.calls[c].intent.operation).value]))
  {
    hide Find, AuthorizeInTransaction;
    assert s.(ledger := s.ledger) == s;
  }

  /** Whatever the state, the reply of a call tells what it did: nothing is reported that the ledger does not hold. */
  lemma RepliesTell(digest: Bytes -> Hash, s: System, c: Caller, choice: Choice)
    requires Returns(digest, s, c, choice)
    ensures var t := Advance(digest, s, c, choice); Tells(digest, s, t, c, t.calls[c].stage.reply)
  {
    var stage := s.calls[c].stage;
    if stage.Ready? || stage.Marked? { DispatchRepliesTell(digest, s, c, choice); hide Advance, Tells; }
    else if stage.Invoked? { InvokedRepliesTell(digest, s, c, choice); hide Advance, Tells; }
    else if stage.ResultStored? { StoredRepliesTell(digest, s, c, choice); hide Advance, Tells; }
    else if stage.Persisting? { PersistingRepliesTell(digest, s, c, choice); hide Advance, Tells; }
    else {
      hide Tells, AuthorizeAndPersist, Find, Put, ResolveExisting;
      EarlyRepliesTell(digest, s, c, choice);
    }
  }

  /**
   In every run: a call whose fault strikes after dispatch and that returns it as injected leaves its effect unknown,
   without a result, and the branch of its intent suspended.
   */
  lemma InjectedFaultSuspends(digest: Bytes -> Hash, a: Authority, branches: map<BranchKey, BranchState>,
                              events: seq<Event>,
                              c: Caller, choice: Choice)
    requires Valid(a)
    requires var s := RunSystem(digest, Start(a, branches), events);
      && Returns(digest, s, c, choice) && (s.calls[c].stage.Marked? || s.calls[c].stage.Invoked?)
      && Advance(digest, s, c, choice).calls[c].stage == Returned(Err(FaultInjected))
    ensures var s := RunSystem(digest, Start(a, branches), events);
      var t := RunSystem(digest, Start(a, branches), events + [Proceed(c, choice)]);
      && LostTrack(t.ledger, s.calls[c].stage.effect)
      && t.ledger.intents[s.calls[c].stage.effect].request == s.calls[c].intent
      && s.calls[c].intent.at in t.ledger.branchStates && t.ledger.branchStates[s.calls[c].intent.at] == Suspended
  {
    var s := RunSystem(digest, Start(a, branches), events);
    assert (events + [Proceed(c, choice)])[..|events|] == events;
    RepliesTell(digest, s, c, choice);
    StartInv(digest, a, branches);
    RunKeepsInv(digest, Start(a, branches), events);
    StepEvolves(digest, s, Proceed(c, choice));
    OwnedIsOwn(digest, s, c);
    assert Step(digest, s, Proceed(c, choice)) == Advance(digest, s, c, choice);
    assert RunSystem(digest, Start(a, branches), events + [Proceed(c, choice)]) == Step(digest, s, Proceed(c, choice));
    var e := s.calls[c].stage.effect;
    assert RowEvolves(s.ledger.intents, Advance(digest, s, c, choice).ledger.intents, e);
    hide RunSystem, Advance, Inv, Start, Step, RowsEvolve;
  }

  lemma OwnedIsOwn(digest: Bytes -> Hash, s: System, c: Caller)
    requires Inv(digest, s) && c in s.calls && Owned(s.calls[c].stage).Some?
    ensures var e := Owned(s.calls[c].stage).value;
      e in s.ledger.intents && s.ledger.intents[e].request == s.calls[c].intent
  {
    hide Valid, Shaped, UniqueOperations, AllFunded, Intact, ResultsStored, Exclusive, InvocationsSound, WasInvoked;
    assert CallSound(digest, s.ledger.intents, s.blobs, s.invocations, s.calls[c]);
  }

  // ---------------------------------------------------------------- inputs are stored first

  /** Every recorded intent has its input in the blob store, and so has every call about to record one. */
  ghost predicate InputsStored(s: System) {
    && (forall e :: e in s.ledger.intents ==> s.ledger.intents[e].request.inputHash in s.blobs)
    && (forall c :: c in s.calls && s.calls[c].stage.Persisting? ==> s.calls[c].intent.inputHash in s.blobs)
  }

  ghost predicate Digested(digest: Bytes -> Hash, s: System) {
    forall c :: c in s.calls ==> s.calls[c].intent.inputHash == digest(s.calls[c].intent.input)
  }

  /** Marks and commits record no new row. */
  lemma MarksAddNoRow(l: Ledger, e: EffectId, h: Hash, row: BlobRow)
    ensures MarkDispatched(l, e).Ok? ==> MarkDispatched(l, e).value.intents.Keys == l.intents.Keys
    ensures MarkUnknown(l, e).Ok? ==> MarkUnknown(l, e).value.intents.Keys == l.intents.Keys
    ensures MarkFailed(l, e).Ok? ==> MarkFailed(l, e).value.intents.Keys == l.intents.Keys
    ensures CommitResult(l, e, h, row).Ok? ==> CommitResult(l, e, h, row).value.intents.Keys == l.intents.Keys
  {
  }

  lemma PersistAddsItsRow(l: Ledger, z: Authorizer, intent: CanonicalIntent, effect: EffectId, input: BlobRow,
                          clock: int, e: EffectId)
    requires AuthorizeAndPersist(l, z, intent, effect, input, clock).Ok?
    requires e in AuthorizeAndPersist(l, z, intent, effect, input, clock).value.0.intents && e !in l.intents
    ensures AuthorizeAndPersist(l, z, intent, effect, input, clock).value.0.intents[e].request == intent
  {
    hide AuthorizeInTransaction, Find, Insertable;
  }

  /** A step records no row but that of a call at the point of persisting. */
  lemma RowsComeFromPersisting(digest: Bytes -> Hash, s: System, event: Event, e: EffectId)
    requires e in Step(digest, s, event).ledger.intents && e !in s.ledger.intents
    ensures event.Proceed? && event.caller in s.calls && s.calls[event.caller].stage.Persisting?
    ensures Step(digest, s, event).ledger.intents[e].request == s.calls[event.caller].intent
  {
    hide AuthorizeAndPersist, Find, Put, ResolveExisting, Commit, MarkDispatched, MarkUnknown, MarkFailed, CommitResult;
    if event.Proceed? && event.caller in s.calls {
      var call, l := s.calls[event.caller], s.ledger;
      if call.stage.ResultStored? {
        MarksAddNoRow(l, call.stage.effect, digest(call.stage.bytes),
          BlobRow(|call.stage.bytes|, call.stage.mediaType));
      } else if Owned(call.stage).Some? {
        MarksAddNoRow(l, call.stage.effect, "", BlobRow(0, ""));
      } else if call.stage.Persisting? {
        var row := BlobRow(|call.intent.input|, INPUT_MEDIA_TYPE);
        if AuthorizeAndPersist(l, call.authorizer, call.intent, event.choice.effect, row, event.choice.clock).Ok? {
          PersistAddsItsRow(l, call.authorizer, call.intent, event.choice.effect, row, event.choice.clock, e);
        }
      }
    }
  }

  /** The calls of a system after one step: the intents stay, and a call comes to persisting with its input stored. */
  lemma CallsAfterStep(digest: Bytes -> Hash, s: System, event: Event, c: Caller)
    requires Digested(digest, s) && c in Step(digest, s, event).calls
    ensures var t := Step(digest, s, event);
      && t.calls[c].intent.inputHash == digest(t.calls[c].intent.input)
      && (t.calls[c].stage.Persisting? ==>
            t.calls[c].intent.inputHash in t.blobs
              || (c in s.calls && s.calls[c].stage.Persisting? && t.calls[c].intent == s.calls[c].intent))
  {
    hide AuthorizeAndPersist, Find, ResolveExisting, Commit, MarkDispatched, MarkUnknown, MarkFailed, CommitResult, Put;
    if event.Proceed? && event.caller in s.calls { PutStores(digest, s.blobs, s.calls[event.caller].intent.input); }
  }

  lemma PutStores(digest: Bytes -> Hash, blobs: Blobs, bytes: Bytes)
    ensures Put(digest, blobs, bytes).Some? ==> digest(bytes) in Put(digest, blobs, bytes).value
  {
  }

  lemma StepKeepsInputs(digest: Bytes -> Hash, s: System, event: Event)
    requires InputsStored(s) && Digested(digest, s)
    ensures InputsStored(Step(digest, s, event)) && Digested(digest, Step(digest, s, event))
  {
    var t := Step(digest, s, event);
    StepEvolves(digest, s, event);
    hide Step, RowsEvolve;
    assert forall h :: h in s.blobs ==> h in t.blobs;
    forall e | e in t.ledger.intents ensures t.ledger.intents[e].request.inputHash in t.blobs {
      if e in s.ledger.intents { RowStays(s.ledger.intents, t.ledger.intents, e); }
      else { RowsComeFromPersisting(digest, s, event, e); }
    }
    forall c | c in t.calls
      ensures t.calls[c].intent.inputHash == digest(t.calls[c].intent.input)
      ensures t.calls[c].stage.Persisting? ==> t.calls[c].intent.inputHash in t.blobs
    {
      CallsAfterStep(digest, s, event, c);
    }
  }

  lemma RowStays(before: map<EffectId, Intent>, after: map<EffectId, Intent>, e: EffectId)
    requires RowsEvolve(before, after) && e in before
    ensures e in after && after[e].request == before[e].request
  {
    assert RowEvolves(before, after, e);
  }

  /** In every run, the input of every recorded intent is in the blob store. */
  lemma {:induction false} RecordedInputsAreStored(digest: Bytes -> Hash, a: Authority,
                                                   branches: map<BranchKey, BranchState>,
                                                   events: seq<Event>)
    ensures var s := RunSystem(digest, Start(a, branches), events); InputsStored(s) && Digested(digest, s)
  {
    if events != [] {
      var n := |events| - 1;
      RecordedInputsAreStored(digest, a, branches, events[..n]);
      hide InputsStored, Digested, Step;
      StepKeepsInputs(digest, RunSystem(digest, Start(a, branches), events[..n]), events[n]);
    }
  }

  // ---------------------------------------------------------------- a call that nothing disturbs

  /** The ledger after a call went all the way: persisted, dispatched, committed. */
  ghost predicate Completes(l: Ledger, z: Authorizer, intent: CanonicalIntent, choice: Choice, input: BlobRow,
                            hash: Hash,
                            persisted: Ledger, marked: Ledger, committed: Ledger)
    requires choice.outcome.Accepted?
  {
    && AuthorizeAndPersist(l, z, intent, choice.effect, input, choice.clock) == Ok((persisted, Fresh(choice.effect)))
    && MarkDispatched(persisted, choice.effect) == Ok(marked)
    && CommitResult(marked, choice.effect, hash, BlobRow(|choice.outcome.bytes|, choice.outcome.mediaType))
       == Ok(committed)
  }

  /** Everything a new operation needs to go through. */
  ghost predicate GoesThrough(l: Ledger, z: Authorizer, u: CapabilityUse, intent: CanonicalIntent, choice: Choice,
                              input: BlobRow,
                              hash: Hash)
    requires choice.outcome.Accepted?
  {
    && IsPresented(u, z, intent) && Find(l, intent.operation).None?
    && Answer(l.authority, z.handleHash, u, choice.clock) == Allowed
    && Answerable(l.authority, z.handleHash, u, choice.clock)
    && Recordable(l, Named(l.authority, z.handleHash), choice.effect, intent)
    && (intent.inputHash !in l.blobRows || l.blobRows[intent.inputHash] == input)
    && var rows, row :=
       l.blobRows[intent.inputHash := input], BlobRow(|choice.outcome.bytes|, choice.outcome.mediaType);
    (hash !in rows || rows[hash] == row)
  }

  /** From a prepared row: the dispatched mark and then the commit go through. */
  lemma DispatchThenCommit(l: Ledger, e: EffectId, hash: Hash, row: BlobRow)
    requires Shaped(l) && e in l.intents && l.intents[e].state == Prepared
        && (hash !in l.blobRows || l.blobRows[hash] == row)
    ensures MarkDispatched(l, e).Ok? && CommitResult(MarkDispatched(l, e).value, e, hash, row).Ok?
    ensures var m := CommitResult(MarkDispatched(l, e).value, e, hash, row).value;
      && e in m.intents && m.intents[e].request == l.intents[e].request && m.authority == l.authority
      && m.intents[e].state == Succeeded && m.intents[e].resultHash == Some(hash)
  {
    DispatchKeepsShape(l, e);
    DispatchMarkedExactlyWhen(l, e);
    var marked := MarkDispatched(l, e).value;
    hide MarkDispatched, Shaped;
    ResolveKeepsShape(marked, e, ToSucceeded(hash));
    ResolvableIsUndecided(marked, e, ToSucceeded(hash));
    ResultCommittedExactlyWhen(marked, e, hash, row.length, row.mediaType);
    hide CommitResult, Resolve, Undecided;
  }

  lemma CompletesBy(l: Ledger, z: Authorizer, intent: CanonicalIntent, choice: Choice, input: BlobRow, hash: Hash)
    requires choice.outcome.Accepted?
    requires AuthorizeAndPersist(l, z, intent, choice.effect, input, choice.clock).Ok?
    requires AuthorizeAndPersist(l, z, intent, choice.effect, input, choice.clock).value.1 == Fresh(choice.effect)
    requires var p, row := AuthorizeAndPersist(l, z, intent, choice.effect, input, choice.clock).value.0,
                           BlobRow(|choice.outcome.bytes|, choice.outcome.mediaType);
      MarkDispatched(p, choice.effect).Ok?
        && CommitResult(MarkDispatched(p, choice.effect).value, choice.effect, hash, row).Ok?
    ensures var p, row := AuthorizeAndPersist(l, z, intent, choice.effect, input, choice.clock).value.0,
                          BlobRow(|choice.outcome.bytes|, choice.outcome.mediaType);
      var m := MarkDispatched(p, choice.effect).value;
      Completes(l, z, intent, choice, input, hash, p, m, CommitResult(m, choice.effect, hash, row).value)
  {
    hide AuthorizeAndPersist, MarkDispatched, CommitResult;
  }

  lemma PersistedFresh(l: Ledger, z: Authorizer, u: CapabilityUse, intent: CanonicalIntent, choice: Choice,
                       input: BlobRow, hash: Hash)
    requires choice.outcome.Accepted? && Valid(l.authority) && GoesThrough(l, z, u, intent, choice, input, hash)
    ensures var r, e := AuthorizeAndPersist(l, z, intent, choice.effect, input, choice.clock), choice.effect;
      && r.Ok? && r.value.1 == Fresh(e) && Leaves(l.authority, z.handleHash, u, choice.clock, r.value.0.authority)
      && e in r.value.0.intents && r.value.0.intents[e].request == intent && r.value.0.intents[e].state == Prepared
      && (hash !in r.value.0.blobRows
          || r.value.0.blobRows[hash] == BlobRow(|choice.outcome.bytes|, choice.outcome.mediaType))
  {
    hide AuthorizeAndPersist, Valid, Leaves, Find, Answer, Answerable, Recordable, IsPresented;
    PersistedExactlyWhen(l, z, u, intent, choice.effect, input, choice.clock);
  }

  lemma LedgerCompletes(l: Ledger, z: Authorizer, u: CapabilityUse, intent: CanonicalIntent, choice: Choice,
                        input: BlobRow, hash: Hash)
    returns (persisted: Ledger, marked: Ledger, committed: Ledger)
    requires choice.outcome.Accepted? && Valid(l.authority) && Shaped(l)
        && GoesThrough(l, z, u, intent, choice, input, hash)
    ensures Completes(l, z, intent, choice, input, hash, persisted, marked, committed)
    ensures choice.effect in committed.intents && committed.intents[choice.effect].request == intent
    ensures committed.intents[choice.effect].state == Succeeded
        && committed.intents[choice.effect].resultHash == Some(hash)
    ensures Leaves(l.authority, z.handleHash, u, choice.clock, committed.authority)
  {
    var e, row := choice.effect, BlobRow(|choice.outcome.bytes|, choice.outcome.mediaType);
    hide AuthorizeAndPersist, Valid, Shaped, Leaves, GoesThrough, MarkDispatched, CommitResult, Completes;
    PersistedFresh(l, z, u, intent, choice, input, hash);
    PersistShapes(l, z, intent, e, input, choice.clock);
    persisted := AuthorizeAndPersist(l, z, intent, e, input, choice.clock).value.0;
    DispatchThenCommit(persisted, e, hash, row);
    CompletesBy(l, z, intent, choice, input, hash);
    marked := MarkDispatched(persisted, e).value;
    committed := CommitResult(marked, e, hash, row).value;
  }

  lemma ResolvableIsUndecided(l: Ledger, e: EffectId, r: Resolution)
    requires Resolve(l, e, r).Ok?
    ensures Undecided(l, e)
  {
  }

  lemma PersistShapes(l: Ledger, z: Authorizer, intent: CanonicalIntent, effect: EffectId, input: BlobRow, clock: int)
    requires Shaped(l) && AuthorizeAndPersist(l, z, intent, effect, input, clock).Ok?
    ensures Shaped(AuthorizeAndPersist(l, z, intent, effect, input, clock).value.0)
  {
    if Find(l, intent.operation).None? {
      var (a, d) := AuthorizeInTransaction(l.authority, z.handleHash, UseFor(z, intent), clock).value;
      var rows := RegisterBlob(l.blobRows, intent.inputHash, input).value;
      AddKeepsShape(l, a, rows, effect, intent, d);
    }
    hide Shaped, AuthorizeInTransaction, Find;
  }

  lemma IntactPut(digest: Bytes -> Hash, blobs: Blobs, bytes: Bytes)
    requires Intact(digest, blobs)
    ensures var r := Put(digest, blobs, bytes);
      && r.Some? && Intact(digest, r.value) && digest(bytes) in r.value
      && (forall h :: h in blobs ==> h in r.value && r.value[h] == blobs[h])
  {
  }

  /** The seven steps of a call that goes through. */
  lemma DriveThrough(digest: Bytes -> Hash, l: Ledger, blobs: Blobs, log: seq<Invocation>, intent: CanonicalIntent,
                     z: Authorizer,
                     choice: Choice, persisted: Ledger, marked: Ledger, committed: Ledger)
    requires choice.outcome.Accepted? && Intact(digest, blobs) && Find(l, intent.operation).None?
    requires Completes(l, z, intent, choice, BlobRow(|intent.input|, INPUT_MEDIA_TYPE), digest(choice.outcome.bytes),
                       persisted, marked, committed)
    ensures var stored := Put(digest, blobs, intent.input).value;
      var bytes := choice.outcome.bytes;
      var receipt := Receipt(intent.operation, intent.inputHash, digest(bytes), bytes, false);
      && Put(digest, blobs, intent.input).Some? && Put(digest, stored, bytes).Some?
      && Drive(digest, Alone(l, blobs, log, intent, z, NoFault, Finding), choice, 7)
         == Alone(committed, Put(digest, stored, bytes).value,
           log + [Invocation(intent.operation, choice.effect, intent.inputHash)],
                  intent, z, NoFault, Returned(Ok(receipt)))
  {
    var e, bytes := choice.effect, choice.outcome.bytes;
    hide Intact, Put, Find, AuthorizeAndPersist, MarkDispatched, CommitResult, Drive, INPUT_MEDIA_TYPE;
    IntactPut(digest, blobs, intent.input);
    var stored := Put(digest, blobs, intent.input).value;
    IntactPut(digest, stored, bytes);
    var all := Put(digest, stored, bytes).value;
    DriveToPersisting(digest, l, blobs, stored, log, intent, z, choice);
    DriveToMarked(digest, l, stored, log, intent, z, choice, persisted, marked);
    DriveRest(digest, marked, stored, all, log, intent, z, choice, committed);
  }

  lemma DriveToPersisting(digest: Bytes -> Hash, l: Ledger, blobs: Blobs, stored: Blobs, log: seq<Invocation>,
                          intent: CanonicalIntent,
                          z: Authorizer, choice: Choice)
    requires Find(l, intent.operation).None? && Put(digest, blobs, intent.input) == Some(stored)
    ensures Drive(digest, Alone(l, blobs, log, intent, z, NoFault, Finding), choice, 7)
         == Drive(digest, Alone(l, stored, log, intent, z, NoFault, Persisting), choice, 5)
  {
    hide Put, Find, Drive, Next;
    var s0 := Alone(l, blobs, log, intent, z, NoFault, Finding);
    var s1 := Alone(l, blobs, log, intent, z, NoFault, Storing);
    NextFinding(digest, s0, choice);
    NextStoring(digest, s1, choice);
    DriveNext(digest, s0, choice, 7);
    DriveNext(digest, s1, choice, 6);
  }

  lemma DriveToMarked(digest: Bytes -> Hash, l: Ledger, blobs: Blobs, log: seq<Invocation>, intent: CanonicalIntent,
                      z: Authorizer,
                      choice: Choice, persisted: Ledger, marked: Ledger)
    requires AuthorizeAndPersist(l, z, intent, choice.effect, BlobRow(|intent.input|, INPUT_MEDIA_TYPE), choice.clock)
          == Ok((persisted, Fresh(choice.effect)))
    requires MarkDispatched(persisted, choice.effect) == Ok(marked)
    ensures Drive(digest, Alone(l, blobs, log, intent, z, NoFault, Persisting), choice, 5)
         == Drive(digest, Alone(marked, blobs, log, intent, z, NoFault, Marked(choice.effect)), choice, 3)
  {
    hide AuthorizeAndPersist, MarkDispatched, Drive, Next, INPUT_MEDIA_TYPE;
    var s2 := Alone(l, blobs, log, intent, z, NoFault, Persisting);
    var s3 := Alone(persisted, blobs, log, intent, z, NoFault, Ready(choice.effect));
    NextPersisting(digest, s2, choice);
    NextReady(digest, s3, choice);
    DriveNext(digest, s2, choice, 5);
    DriveNext(digest, s3, choice, 4);
  }

  /** From the dispatched mark to the receipt. */
  lemma DriveRest(digest: Bytes -> Hash, marked: Ledger, stored: Blobs, blobs: Blobs, log: seq<Invocation>,
                  intent: CanonicalIntent,
                  z: Authorizer, choice: Choice, committed: Ledger)
    requires choice.outcome.Accepted? && Put(digest, stored, choice.outcome.bytes) == Some(blobs)
    requires CommitResult(marked, choice.effect, digest(choice.outcome.bytes),
                          BlobRow(|choice.outcome.bytes|, choice.outcome.mediaType)) == Ok(committed)
    ensures var e, bytes := choice.effect, choice.outcome.bytes;
      var receipt := Receipt(intent.operation, intent.inputHash, digest(bytes), bytes, false);
      Drive(digest, Alone(marked, stored, log, intent, z, NoFault, Marked(e)), choice, 3)
      == Alone(committed, blobs, log + [Invocation(intent.operation, e, intent.inputHash)], intent, z, NoFault,
        Returned(Ok(receipt)))
  {
    var e := choice.effect;
    var more := log + [Invocation(intent.operation, e, intent.inputHash)];
    hide Put, CommitResult, Drive, Next, MarkUnknown;
    var s4 := Alone(marked, stored, log, intent, z, NoFault, Marked(e));
    NextMarked(digest, s4, choice);
    DriveNext(digest, s4, choice, 3);
    DriveLast(digest, marked, stored, blobs, more, intent, z, choice, committed);
  }

  /** From the dispatcher's answer to the receipt. */
  lemma DriveLast(digest: Bytes -> Hash, marked: Ledger, stored: Blobs, blobs: Blobs, log: seq<Invocation>,
                  intent: CanonicalIntent,
                  z: Authorizer, choice: Choice, committed: Ledger)
    requires choice.outcome.Accepted? && Put(digest, stored, choice.outcome.bytes) == Some(blobs)
    requires CommitResult(marked, choice.effect, digest(choice.outcome.bytes),
                          BlobRow(|choice.outcome.bytes|, choice.outcome.mediaType)) == Ok(committed)
    ensures var e, bytes := choice.effect, choice.outcome.bytes;
      var receipt := Receipt(intent.operation, intent.inputHash, digest(bytes), bytes, false);
      Drive(digest, Alone(marked, stored, log, intent, z, NoFault, Invoked(e, choice.outcome)), choice, 2)
      == Alone(committed, blobs, log, intent, z, NoFault, Returned(Ok(receipt)))
  {
    var e, bytes := choice.effect, choice.outcome.bytes;
    hide Put, CommitResult, Drive, Next, MarkUnknown, MarkFailed;
    var s5 := Alone(marked, stored, log, intent, z, NoFault, Invoked(e, choice.outcome));
    var s6 := Alone(marked, blobs, log, intent, z, NoFault, ResultStored(e, bytes, choice.outcome.mediaType));
    ResultIsKept(digest, marked, stored, blobs, log, intent, z, choice);
    ResultIsCommitted(digest, marked, blobs, log, intent, z, choice, committed);
    DriveNext(digest, s5, choice, 2);
    DriveNext(digest, s6, choice, 1);
    DriveSettles(digest, Next(digest, s6, choice), choice, 0);
    hide Alone;
  }

  lemma ResultIsKept(digest: Bytes -> Hash, marked: Ledger, stored: Blobs, blobs: Blobs, log: seq<Invocation>,
                     intent: CanonicalIntent,
                     z: Authorizer, choice: Choice)
    requires choice.outcome.Accepted? && Put(digest, stored, choice.outcome.bytes) == Some(blobs)
    ensures Next(digest, Alone(marked, stored, log, intent, z, NoFault, Invoked(choice.effect, choice.outcome)), choice)
         == Alone(marked, blobs, log, intent, z, NoFault,
           ResultStored(choice.effect, choice.outcome.bytes, choice.outcome.mediaType))
  {
    hide Put, Next, MarkUnknown, MarkFailed;
    NextInvoked(digest, Alone(marked, stored, log, intent, z, NoFault, Invoked(choice.effect, choice.outcome)), choice);
  }

  lemma ResultIsCommitted(digest: Bytes -> Hash, marked: Ledger, blobs: Blobs, log: seq<Invocation>,
                          intent: CanonicalIntent,
                          z: Authorizer, choice: Choice, committed: Ledger)
    requires choice.outcome.Accepted?
    requires CommitResult(marked, choice.effect, digest(choice.outcome.bytes),
                          BlobRow(|choice.outcome.bytes|, choice.outcome.mediaType)) == Ok(committed)
    ensures var e, bytes := choice.effect, choice.outcome.bytes;
      var receipt := Receipt(intent.operation, intent.inputHash, digest(bytes), bytes, false);
      Next(digest, Alone(marked, blobs, log, intent, z, NoFault, ResultStored(e, bytes, choice.outcome.mediaType)),
        choice)
      == Alone(committed, blobs, log, intent, z, NoFault, Returned(Ok(receipt)))
  {
    hide CommitResult, Next;
    NextStored(digest, Alone(marked, blobs, log, intent, z, NoFault,
                             ResultStored(choice.effect, choice.outcome.bytes, choice.outcome.mediaType)), choice);
  }

  /**
   From every resting state that the gateway can be in: a new operation of an entitled capability, undisturbed, with a
   dispatcher that accepts, is charged, dispatched once, recorded as succeeded, and returns the dispatcher's own bytes.
   */
  lemma UndisturbedCallSucceeds(digest: Bytes -> Hash, g: System, z: Authorizer, u: CapabilityUse,
                                intent: CanonicalIntent,
                                choice: Choice)
    requires Inv(digest, g) && g.calls == map[] && intent.inputHash == digest(intent.input) && choice.outcome.Accepted?
    requires GoesThrough(g.ledger, z, u, intent, choice,
        BlobRow(|intent.input|, "application/vnd.epoch.effect-intent+json"), digest(choice.outcome.bytes))
    ensures var t := RunSystem(digest, g, WholeCall(intent, z, NoFault, choice));
      var bytes, e := choice.outcome.bytes, choice.effect;
      && SOLE in t.calls
      && t.calls[SOLE].stage == Returned(Ok(Receipt(intent.operation, intent.inputHash, digest(bytes), bytes, false)))
      && t.invocations == g.invocations + [Invocation(intent.operation, e, intent.inputHash)]
      && e in t.ledger.intents && t.ledger.intents[e].request == intent && t.ledger.intents[e].state == Succeeded
      && t.ledger.intents[e].resultHash == Some(digest(bytes)) && digest(bytes) in t.blobs
      && Leaves(g.ledger.authority, z.handleHash, u, choice.clock, t.ledger.authority)
  {
    assert Valid(g.ledger.authority) && Shaped(g.ledger) && Intact(digest, g.blobs);
    assert Find(g.ledger, intent.operation).None?;
    IntactPut(digest, g.blobs, intent.input);
    IntactPut(digest, Put(digest, g.blobs, intent.input).value, choice.outcome.bytes);
    hide Inv, Valid, Shaped, Intact, RunSystem, WholeCall, Drive, Leaves, Completes, GoesThrough, Find, Put;
    WholeCallRuns(digest, g, intent, z, NoFault, choice);
    var persisted, marked, committed :=
      LedgerCompletes(g.ledger, z, u, intent, choice, BlobRow(|intent.input|, INPUT_MEDIA_TYPE),
        digest(choice.outcome.bytes));
    DriveThrough(digest, g.ledger, g.blobs, g.invocations, intent, z, choice, persisted, marked, committed);
  }
}
