/** What holds of the effect gateway after every interleaving, with crashes anywhere. */
module EffectTheorems {
  import opened Wrappers
  import opened Capabilities
  import opened AuthorityInvariant
  import opened Effects
  import opened EffectProtocol
  import opened EffectInvariant
  import opened EffectSteps

  // ---------------------------------------------------------------- dispatch

  /** However many callers race and wherever they crash, the dispatcher is called at most once per operation. */
  lemma AtMostOneInvocation(digest: Bytes -> Hash, a: Authority, branches: map<BranchKey, BranchState>,
                            events: seq<Event>)
    requires Valid(a)
    ensures var log := RunSystem(digest, Start(a, branches), events).invocations;
      forall j, k :: 0 <= j < |log| && 0 <= k < |log| && log[j].operation == log[k].operation ==> j == k
  {
    StartInv(digest, a, branches);
    RunKeepsInv(digest, Start(a, branches), events);
    hide RunSystem, Start;
  }

  /** The durable facts behind an effect that is being dispatched. */
  ghost predicate DurablyDispatched(l: Ledger, v: Invocation) {
    && v.effect in l.intents
    && l.intents[v.effect].state == Dispatched
    && l.intents[v.effect].request.operation == v.operation
    && l.intents[v.effect].request.inputHash == v.inputHash
    && (forall n: nat :: n < 3 ==>
          && At(v.effect, n) in l.transitions
          && l.transitions[At(v.effect, n)] == [RequestedMark, PreparedMark, DispatchedMark][n])
    && v.effect in l.attempts && l.attempts[v.effect] == Started
    && exists k :: 0 <= k < |l.authority.authorizations| && Pays(l.authority.authorizations[k], l.intents[v.effect])
  }

  lemma DispatchedIsDurable(l: Ledger, e: EffectId)
    requires Shaped(l) && AllFunded(l.authority.authorizations, l.intents)
    requires e in l.intents && l.intents[e].state == Dispatched
    ensures DurablyDispatched(l, Invocation(l.intents[e].request.operation, e, l.intents[e].request.inputHash))
  {
    assert RowShaped(l, e);
    assert Transcribed(l, At(e, 0)) && Transcribed(l, At(e, 1)) && Transcribed(l, At(e, 2));
    assert Funded(l.authority.authorizations, l.intents[e]);
  }

  lemma MarkedIsDurable(digest: Bytes -> Hash, s: System, c: Caller)
    requires Inv(digest, s) && c in s.calls && s.calls[c].stage.Marked?
    ensures DurablyDispatched(s.ledger,
        Invocation(s.calls[c].intent.operation, s.calls[c].stage.effect, s.calls[c].intent.inputHash))
  {
    hide Valid, Shaped, AllFunded, UniqueOperations, Intact, ResultsStored, Exclusive, InvocationsSound;
    hide DurablyDispatched;
    assert CallSound(digest, s.ledger.intents, s.blobs, s.invocations, s.calls[c]);
    DispatchedIsDurable(s.ledger, s.calls[c].stage.effect);
  }

  lemma OnlyMarkedCallsInvoke(digest: Bytes -> Hash, s: System, event: Event)
    requires Step(digest, s, event).invocations != s.invocations
    ensures event.Proceed? && event.caller in s.calls && s.calls[event.caller].stage.Marked?
    ensures var call := s.calls[event.caller];
      Step(digest, s, event).invocations
        == s.invocations + [Invocation(call.intent.operation, call.stage.effect, call.intent.inputHash)]
  {
    hide AuthorizeAndPersist, MarkDispatched, MarkUnknown, MarkFailed, CommitResult, Find, Put, ResolveExisting, Commit;
  }

  /**
   Whenever a step calls the dispatcher, the state before that step already holds, durably, the authorized intent,
   its requested, prepared and dispatched transitions, and the started attempt.
   */
  lemma DispatchFollowsDurableMark(digest: Bytes -> Hash, a: Authority, branches: map<BranchKey, BranchState>,
                                   events: seq<Event>, event: Event)
    requires Valid(a)
    requires var s := RunSystem(digest, Start(a, branches), events); Step(digest, s, event).invocations != s.invocations
    ensures var s := RunSystem(digest, Start(a, branches), events);
      exists v :: Step(digest, s, event).invocations == s.invocations + [v] && DurablyDispatched(s.ledger, v)
  {
    var s := RunSystem(digest, Start(a, branches), events);
    StartInv(digest, a, branches);
    RunKeepsInv(digest, Start(a, branches), events);
    hide Inv, RunSystem, Start, Step, DurablyDispatched;
    OnlyMarkedCallsInvoke(digest, s, event);
    MarkedIsDurable(digest, s, event.caller);
  }

  // ---------------------------------------------------------------- charging

  /** Row `k`, and no other row of that capability and operation, pays for the intent. */
  ghost predicate SolePayment(log: seq<Authorization>, i: Intent, k: nat) {
    && k < |log| && Pays(log[k], i)
    && forall j ::
         0 <= j < |log| && i.capability == Some(log[j].capability) && log[j].requestId == i.request.operation ==> j == k
  }

  /** Every effect that was not denied is paid for by exactly one authorization row of its capability. */
  lemma PaidExactlyOnce(digest: Bytes -> Hash, a: Authority, branches: map<BranchKey, BranchState>,
                        events: seq<Event>, e: EffectId)
    requires Valid(a)
    requires e in RunSystem(digest, Start(a, branches), events).ledger.intents
    requires RunSystem(digest, Start(a, branches), events).ledger.intents[e].state != Denied
    ensures var l := RunSystem(digest, Start(a, branches), events).ledger;
      exists k :: SolePayment(l.authority.authorizations, l.intents[e], k)
  {
    StartInv(digest, a, branches);
    RunKeepsInv(digest, Start(a, branches), events);
    hide RunSystem, Start;
    var l := RunSystem(digest, Start(a, branches), events).ledger;
    PaidOnce(l, e);
  }

  lemma PaidOnce(l: Ledger, e: EffectId)
    requires e in l.intents && l.intents[e].state != Denied
    requires Valid(l.authority) && AllFunded(l.authority.authorizations, l.intents)
    ensures exists k :: SolePayment(l.authority.authorizations, l.intents[e], k)
  {
    var log := l.authority.authorizations;
    assert Funded(log, l.intents[e]);
    var k :| 0 <= k < |log| && Pays(log[k], l.intents[e]);
    assert SolePayment(log, l.intents[e], k);
  }

  /** A denial names the capability of its handle, appends one decision, and changes no branch or scope. */
  lemma DenialKeepsScopes(a: Authority, hash: Hash, u: CapabilityUse, clock: int)
    requires AuthorizeInTransaction(a, hash, u, clock).Ok?
        && AuthorizeInTransaction(a, hash, u, clock).value.1.reason != Allowed
    ensures var (b, d) := AuthorizeInTransaction(a, hash, u, clock).value;
      && d.capability == Named(a, hash) && b.branches == a.branches
      && b.decisions == a.decisions + [DecisionRow(Named(a, hash), hash, u, d.reason, clock)]
      && b.capabilities.Keys == a.capabilities.Keys
      && forall x :: x in a.capabilities ==> b.capabilities[x].scope == a.capabilities[x].scope
  {
    hide Evaluate, ValidUse, Lapse, ConsumeAll;
  }

  /**
   A refusal by the authorizer is recorded, together with a denied effect, exactly when the handle names no stored
   capability or one of the intent's own branch; otherwise the foreign key undoes the whole transaction. The
   remaining constraints on the new row are assumed to hold of the tables before the call.
   */
  lemma DenialRecordedExactlyWhen(l: Ledger, z: Authorizer, intent: CanonicalIntent, effect: EffectId, input: BlobRow,
                                  clock: int)
    requires Find(l, intent.operation).None?
    requires var r := AuthorizeInTransaction(l.authority, z.handleHash, UseFor(z, intent), clock);
      r.Ok? && r.value.1.reason != Allowed
    requires RegisterBlob(l.blobRows, intent.inputHash, input).Ok? && Insertable(l, l.authority, effect, intent, None)
    ensures var named := Named(l.authority, z.handleHash);
      var r := AuthorizeAndPersist(l, z, intent, effect, input, clock);
      && (r.Ok? <==> named.None? || l.authority.capabilities[named.value].scope.at == intent.at)
      && (r.Ok? ==>
           && r.value.1 == Refused && effect in r.value.0.intents && r.value.0.intents[effect].state == Denied
           && |r.value.0.authority.decisions| == |l.authority.decisions| + 1)
      && (r.Err? ==> r.error == GatewayDatabase)
  {
    DenialKeepsScopes(l.authority, z.handleHash, UseFor(z, intent), clock);
    hide AuthorizeInTransaction, Find, UseFor;
  }

  /** An unknown outcome is recorded exactly when the branch can be suspended; otherwise the effect stays dispatched. */
  lemma UnknownRecordedExactlyWhen(digest: Bytes -> Hash, s: System, c: Caller)
    requires Inv(digest, s) && c in s.calls && Owned(s.calls[c].stage).Some? && !s.calls[c].stage.Ready?
    ensures var at := s.calls[c].intent.at;
      MarkUnknown(s.ledger, Owned(s.calls[c].stage).value).Ok? <==>
        (at in s.ledger.branchStates && Suspendable(s.ledger.branchStates[at]))
  {
    assert CallSound(digest, s.ledger.intents, s.blobs, s.invocations, s.calls[c]);
    ResolveKeepsShape(s.ledger, Owned(s.calls[c].stage).value, ToUnknown);
    hide Inv, Shaped;
  }

  // ---------------------------------------------------------------- outcomes are final

  predicate Final(state: IntentState) {
    state in {Denied, Succeeded, Failed, Unknown}
  }

  ghost predicate RowEvolves(before: map<EffectId, Intent>, after: map<EffectId, Intent>, e: EffectId) {
    e in before ==>
      && e in after
      && after[e].request == before[e].request
      && after[e].capability == before[e].capability
      && (Final(before[e].state) ==> after[e] == before[e])
  }

  /** Rows keep their request and capability, and final rows keep everything. */
  ghost predicate RowsEvolve(before: map<EffectId, Intent>, after: map<EffectId, Intent>) {
    forall e {:trigger RowEvolves(before, after, e)} :: RowEvolves(before, after, e)
  }

  ghost predicate BlobsKept(before: Blobs, after: Blobs) {
    forall h {:trigger h in after} {:trigger h in before} :: h in before ==> h in after && after[h] == before[h]
  }

  ghost predicate Evolves(s: System, t: System) {
    RowsEvolve(s.ledger.intents, t.ledger.intents) && BlobsKept(s.blobs, t.blobs)
  }

  lemma LedgerEvolves(l: Ledger, e: EffectId, r: Resolution)
    ensures MarkDispatched(l, e).Ok? ==> RowsEvolve(l.intents, MarkDispatched(l, e).value.intents)
    ensures Resolve(l, e, r).Ok? ==> RowsEvolve(l.intents, Resolve(l, e, r).value.intents)
  {
  }

  lemma PersistEvolves(l: Ledger, z: Authorizer, intent: CanonicalIntent, effect: EffectId, row: BlobRow, clock: int)
    ensures var r := AuthorizeAndPersist(l, z, intent, effect, row, clock);
      r.Ok? ==> RowsEvolve(l.intents, r.value.0.intents)
  {
    hide AuthorizeInTransaction, Find;
  }

  lemma AttemptEvolves(s: System, c: Caller, r: Result<Ledger, GatewayError>, stage: Stage)
    requires c in s.calls
    requires r.Ok? ==> RowsEvolve(s.ledger.intents, r.value.intents)
    ensures Evolves(s, Attempt(s, c, r, stage))
  {
  }

  lemma PersistingEvolves(digest: Bytes -> Hash, s: System, c: Caller, choice: Choice)
    requires c in s.calls && s.calls[c].stage.Persisting?
    ensures Evolves(s, Advance(digest, s, c, choice))
  {
    var call := s.calls[c];
    PersistEvolves(s.ledger, call.authorizer, call.intent, choice.effect,
      BlobRow(|call.intent.input|, INPUT_MEDIA_TYPE), choice.clock);
    hide AuthorizeAndPersist;
  }

  lemma CommitEvolves(l: Ledger, e: EffectId, h: Hash, row: BlobRow)
    requires CommitResult(l, e, h, row).Ok?
    ensures RowsEvolve(l.intents, CommitResult(l, e, h, row).value.intents)
  {
    CommitIsResolve(l, e, h, row);
    LedgerEvolves(l, e, ToSucceeded(h));
    hide Resolve, CommitResult, RowsEvolve;
  }

  lemma UnknownEvolves(l: Ledger, e: EffectId)
    requires MarkUnknown(l, e).Ok?
    ensures RowsEvolve(l.intents, MarkUnknown(l, e).value.intents)
  {
    LedgerEvolves(l, e, ToUnknown);
    hide Resolve, RowsEvolve;
  }

  lemma DispatchingEvolves(digest: Bytes -> Hash, s: System, c: Caller, choice: Choice)
    requires c in s.calls && Owned(s.calls[c].stage).Some?
    ensures Evolves(s, Advance(digest, s, c, choice))
  {
    var call, l, e := s.calls[c], s.ledger, Owned(s.calls[c].stage).value;
    hide MarkUnknown, MarkDispatched, CommitResult, Attempt, RowsEvolve, Resolve;
    LedgerEvolves(l, e, ToFailed);
    if MarkUnknown(l, e).Ok? { UnknownEvolves(l, e); }
    AttemptEvolves(s, c, MarkUnknown(l, e), Returned(Err(FaultInjected)));
    AttemptEvolves(s, c, MarkFailed(l, e), Returned(Err(DispatchFailed)));
    if call.stage.Ready? {
      AttemptEvolves(s, c, MarkDispatched(l, e), Marked(e));
    } else if call.stage.ResultStored? {
      var bytes := call.stage.bytes;
      var r := CommitResult(l, e, digest(bytes), BlobRow(|bytes|, call.stage.mediaType));
      if r.Ok? { CommitEvolves(l, e, digest(bytes), BlobRow(|bytes|, call.stage.mediaType)); }
      AttemptEvolves(s, c, r,
        Returned(Ok(Receipt(call.intent.operation, call.intent.inputHash, digest(bytes), bytes, false))));
    }
    RowsStay(l.intents);
  }

  lemma RowsStay(rows: map<EffectId, Intent>)
    ensures RowsEvolve(rows, rows)
  {
  }

  lemma StepEvolves(digest: Bytes -> Hash, s: System, event: Event)
    ensures Evolves(s, Step(digest, s, event))
  {
    if event.Proceed? && event.caller in s.calls {
      var stage := s.calls[event.caller].stage;
      if stage.Persisting? {
        PersistingEvolves(digest, s, event.caller, event.choice);
        hide Advance;
      } else if Owned(stage).Some? {
        DispatchingEvolves(digest, s, event.caller, event.choice);
        hide Advance;
      } else {
        hide AuthorizeAndPersist, MarkUnknown, MarkFailed, MarkDispatched, CommitResult, ResolveExisting;
      }
    } else {
      hide Advance;
    }
  }

  lemma EvolvesTransitive(s: System, t: System, u: System)
    requires Evolves(s, t) && Evolves(t, u)
    ensures Evolves(s, u)
  {
    forall e ensures RowEvolves(s.ledger.intents, u.ledger.intents, e) {
      assert RowEvolves(s.ledger.intents, t.ledger.intents, e) && RowEvolves(t.ledger.intents, u.ledger.intents, e);
    }
  }

  lemma {:induction false} RunEvolves(digest: Bytes -> Hash, s: System, events: seq<Event>)
    ensures Evolves(s, RunSystem(digest, s, events))
  {
    if events != [] {
      hide Step, Evolves;
      var t := RunSystem(digest, s, events[..|events| - 1]);
      var event := events[|events| - 1];
      RunEvolves(digest, s, events[..|events| - 1]);
      StepEvolves(digest, t, event);
      EvolvesTransitive(s, t, Step(digest, t, event));
    }
  }

  // ---------------------------------------------------------------- replay

  /** One whole `execute` call of a new caller that meets an existing row. */
  function Replay(c: Caller, intent: CanonicalIntent, z: Authorizer, fault: Fault, choice: Choice): seq<Event> {
    [Enter(c, intent, z, fault), Proceed(c, choice), Proceed(c, choice)]
  }

  lemma RunThree(digest: Bytes -> Hash, s: System, x: Event, y: Event, z: Event)
    ensures RunSystem(digest, s, [x, y, z]) == Step(digest, Step(digest, Step(digest, s, x), y), z)
  {
    assert [x, y, z][..2] == [x, y] && [x, y][..1] == [x] && [x][..0] == [];
    hide Step;
    assert RunSystem(digest, s, [x]) == Step(digest, s, x);
    assert RunSystem(digest, s, [x, y]) == Step(digest, Step(digest, s, x), y);
  }

  lemma FindsExisting(digest: Bytes -> Hash, s: System, e: EffectId, c: Caller, choice: Choice)
    requires UniqueOperations(s.ledger.intents)
    requires c in s.calls && s.calls[c].stage.Finding?
    requires e in s.ledger.intents && s.ledger.intents[e].request.operation == s.calls[c].intent.operation
    ensures Step(digest, s, Proceed(c, choice)) == MoveTo(s, c, Resolving(s.ledger.intents[e]))
  {
    assert Find(s.ledger, s.calls[c].intent.operation) == Some(e);
    hide Find, Put, AuthorizeAndPersist, MarkUnknown, MarkFailed, MarkDispatched, CommitResult, ResolveExisting;
  }

  lemma ResolvesExisting(digest: Bytes -> Hash, s: System, c: Caller, row: Intent, choice: Choice)
    requires c in s.calls && s.calls[c].stage == Resolving(row)
    ensures Step(digest, s, Proceed(c, choice))
        == MoveTo(s, c, Returned(ResolveExisting(digest, s.blobs, s.calls[c].intent, row)))
  {
    hide Find, Put, AuthorizeAndPersist, MarkUnknown, MarkFailed, MarkDispatched, CommitResult, ResolveExisting;
  }

  lemma ReplayReply(digest: Bytes -> Hash, s: System, e: EffectId, c: Caller, intent: CanonicalIntent, z: Authorizer,
                    fault: Fault, choice: Choice)
    requires UniqueOperations(s.ledger.intents)
    requires e in s.ledger.intents && s.ledger.intents[e].request.operation == intent.operation
    requires c !in s.calls && intent.inputHash == digest(intent.input)
    ensures var u := RunSystem(digest, s, Replay(c, intent, z, fault, choice));
      && u.ledger == s.ledger && u.blobs == s.blobs && u.invocations == s.invocations
      && c in u.calls
      && u.calls[c].stage == Returned(ResolveExisting(digest, s.blobs, intent, s.ledger.intents[e]))
  {
    RunThree(digest, s, Enter(c, intent, z, fault), Proceed(c, choice), Proceed(c, choice));
    var t := Step(digest, s, Enter(c, intent, z, fault));
    assert t == s.(calls := s.calls[c := Call(intent, z, fault, Finding)]);
    hide Step, RunSystem, ResolveExisting;
    FindsExisting(digest, t, e, c, choice);
    ResolvesExisting(digest, MoveTo(t, c, Resolving(s.ledger.intents[e])), c, s.ledger.intents[e], choice);
  }

  /**
   Once an operation has succeeded, then after any further interleaving a repeated call with the same input returns
   exactly the bytes recorded back then, and touches neither the ledger (so no authorization, no charge), nor the
   blobs, nor the dispatcher. A call with another input is refused.
   */
  lemma SucceededOperationReplays(digest: Bytes -> Hash, s: System, events: seq<Event>, e: EffectId,
                                  c: Caller, intent: CanonicalIntent, z: Authorizer, fault: Fault, choice: Choice)
    requires Inv(digest, s) && e in s.ledger.intents && s.ledger.intents[e].state == Succeeded
    requires intent.operation == s.ledger.intents[e].request.operation && intent.inputHash == digest(intent.input)
    requires c !in RunSystem(digest, s, events).calls
    ensures var t := RunSystem(digest, s, events);
      var u := RunSystem(digest, t, Replay(c, intent, z, fault, choice));
      && u.ledger == t.ledger && u.blobs == t.blobs && u.invocations == t.invocations
      && c in u.calls
      && s.ledger.intents[e].resultHash.Some? && s.ledger.intents[e].resultHash.value in s.blobs
      && var h := s.ledger.intents[e].resultHash.value;
      && u.calls[c].stage == Returned(
           if intent.inputHash == s.ledger.intents[e].request.inputHash
           then Ok(Receipt(intent.operation, intent.inputHash, h, s.blobs[h], true))
           else Err(OperationInputConflict))
  {
    var t := RunSystem(digest, s, events);
    RunKeepsInv(digest, s, events);
    RunEvolves(digest, s, events);
    assert UniqueOperations(t.ledger.intents) && Intact(digest, t.blobs);
    SucceededIsStored(digest, s, e);
    assert RowEvolves(s.ledger.intents, t.ledger.intents, e);
    hide Inv, RunSystem, RowsEvolve, UniqueOperations;
    ReplayReply(digest, t, e, c, intent, z, fault, choice);
  }

  lemma SucceededIsStored(digest: Bytes -> Hash, s: System, e: EffectId)
    requires Inv(digest, s) && e in s.ledger.intents && s.ledger.intents[e].state == Succeeded
    ensures s.ledger.intents[e].resultHash.Some? && s.ledger.intents[e].resultHash.value in s.blobs
  {
    assert RowShaped(s.ledger, e);
  }

  /** A succeeded or failed effect was really dispatched, and its histories say so. */
  lemma OutcomesWereDispatched(digest: Bytes -> Hash, a: Authority, branches: map<BranchKey, BranchState>,
                               events: seq<Event>, e: EffectId)
    requires Valid(a)
    requires e in RunSystem(digest, Start(a, branches), events).ledger.intents
    ensures var s := RunSystem(digest, Start(a, branches), events);
      var i := s.ledger.intents[e];
      && (i.state in {Succeeded, Failed} ==> WasInvoked(s.invocations, i.request.operation))
      && (i.state in {Prepared, Denied} ==> !WasInvoked(s.invocations, i.request.operation))
      && (forall n: nat :: At(e, n) in s.ledger.transitions <==> n < |Marks(i.state)|)
      && (forall n: nat :: n < |Marks(i.state)| ==>
         At(e, n) in s.ledger.transitions && s.ledger.transitions[At(e, n)] == Marks(i.state)[n])
  {
    StartInv(digest, a, branches);
    RunKeepsInv(digest, Start(a, branches), events);
    hide RunSystem, Start;
    HistoriesTell(digest, RunSystem(digest, Start(a, branches), events), e);
  }

  lemma HistoriesTell(digest: Bytes -> Hash, s: System, e: EffectId)
    requires Inv(digest, s) && e in s.ledger.intents
    ensures var i := s.ledger.intents[e];
      && (i.state in {Succeeded, Failed} ==> WasInvoked(s.invocations, i.request.operation))
      && (i.state in {Prepared, Denied} ==> !WasInvoked(s.invocations, i.request.operation))
      && (forall n: nat :: At(e, n) in s.ledger.transitions <==> n < |Marks(i.state)|)
      && (forall n: nat :: n < |Marks(i.state)| ==>
         At(e, n) in s.ledger.transitions && s.ledger.transitions[At(e, n)] == Marks(i.state)[n])
  {
    hide Valid, AllFunded, Intact, ResultsStored, CallsSound, Exclusive;
    forall n: nat ensures Transcribed(s.ledger, At(e, n)) { }
    if WasInvoked(s.invocations, s.ledger.intents[e].request.operation) {
      InvokedMeansMarked(s.ledger.intents, s.invocations, e);
    }
  }

  lemma InvokedMeansMarked(intents: map<EffectId, Intent>, log: seq<Invocation>, e: EffectId)
    requires InvocationsSound(intents, log) && UniqueOperations(intents)
    requires e in intents && WasInvoked(log, intents[e].request.operation)
    ensures intents[e].state in {Dispatched, Succeeded, Failed, Unknown}
  {
    var k :| 0 <= k < |log| && log[k].operation == intents[e].request.operation;
    assert InvocationSound(intents, log[k]);
  }
}
