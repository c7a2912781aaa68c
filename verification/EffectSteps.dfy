/** Every step keeps the invariant, and what follows about whole interleavings. */
module EffectSteps {
  import opened Wrappers
  import opened Capabilities
  import opened AuthorityInvariant
  import opened AuthorityRuns
  import opened Effects
  import opened EffectProtocol
  import opened EffectInvariant

  // ---------------------------------------------------------------- building blocks

  /** A step that changes only the stage of one call. */
  lemma StageKeepsInv(digest: Bytes -> Hash, s: System, c: Caller, stage: Stage)
    requires Inv(digest, s) && c in s.calls
    requires Owned(stage) == None || Owned(stage) == Owned(s.calls[c].stage)
    requires CallSound(digest, s.ledger.intents, s.blobs, s.invocations, s.calls[c].(stage := stage))
    ensures Inv(digest, MoveTo(s, c, stage))
  {
    hide Valid, Shaped, UniqueOperations, AllFunded, Intact, ResultsStored, InvocationsSound, CallSound;
  }

  lemma CallSoundWithMoreBlobs(digest: Bytes -> Hash, intents: map<EffectId, Intent>, blobs: Blobs, more: Blobs,
                               log: seq<Invocation>, call: Call)
    requires CallSound(digest, intents, blobs, log, call) && blobs.Keys <= more.Keys
    ensures CallSound(digest, intents, more, log, call)
  {
  }

  /** Storing a blob keeps everything: blobs are only added. */
  lemma PutKeepsInv(digest: Bytes -> Hash, s: System, bytes: Bytes)
    requires Inv(digest, s)
    ensures Put(digest, s.blobs, bytes).Some?
    ensures digest(bytes) in Put(digest, s.blobs, bytes).value
    ensures Inv(digest, s.(blobs := Put(digest, s.blobs, bytes).value))
  {
    hide Valid, Shaped, UniqueOperations, AllFunded, InvocationsSound, CallSound, Exclusive;
    var more := Put(digest, s.blobs, bytes).value;
    forall c | c in s.calls ensures CallSound(digest, s.ledger.intents, more, s.invocations, s.calls[c]) {
      CallSoundWithMoreBlobs(digest, s.ledger.intents, s.blobs, more, s.invocations, s.calls[c]);
    }
  }

  /** A transaction that moves the row owned by the caller. */
  lemma MoveKeepsInv(digest: Bytes -> Hash, s: System, c: Caller, l: Ledger, stage: Stage)
    requires Inv(digest, s) && c in s.calls && Owned(s.calls[c].stage).Some?
    requires var f := Owned(s.calls[c].stage).value;
      && OnlyMoves(s.ledger.intents, l.intents, f) && s.ledger.intents[f].state != Succeeded
      && (Owned(stage) == None || Owned(stage) == Some(f))
    requires l.authority == s.ledger.authority && Shaped(l) && ResultsStored(l.intents, s.blobs)
    requires InvocationsSound(l.intents, s.invocations)
    requires CallSound(digest, l.intents, s.blobs, s.invocations, s.calls[c].(stage := stage))
    ensures Inv(digest, MoveTo(s.(ledger := l), c, stage))
  {
    hide Valid, Shaped, UniqueOperations, AllFunded, Intact, ResultsStored, InvocationsSound, CallSound, OnlyMoves;
    var f := Owned(s.calls[c].stage).value;
    MoveKeepsFunding(s.ledger.authority.authorizations, s.ledger.intents, l.intents, f);
    forall d | d in s.calls && d != c ensures CallSound(digest, l.intents, s.blobs, s.invocations, s.calls[d]) {
      OthersStaySound(digest, s.ledger.intents, l.intents, f, s.blobs, s.invocations, s.calls[d]);
    }
  }

  // ---------------------------------------------------------------- reading, storing, persisting

  lemma FindingKeepsInv(digest: Bytes -> Hash, s: System, c: Caller, choice: Choice)
    requires Inv(digest, s) && c in s.calls && s.calls[c].stage.Finding?
    ensures Inv(digest, Advance(digest, s, c, choice))
  {
    var found := Find(s.ledger, s.calls[c].intent.operation);
    StageKeepsInv(digest, s, c, if found.Some? then Resolving(s.ledger.intents[found.value]) else Storing);
  }

  lemma StoringKeepsInv(digest: Bytes -> Hash, s: System, c: Caller, choice: Choice)
    requires Inv(digest, s) && c in s.calls && s.calls[c].stage.Storing?
    ensures Inv(digest, Advance(digest, s, c, choice))
  {
    PutKeepsInv(digest, s, s.calls[c].intent.input);
    StageKeepsInv(digest, s.(blobs := Put(digest, s.blobs, s.calls[c].intent.input).value), c, Persisting);
  }

  lemma AddKeepsFunding(l: Ledger, a: Authority, effect: EffectId, i: Intent)
    requires AllFunded(l.authority.authorizations, l.intents) && UniqueOperations(l.intents)
    requires l.authority.authorizations <= a.authorizations && Funded(a.authorizations, i)
    requires effect !in l.intents && Find(l, i.request.operation).None?
    ensures AllFunded(a.authorizations, l.intents[effect := i]) && UniqueOperations(l.intents[effect := i])
  {
    forall e | e in l.intents ensures Funded(a.authorizations, l.intents[e]) {
      FundedStays(l.authority.authorizations, a.authorizations, l.intents[e]);
    }
  }

  lemma AddKeepsCalls(digest: Bytes -> Hash, intents: map<EffectId, Intent>, effect: EffectId, i: Intent,
                      blobs: Blobs, log: seq<Invocation>, call: Call)
    requires effect !in intents && CallSound(digest, intents, blobs, log, call)
    ensures CallSound(digest, intents[effect := i], blobs, log, call)
    ensures Owned(call.stage) != Some(effect)
  {
    if call.stage.Resolving? && call.stage.row.state == Succeeded {
      var e :| e in intents && intents[e] == call.stage.row;
      assert intents[effect := i][e] == call.stage.row;
    }
  }

  lemma AddKeepsInvocations(l: Ledger, effect: EffectId, i: Intent, log: seq<Invocation>)
    requires InvocationsSound(l.intents, log) && effect !in l.intents && i.state in {Prepared, Denied}
    requires Find(l, i.request.operation).None?
    ensures InvocationsSound(l.intents[effect := i], log)
    ensures !WasInvoked(log, i.request.operation)
  {
    var after := l.intents[effect := i];
    forall k | 0 <= k < |log| ensures InvocationSound(after, log[k]) {
      assert InvocationSound(l.intents, log[k]);
    }
  }

  /** The calls after one of them took a new stage that claims no effect but `added`. */
  lemma CallsUpdate(digest: Bytes -> Hash, intents: map<EffectId, Intent>, blobs: Blobs, log: seq<Invocation>,
                    calls: Calls,
                    c: Caller, call: Call, added: EffectId)
    requires c in calls && Exclusive(calls)
    requires forall d :: d in calls ==>
        CallSound(digest, intents, blobs, log, calls[d]) && Owned(calls[d].stage) != Some(added)
    requires CallSound(digest, intents, blobs, log, call)
        && (Owned(call.stage) == None || Owned(call.stage) == Some(added))
    ensures CallsSound(digest, intents, blobs, log, calls[c := call]) && Exclusive(calls[c := call])
  {
    hide CallSound;
  }

  lemma AddedRow(digest: Bytes -> Hash, s: System, c: Caller, effect: EffectId, i: Intent, stage: Stage)
    requires Inv(digest, s) && c in s.calls && s.calls[c].stage.Persisting?
    requires effect !in s.ledger.intents && Find(s.ledger, i.request.operation).None?
    requires i.request == s.calls[c].intent && i.resultHash.None? && i.state in {Prepared, Denied}
    requires stage == (if i.state == Prepared then Ready(effect) else Returned(Err(AuthorizationDenied)))
    ensures var intents := s.ledger.intents[effect := i];
      && CallsSound(digest, intents, s.blobs, s.invocations, s.calls[c := s.calls[c].(stage := stage)])
      && Exclusive(s.calls[c := s.calls[c].(stage := stage)])
      && InvocationsSound(intents, s.invocations)
      && ResultsStored(intents, s.blobs)
  {
    var intents := s.ledger.intents[effect := i];
    AddKeepsInvocations(s.ledger, effect, i, s.invocations);
    assert ResultsStored(intents, s.blobs);
    hide Valid, Shaped, UniqueOperations, AllFunded, Intact, ResultsStored, InvocationsSound;
    assert CallSound(digest, intents, s.blobs, s.invocations, s.calls[c].(stage := stage));
    hide CallSound;
    forall b | b in s.calls
      ensures CallSound(digest, intents, s.blobs, s.invocations, s.calls[b]) && Owned(s.calls[b].stage) != Some(effect)
    {
      AddKeepsCalls(digest, s.ledger.intents, effect, i, s.blobs, s.invocations, s.calls[b]);
    }
    CallsUpdate(digest, intents, s.blobs, s.invocations, s.calls, c, s.calls[c].(stage := stage), effect);
  }

  /** A fresh intent, owned by its creator when it was authorized. */
  lemma AddKeepsInv(digest: Bytes -> Hash, s: System, c: Caller, a: Authority, rows: map<Hash, BlobRow>,
                    effect: EffectId, d: Decision)
    requires Inv(digest, s) && c in s.calls && s.calls[c].stage.Persisting?
    requires Valid(a) && s.ledger.authority.authorizations <= a.authorizations
    requires effect !in s.ledger.intents && Find(s.ledger, s.calls[c].intent.operation).None?
    requires d.reason == Allowed && d.capability.Some? ==>
      Funded(a.authorizations, Intent(s.calls[c].intent, d.capability, Prepared, None, 0))
    ensures var stage := if d.reason == Allowed && d.capability.Some? then Ready(effect)
        else Returned(Err(AuthorizationDenied));
      Inv(digest, MoveTo(s.(ledger := AddIntent(s.ledger, a, rows, effect, s.calls[c].intent, d)), c, stage))
  {
    var l, intent := s.ledger, s.calls[c].intent;
    var allowed := d.reason == Allowed && d.capability.Some?;
    var i := Intent(intent, d.capability, if allowed then Prepared else Denied, None, 0);
    AddKeepsShape(l, a, rows, effect, intent, d);
    AddKeepsFunding(l, a, effect, i);
    hide Valid, Shaped, UniqueOperations, AllFunded, Intact, ResultsStored, InvocationsSound, CallSound;
    hide Exclusive, CallsSound;
    AddedRow(digest, s, c, effect, i, if allowed then Ready(effect) else Returned(Err(AuthorizationDenied)));
  }

  /** The transaction that persists an intent, when it creates one. */
  lemma PersistCreates(digest: Bytes -> Hash, s: System, c: Caller, effect: EffectId, row: BlobRow, clock: int)
    requires Inv(digest, s) && c in s.calls && s.calls[c].stage.Persisting?
    requires Find(s.ledger, s.calls[c].intent.operation).None?
    requires AuthorizeAndPersist(s.ledger, s.calls[c].authorizer, s.calls[c].intent, effect, row, clock).Ok?
    ensures var (l, created) :=
        AuthorizeAndPersist(s.ledger, s.calls[c].authorizer, s.calls[c].intent, effect, row, clock).value;
      && (created == Fresh(effect) || created == Refused)
      && Inv(digest,
         MoveTo(s.(ledger := l), c, if created.Fresh? then Ready(effect) else Returned(Err(AuthorizationDenied))))
  {
    hide AuthorizeInTransaction, Valid, Shaped, UniqueOperations, AllFunded, Intact, ResultsStored;
    hide InvocationsSound, CallsSound, Exclusive, AddIntent, MoveTo;
    var l, z, intent := s.ledger, s.calls[c].authorizer, s.calls[c].intent;
    var u := UseFor(z, intent);
    UseKeepsValid(l.authority, z.handleHash, u, clock);
    UseGrowsLog(l.authority, z.handleHash, u, clock);
    var (a, d) := AuthorizeInTransaction(l.authority, z.handleHash, u, clock).value;
    if d.reason == Allowed && d.capability.Some? {
      assert Pays(a.authorizations[|l.authority.authorizations|], Intent(intent, d.capability, Prepared, None, 0));
    }
    AddKeepsInv(digest, s, c, a, RegisterBlob(l.blobRows, intent.inputHash, row).value, effect, d);
  }

  lemma PersistingKeepsInv(digest: Bytes -> Hash, s: System, c: Caller, choice: Choice)
    requires Inv(digest, s) && c in s.calls && s.calls[c].stage.Persisting?
    ensures Inv(digest, Advance(digest, s, c, choice))
  {
    var l, call := s.ledger, s.calls[c];
    var row := BlobRow(|call.intent.input|, INPUT_MEDIA_TYPE);
    var r := AuthorizeAndPersist(l, call.authorizer, call.intent, choice.effect, row, choice.clock);
    hide Inv;
    if r.Err? {
      hide AuthorizeAndPersist;
      StageKeepsInv(digest, s, c, Returned(Err(r.error)));
    } else if Find(l, call.intent.operation).Some? {
      var e := Find(l, call.intent.operation).value;
      assert r == Ok((l, Existing(e)));
      hide AuthorizeAndPersist;
      StageKeepsInv(digest, s, c, Resolving(l.intents[e]));
    } else {
      hide AuthorizeAndPersist;
      PersistCreates(digest, s, c, choice.effect, row, choice.clock);
    }
  }

  // ---------------------------------------------------------------- dispatching and resolving

  lemma DispatchedRow(intents: map<EffectId, Intent>, e: EffectId, row: Intent, blobs: Blobs, log: seq<Invocation>)
    requires e in intents && intents[e].state == Prepared && row.state == Dispatched
    requires row.request == intents[e].request && row.capability == intents[e].capability
        && row.resultHash == intents[e].resultHash
    requires ResultsStored(intents, blobs) && InvocationsSound(intents, log)
    ensures OnlyMoves(intents, intents[e := row], e)
    ensures ResultsStored(intents[e := row], blobs) && InvocationsSound(intents[e := row], log)
  {
    var after := intents[e := row];
    forall k | 0 <= k < |log| ensures InvocationSound(after, log[k]) {
      assert InvocationSound(intents, log[k]);
    }
  }

  lemma DispatchMoves(digest: Bytes -> Hash, s: System, c: Caller, e: EffectId)
    requires Inv(digest, s) && c in s.calls && s.calls[c].stage == Ready(e)
    ensures MarkDispatched(s.ledger, e).Ok?
    ensures var l := MarkDispatched(s.ledger, e).value;
      && Shaped(l) && l.authority == s.ledger.authority
      && OnlyMoves(s.ledger.intents, l.intents, e) && s.ledger.intents[e].state != Succeeded
      && ResultsStored(l.intents, s.blobs)
      && InvocationsSound(l.intents, s.invocations)
      && CallSound(digest, l.intents, s.blobs, s.invocations, s.calls[c].(stage := Marked(e)))
  {
    ReadyIsPrepared(digest, s, c, e);
    hide Inv, CallsSound, Exclusive, Intact, Valid, UniqueOperations, AllFunded;
    DispatchKeepsShape(s.ledger, e);
    MarkDispatchedRow(s.ledger, e);
    hide MarkDispatched, Shaped, ResultsStored, InvocationsSound, OnlyMoves, WasInvoked;
    var l := MarkDispatched(s.ledger, e).value;
    DispatchedRow(s.ledger.intents, e, l.intents[e], s.blobs, s.invocations);
  }

  lemma ReadyIsPrepared(digest: Bytes -> Hash, s: System, c: Caller, e: EffectId)
    requires Inv(digest, s) && c in s.calls && s.calls[c].stage == Ready(e)
    ensures CallSound(digest, s.ledger.intents, s.blobs, s.invocations, s.calls[c])
    ensures Shaped(s.ledger) && e in s.ledger.intents && s.ledger.intents[e].state == Prepared
    ensures ResultsStored(s.ledger.intents, s.blobs) && InvocationsSound(s.ledger.intents, s.invocations)
  {
    hide Valid, Shaped, UniqueOperations, AllFunded, Intact, Exclusive, ResultsStored, InvocationsSound;
  }

  lemma MarkDispatchedRow(l: Ledger, e: EffectId)
    requires MarkDispatched(l, e).Ok?
    ensures var m := MarkDispatched(l, e).value;
      && e in l.intents && e in m.intents && m.intents == l.intents[e := m.intents[e]] && m.authority == l.authority
      && m.intents[e] == l.intents[e].(state := Dispatched, revision := l.intents[e].revision + 1)
  {
  }

  lemma ReadyKeepsInv(digest: Bytes -> Hash, s: System, c: Caller, choice: Choice)
    requires Inv(digest, s) && c in s.calls && s.calls[c].stage.Ready?
    ensures Inv(digest, Advance(digest, s, c, choice))
  {
    hide Inv, MarkDispatched;
    var e := s.calls[c].stage.effect;
    if s.calls[c].fault == AfterPrepared {
      StageKeepsInv(digest, s, c, Returned(Err(FaultInjected)));
    } else {
      DispatchMoves(digest, s, c, e);
      hide Shaped, OnlyMoves, ResultsStored, InvocationsSound, CallSound;
      MoveKeepsInv(digest, s, c, MarkDispatched(s.ledger, e).value, Marked(e));
    }
  }

  /** The row moved by a resolution, and what the rest of the system needs to know about it. */
  lemma ResolutionMoves(digest: Bytes -> Hash, s: System, c: Caller, e: EffectId, r: Resolution, l: Ledger)
    requires Inv(digest, s) && c in s.calls && Owned(s.calls[c].stage) == Some(e) && !s.calls[c].stage.Ready?
    requires r.ToSucceeded? ==> r.hash in s.blobs
    requires !r.ToUnknown? ==> WasInvoked(s.invocations, s.calls[c].intent.operation)
    requires Resolve(s.ledger, e, r).Ok? && l.intents == Resolve(s.ledger, e, r).value.intents
    ensures OnlyMoves(s.ledger.intents, l.intents, e)
    ensures ResultsStored(l.intents, s.blobs)
    ensures InvocationsSound(l.intents, s.invocations)
  {
    hide Valid, Shaped, UniqueOperations, AllFunded, Intact;
    forall k | 0 <= k < |s.invocations| ensures InvocationSound(l.intents, s.invocations[k]) {
      assert InvocationSound(s.ledger.intents, s.invocations[k]);
    }
  }

  lemma ResolutionKeepsInv(digest: Bytes -> Hash, s: System, c: Caller, e: EffectId, r: Resolution, l: Ledger,
                           reply: Result<Receipt, GatewayError>)
    requires Inv(digest, s) && c in s.calls && Owned(s.calls[c].stage) == Some(e) && !s.calls[c].stage.Ready?
    requires r.ToSucceeded? ==> r.hash in s.blobs
    requires !r.ToUnknown? ==> WasInvoked(s.invocations, s.calls[c].intent.operation)
    requires Resolve(s.ledger, e, r).Ok?
    requires var m := Resolve(s.ledger, e, r).value; l == m.(branchStates := l.branchStates, blobRows := l.blobRows)
    ensures Inv(digest, MoveTo(s.(ledger := l), c, Returned(reply)))
  {
    hide Shaped, ResultsStored, InvocationsSound, OnlyMoves, Valid, UniqueOperations, AllFunded, Intact, Exclusive;
    assert CallSound(digest, s.ledger.intents, s.blobs, s.invocations, s.calls[c]);
    assert l.authority == s.ledger.authority;
    ResolutionMoves(digest, s, c, e, r, l);
    ResolveKeepsShape(s.ledger, e, r);
    ShapeIsLocal(Resolve(s.ledger, e, r).value, l);
    hide Inv, Resolve;
    MoveKeepsInv(digest, s, c, l, Returned(reply));
  }

  lemma UnknownKeepsInv(digest: Bytes -> Hash, s: System, c: Caller, e: EffectId)
    requires Inv(digest, s) && c in s.calls && Owned(s.calls[c].stage) == Some(e) && !s.calls[c].stage.Ready?
    ensures Inv(digest, Attempt(s, c, MarkUnknown(s.ledger, e), Returned(Err(FaultInjected))))
  {
    hide Valid, Shaped, UniqueOperations, AllFunded, Intact, ResultsStored, InvocationsSound, CallsSound;
    var r := MarkUnknown(s.ledger, e);
    if r.Ok? {
      ResolutionKeepsInv(digest, s, c, e, ToUnknown, r.value, Err(FaultInjected));
    } else {
      StageKeepsInv(digest, s, c, Returned(Err(r.error)));
    }
  }

  lemma OthersMissInvocation(digest: Bytes -> Hash, intents: map<EffectId, Intent>, blobs: Blobs, log: seq<Invocation>,
                             v: Invocation, call: Call)
    requires UniqueOperations(intents) && InvocationSound(intents, v)
    requires CallSound(digest, intents, blobs, log, call) && Owned(call.stage) != Some(v.effect)
    ensures CallSound(digest, intents, blobs, log + [v], call)
  {
    if Owned(call.stage).Some? {
      var op := call.intent.operation;
      assert op != v.operation;
      if WasInvoked(log + [v], op) {
        var k :| 0 <= k < |log + [v]| && (log + [v])[k].operation == op;
        assert log[k].operation == op;
      }
      if WasInvoked(log, op) {
        var k :| 0 <= k < |log| && log[k].operation == op;
        assert (log + [v])[k].operation == op;
      }
    }
  }

  lemma WasInvokedAppends(log: seq<Invocation>, v: Invocation, op: OperationId)
    ensures WasInvoked(log + [v], op) <==> WasInvoked(log, op) || v.operation == op
  {
    if WasInvoked(log, op) {
      var k :| 0 <= k < |log| && log[k].operation == op;
      assert (log + [v])[k].operation == op;
    }
    if v.operation == op {
      assert (log + [v])[|log|].operation == op;
    }
  }

  lemma AppendKeepsInvocations(intents: map<EffectId, Intent>, log: seq<Invocation>, v: Invocation)
    requires InvocationsSound(intents, log) && InvocationSound(intents, v) && !WasInvoked(log, v.operation)
    ensures InvocationsSound(intents, log + [v])
  {
    forall e | e in intents && intents[e].state in {Succeeded, Failed}
        ensures WasInvoked(log + [v], intents[e].request.operation) {
      WasInvokedAppends(log, v, intents[e].request.operation);
    }
  }

  lemma InvocationClaims(digest: Bytes -> Hash, s: System, c: Caller, e: EffectId, outcome: Outcome, v: Invocation)
    requires Inv(digest, s) && c in s.calls && s.calls[c].stage == Marked(e)
    requires v == Invocation(s.calls[c].intent.operation, e, s.calls[c].intent.inputHash)
    ensures InvocationSound(s.ledger.intents, v) && !WasInvoked(s.invocations, v.operation)
    ensures CallSound(digest, s.ledger.intents, s.blobs, s.invocations + [v], s.calls[c].(stage := Invoked(e, outcome)))
  {
    assert CallSound(digest, s.ledger.intents, s.blobs, s.invocations, s.calls[c]);
    hide Inv;
    WasInvokedAppends(s.invocations, v, v.operation);
  }

  lemma InvokeKeepsInv(digest: Bytes -> Hash, s: System, c: Caller, e: EffectId, outcome: Outcome)
    requires Inv(digest, s) && c in s.calls && s.calls[c].stage == Marked(e)
    ensures var v := Invocation(s.calls[c].intent.operation, e, s.calls[c].intent.inputHash);
      Inv(digest, MoveTo(s.(invocations := s.invocations + [v]), c, Invoked(e, outcome)))
  {
    var intents, log := s.ledger.intents, s.invocations;
    var v := Invocation(s.calls[c].intent.operation, e, s.calls[c].intent.inputHash);
    InvocationClaims(digest, s, c, e, outcome, v);
    AppendKeepsInvocations(intents, log, v);
    hide Valid, Shaped, UniqueOperations, AllFunded, Intact, ResultsStored, InvocationsSound, CallSound;
    hide InvocationSound, WasInvoked;
    forall d | d in s.calls && d != c ensures CallSound(digest, intents, s.blobs, log + [v], s.calls[d]) {
      OthersMissInvocation(digest, intents, s.blobs, log, v, s.calls[d]);
    }
  }

  lemma InvokedKeepsInv(digest: Bytes -> Hash, s: System, c: Caller, choice: Choice)
    requires Inv(digest, s) && c in s.calls && s.calls[c].stage.Invoked?
    ensures Inv(digest, Advance(digest, s, c, choice))
  {
    var e, outcome := s.calls[c].stage.effect, s.calls[c].stage.outcome;
    hide Valid, Shaped, UniqueOperations, AllFunded, Intact, ResultsStored, InvocationsSound;
    assert CallSound(digest, s.ledger.intents, s.blobs, s.invocations, s.calls[c]);
    if s.calls[c].fault == AfterInvokeBeforeCommit {
      UnknownKeepsInv(digest, s, c, e);
    } else if outcome.Declined? {
      ResolveKeepsShape(s.ledger, e, ToFailed);
      ResolutionKeepsInv(digest, s, c, e, ToFailed, MarkFailed(s.ledger, e).value, Err(DispatchFailed));
    } else {
      PutKeepsInv(digest, s, outcome.bytes);
      var t := s.(blobs := Put(digest, s.blobs, outcome.bytes).value);
      StageKeepsInv(digest, t, c, ResultStored(e, outcome.bytes, outcome.mediaType));
    }
  }

  lemma CommitIsResolve(l: Ledger, e: EffectId, h: Hash, row: BlobRow)
    requires CommitResult(l, e, h, row).Ok?
    ensures Resolve(l, e, ToSucceeded(h)).Ok?
    ensures var m := CommitResult(l, e, h, row).value;
      m == Resolve(l, e, ToSucceeded(h)).value.(branchStates := m.branchStates, blobRows := m.blobRows)
  {
  }

  /** What a call with a stored result knows. */
  lemma ResultIsStored(digest: Bytes -> Hash, s: System, c: Caller)
    requires Inv(digest, s) && c in s.calls && s.calls[c].stage.ResultStored?
    ensures digest(s.calls[c].stage.bytes) in s.blobs && WasInvoked(s.invocations, s.calls[c].intent.operation)
  {
    hide Valid, Shaped, UniqueOperations, AllFunded, Intact, ResultsStored, Exclusive, InvocationsSound, WasInvoked;
    assert CallSound(digest, s.ledger.intents, s.blobs, s.invocations, s.calls[c]);
  }

  lemma AdvanceStored(digest: Bytes -> Hash, s: System, c: Caller, choice: Choice)
    requires c in s.calls && s.calls[c].stage.ResultStored?
    ensures var call := s.calls[c];
      var bytes := call.stage.bytes;
      var row := BlobRow(|bytes|, call.stage.mediaType);
      var receipt := Receipt(call.intent.operation, call.intent.inputHash, digest(bytes), bytes, false);
      Advance(digest, s, c, choice)
      == Attempt(s, c, CommitResult(s.ledger, call.stage.effect, digest(bytes), row), Returned(Ok(receipt)))
  {
    hide CommitResult, Attempt, Find, Put, AuthorizeAndPersist;
    hide MarkDispatched, MarkUnknown, MarkFailed, ResolveExisting;
  }

  lemma ResultStoredKeepsInv(digest: Bytes -> Hash, s: System, c: Caller, choice: Choice)
    requires Inv(digest, s) && c in s.calls && s.calls[c].stage.ResultStored?
    ensures Inv(digest, Advance(digest, s, c, choice))
  {
    var call := s.calls[c];
    var e, bytes := call.stage.effect, call.stage.bytes;
    var h, row := digest(bytes), BlobRow(|bytes|, call.stage.mediaType);
    var r := CommitResult(s.ledger, e, h, row);
    hide Inv, CommitResult, Resolve, WasInvoked, Advance, MoveTo;
    AdvanceStored(digest, s, c, choice);
    ResultIsStored(digest, s, c);
    if r.Ok? {
      CommitIsResolve(s.ledger, e, h, row);
      ResolutionKeepsInv(digest, s, c, e, ToSucceeded(h), r.value,
                         Ok(Receipt(call.intent.operation, call.intent.inputHash, h, bytes, false)));
    } else {
      StageKeepsInv(digest, s, c, Returned(Err(r.error)));
    }
  }

  lemma AdvanceKeepsInv(digest: Bytes -> Hash, s: System, c: Caller, choice: Choice)
    requires Inv(digest, s) && c in s.calls
    ensures Inv(digest, Advance(digest, s, c, choice))
  {
    hide Inv;
    match s.calls[c].stage
    case Finding => FindingKeepsInv(digest, s, c, choice);
    case Storing => StoringKeepsInv(digest, s, c, choice);
    case Persisting => PersistingKeepsInv(digest, s, c, choice);
    case Ready(_) => ReadyKeepsInv(digest, s, c, choice);
    case Marked(e) => MarkedKeepsInv(digest, s, c, choice);
    case Invoked(_, _) => InvokedKeepsInv(digest, s, c, choice);
    case ResultStored(_, _, _) => ResultStoredKeepsInv(digest, s, c, choice);
    case Resolving(row) =>
      StageKeepsInv(digest, s, c, Returned(ResolveExisting(digest, s.blobs, s.calls[c].intent, row)));
    case Returned(_) =>
    case Crashed =>
  }

  lemma MarkedKeepsInv(digest: Bytes -> Hash, s: System, c: Caller, choice: Choice)
    requires Inv(digest, s) && c in s.calls && s.calls[c].stage.Marked?
    ensures Inv(digest, Advance(digest, s, c, choice))
  {
    hide Inv;
    var e := s.calls[c].stage.effect;
    if s.calls[c].fault == AfterDispatchedBeforeInvoke {
      UnknownKeepsInv(digest, s, c, e);
    } else {
      InvokeKeepsInv(digest, s, c, e, choice.outcome);
    }
  }

  lemma OutsideKeepsInv(digest: Bytes -> Hash, s: System, a: Authority)
    requires Inv(digest, s) && Valid(a) && s.ledger.authority.authorizations <= a.authorizations
    ensures Inv(digest, s.(ledger := s.ledger.(authority := a)))
  {
    ShapeIsLocal(s.ledger, s.ledger.(authority := a));
    hide Valid, Shaped, UniqueOperations, Intact, ResultsStored, InvocationsSound, CallSound, Funded;
    forall e | e in s.ledger.intents ensures Funded(a.authorizations, s.ledger.intents[e]) {
      FundedStays(s.ledger.authority.authorizations, a.authorizations, s.ledger.intents[e]);
    }
  }

  lemma EnterKeepsInv(digest: Bytes -> Hash, s: System, c: Caller, intent: CanonicalIntent, z: Authorizer, fault: Fault)
    requires Inv(digest, s) && c !in s.calls
    ensures Inv(digest, s.(calls := s.calls[c := Call(intent, z, fault, Finding)]))
  {
    hide Valid, Shaped, UniqueOperations, AllFunded, Intact, ResultsStored, InvocationsSound;
  }

  lemma StepKeepsInv(digest: Bytes -> Hash, s: System, event: Event)
    requires Inv(digest, s)
    ensures Inv(digest, Step(digest, s, event))
  {
    match event
    case Enter(c, intent, z, fault) =>
      hide Inv;
      if c !in s.calls && intent.inputHash == digest(intent.input) {
        EnterKeepsInv(digest, s, c, intent, z, fault);
      }
    case Proceed(c, choice) =>
      hide Inv, Advance;
      if c in s.calls {
        AdvanceKeepsInv(digest, s, c, choice);
      }
    case Crash(c) =>
      hide Inv;
      if c in s.calls {
        StageKeepsInv(digest, s, c, Crashed);
      }
    case Abandon(c, error) =>
      hide Inv;
      if c in s.calls {
        StageKeepsInv(digest, s, c, Returned(Err(error)));
      }
    case Outside(op) =>
      hide Commit, Valid, Shaped, UniqueOperations, AllFunded, Intact, ResultsStored, InvocationsSound;
      hide CallsSound, Exclusive;
      CommitKeepsValid(s.ledger.authority, op);
      CommitGrowsLog(s.ledger.authority, op);
      OutsideKeepsInv(digest, s, Commit(s.ledger.authority, op));
    case MoveBranches(states) =>
      ShapeIsLocal(s.ledger, s.ledger.(branchStates := states));
      hide Valid, Shaped, UniqueOperations, AllFunded, Intact, ResultsStored, InvocationsSound, CallsSound, Exclusive;
  }

  lemma {:induction false} RunKeepsInv(digest: Bytes -> Hash, s: System, events: seq<Event>)
    requires Inv(digest, s)
    ensures Inv(digest, RunSystem(digest, s, events))
  {
    hide Inv, Step;
    if events != [] {
      RunKeepsInv(digest, s, events[..|events| - 1]);
      StepKeepsInv(digest, RunSystem(digest, s, events[..|events| - 1]), events[|events| - 1]);
    }
  }
}
