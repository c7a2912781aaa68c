/**
 The effect gateway as the source runs it: tables updated in place, rollback on error, one `execute` from start to end.
 */
module EffectGateways {
  import opened Wrappers
  import opened Capabilities
  import opened AuthorityInvariant
  import opened CapabilityServices
  import opened Effects
  import opened EffectProtocol
  import opened EffectInvariant
  import opened EffectSteps

  // ---------------------------------------------------------------- one caller, undisturbed

  /** The only caller of a sequential run. */
  const SOLE: Caller := 0

  ghost function Drive(digest: Bytes -> Hash, s: System, choice: Choice, n: nat): System
    decreases n
  {
    if n == 0 then s else Drive(digest, Step(digest, s, Proceed(SOLE, choice)), choice, n - 1)
  }

  function Proceeds(choice: Choice, n: nat): seq<Event> {
    seq(n, i => Proceed(SOLE, choice))
  }

  lemma {:induction false} RunFromFront(digest: Bytes -> Hash, s: System, x: Event, events: seq<Event>)
    ensures RunSystem(digest, s, [x] + events) == RunSystem(digest, Step(digest, s, x), events)
  {
    hide Step;
    var all := [x] + events;
    if events == [] {
      assert all == [x] && [x][..0] == [];
      assert RunSystem(digest, s, []) == s;
    } else {
      var n := |events| - 1;
      RunFromFront(digest, s, x, events[..n]);
      assert all[..|all| - 1] == [x] + events[..n];
    }
  }

  /** Driving the caller is a run of the interleaved system. */
  lemma {:induction false} DriveIsRun(digest: Bytes -> Hash, s: System, choice: Choice, n: nat)
    ensures Drive(digest, s, choice, n) == RunSystem(digest, s, Proceeds(choice, n))
    decreases n
  {
    hide Step;
    if n > 0 {
      DriveIsRun(digest, Step(digest, s, Proceed(SOLE, choice)), choice, n - 1);
      RunFromFront(digest, s, Proceed(SOLE, choice), Proceeds(choice, n - 1));
      assert Proceeds(choice, n) == [Proceed(SOLE, choice)] + Proceeds(choice, n - 1);
    }
  }

  /** A call that has returned stays as it is. */
  lemma {:induction false} DriveSettles(digest: Bytes -> Hash, s: System, choice: Choice, n: nat)
    requires SOLE in s.calls && s.calls[SOLE].stage.Returned?
    ensures Drive(digest, s, choice, n) == s
    decreases n
  {
    if n > 0 {
      assert Step(digest, s, Proceed(SOLE, choice)) == s;
      DriveSettles(digest, s, choice, n - 1);
    }
  }

  /** The system that a gateway with one call is. */
  ghost function Alone(l: Ledger, blobs: Blobs, log: seq<Invocation>, intent: CanonicalIntent, z: Authorizer,
                       fault: Fault, stage: Stage): System {
    System(l, blobs, map[SOLE := Call(intent, z, fault, stage)], log)
  }

  /** Where a transaction leads: on with the new tables, or out with its error. */
  ghost function Tried(r: Result<Ledger, GatewayError>, s: System, stage: Stage): System
    requires SOLE in s.calls
  {
    if r.Ok? then Moved(s.(ledger := r.value), stage) else Moved(s, Returned(Err(r.error)))
  }

  ghost function Moved(s: System, stage: Stage): System
    requires SOLE in s.calls
  {
    Alone(s.ledger, s.blobs, s.invocations, s.calls[SOLE].intent, s.calls[SOLE].authorizer, s.calls[SOLE].fault, stage)
  }

  /** A system with the one caller. */
  ghost predicate IsAlone(s: System) {
    s.calls.Keys == {SOLE}
  }

  ghost function Next(digest: Bytes -> Hash, s: System, choice: Choice): System {
    Step(digest, s, Proceed(SOLE, choice))
  }

  lemma MovesAlone(s: System, stage: Stage)
    requires IsAlone(s)
    ensures MoveTo(s, SOLE, stage) == Moved(s, stage)
  {
  }

  lemma AttemptsAlone(s: System, r: Result<Ledger, GatewayError>, stage: Stage)
    requires IsAlone(s)
    ensures Attempt(s, SOLE, r, stage) == Tried(r, s, stage)
  {
    MovesAlone(s, Returned(Err(FaultInjected)));
    if r.Ok? { MovesAlone(s.(ledger := r.value), stage); } else { MovesAlone(s, Returned(Err(r.error))); }
  }

  lemma NextReady(digest: Bytes -> Hash, s: System, choice: Choice)
    requires IsAlone(s) && s.calls[SOLE].stage.Ready?
    ensures var e := s.calls[SOLE].stage.effect;
      Next(digest, s, choice) == if s.calls[SOLE].fault == AfterPrepared then Moved(s, Returned(Err(FaultInjected)))
                                 else Tried(MarkDispatched(s.ledger, e), s, Marked(e))
  {
    var e := s.calls[SOLE].stage.effect;
    hide MarkDispatched, Attempt;
    MovesAlone(s, Returned(Err(FaultInjected)));
    AttemptsAlone(s, MarkDispatched(s.ledger, e), Marked(e));
  }

  lemma NextMarked(digest: Bytes -> Hash, s: System, choice: Choice)
    requires IsAlone(s) && s.calls[SOLE].stage.Marked?
    ensures var call := s.calls[SOLE];
      var e := call.stage.effect;
      Next(digest, s, choice) ==
        if call.fault == AfterDispatchedBeforeInvoke
            then Tried(MarkUnknown(s.ledger, e), s, Returned(Err(FaultInjected)))
        else Moved(s.(invocations := s.invocations + [Invocation(call.intent.operation, e, call.intent.inputHash)]),
          Invoked(e, choice.outcome))
  {
    var call := s.calls[SOLE];
    var e := call.stage.effect;
    hide MarkUnknown, Attempt;
    AttemptsAlone(s, MarkUnknown(s.ledger, e), Returned(Err(FaultInjected)));
    MovesAlone(s.(invocations := s.invocations + [Invocation(call.intent.operation, e, call.intent.inputHash)]),
      Invoked(e, choice.outcome));
  }

  lemma NextInvoked(digest: Bytes -> Hash, s: System, choice: Choice)
    requires IsAlone(s) && s.calls[SOLE].stage.Invoked?
    ensures var e, outcome := s.calls[SOLE].stage.effect, s.calls[SOLE].stage.outcome;
      Next(digest, s, choice) ==
        if s.calls[SOLE].fault == AfterInvokeBeforeCommit
            then Tried(MarkUnknown(s.ledger, e), s, Returned(Err(FaultInjected)))
        else if outcome.Declined? then Tried(MarkFailed(s.ledger, e), s, Returned(Err(DispatchFailed)))
        else if Put(digest, s.blobs, outcome.bytes).None? then Moved(s, Returned(Err(BlobFailure)))
        else Moved(s.(blobs := Put(digest, s.blobs, outcome.bytes).value),
          ResultStored(e, outcome.bytes, outcome.mediaType))
  {
    var e, outcome := s.calls[SOLE].stage.effect, s.calls[SOLE].stage.outcome;
    hide MarkUnknown, MarkFailed, Attempt, Put, MoveTo;
    AttemptsAlone(s, MarkUnknown(s.ledger, e), Returned(Err(FaultInjected)));
    AttemptsAlone(s, MarkFailed(s.ledger, e), Returned(Err(DispatchFailed)));
    MovesAlone(s, Returned(Err(BlobFailure)));
    if outcome.Accepted? && Put(digest, s.blobs, outcome.bytes).Some? {
      MovesAlone(s.(blobs := Put(digest, s.blobs, outcome.bytes).value),
        ResultStored(e, outcome.bytes, outcome.mediaType));
    }
  }

  lemma NextStored(digest: Bytes -> Hash, s: System, choice: Choice)
    requires IsAlone(s) && s.calls[SOLE].stage.ResultStored?
    ensures var call := s.calls[SOLE];
      var bytes := call.stage.bytes;
      var h := digest(bytes);
      Next(digest, s, choice) ==
        Tried(CommitResult(s.ledger, call.stage.effect, h, BlobRow(|bytes|, call.stage.mediaType)), s,
              Returned(Ok(Receipt(call.intent.operation, call.intent.inputHash, h, bytes, false))))
  {
    var call := s.calls[SOLE];
    var bytes := call.stage.bytes;
    var h := digest(bytes);
    hide CommitResult, Attempt;
    AttemptsAlone(s, CommitResult(s.ledger, call.stage.effect, h, BlobRow(|bytes|, call.stage.mediaType)),
                  Returned(Ok(Receipt(call.intent.operation, call.intent.inputHash, h, bytes, false))));
  }

  lemma NextFinding(digest: Bytes -> Hash, s: System, choice: Choice)
    requires IsAlone(s) && s.calls[SOLE].stage.Finding?
    ensures var found := Find(s.ledger, s.calls[SOLE].intent.operation);
      Next(digest, s, choice) == Moved(s, if found.Some? then Resolving(s.ledger.intents[found.value]) else Storing)
  {
    hide Find;
  }

  lemma NextResolving(digest: Bytes -> Hash, s: System, choice: Choice)
    requires IsAlone(s) && s.calls[SOLE].stage.Resolving?
    ensures Next(digest, s, choice)
        == Moved(s, Returned(ResolveExisting(digest, s.blobs, s.calls[SOLE].intent, s.calls[SOLE].stage.row)))
  {
    hide ResolveExisting;
  }

  lemma NextStoring(digest: Bytes -> Hash, s: System, choice: Choice)
    requires IsAlone(s) && s.calls[SOLE].stage.Storing?
    ensures var stored := Put(digest, s.blobs, s.calls[SOLE].intent.input);
      Next(digest, s, choice) == if stored.None? then Moved(s, Returned(Err(BlobFailure)))
        else Moved(s.(blobs := stored.value), Persisting)
  {
    hide Put;
  }

  lemma NextPersisting(digest: Bytes -> Hash, s: System, choice: Choice)
    requires IsAlone(s) && s.calls[SOLE].stage.Persisting?
    ensures var call := s.calls[SOLE];
      var r := AuthorizeAndPersist(s.ledger, call.authorizer, call.intent, choice.effect,
          BlobRow(|call.intent.input|, INPUT_MEDIA_TYPE), choice.clock);
      Next(digest, s, choice) ==
        if r.Err? then Moved(s, Returned(Err(r.error)))
        else Moved(s.(ledger := r.value.0),
          match r.value.1
          case Fresh(e) => Ready(e)
          case Refused => Returned(Err(AuthorizationDenied))
          case Existing(e) => if e in s.ledger.intents then Resolving(s.ledger.intents[e]) else Crashed)
  {
    hide AuthorizeAndPersist;
  }

  class EffectGateway {
    const service: CapabilityService
    var intents: map<EffectId, Intent>
    var transitions: map<At, Mark>
    var attempts: map<EffectId, AttemptState>
    var attemptTransitions: map<At, AttemptMark>
    var branchStates: map<BranchKey, BranchState>
    var blobRows: map<Hash, BlobRow>
    var blobs: Blobs
    ghost var log: seq<Invocation>   // every call of the dispatcher so far

    /** The tables of the gateway together with those of the authority. */
    function Tables(): Ledger
      reads this, service
    {
      Ledger(service.Tables(), intents, transitions, attempts, attemptTransitions, branchStates, blobRows)
    }

    /** The gateway between two calls, as a system without callers. */
    ghost function Resting(): System
      reads this, service
    {
      System(Tables(), blobs, map[], log)
    }

    constructor (service: CapabilityService, branchStates: map<BranchKey, BranchState>)
      ensures this.service == service
      ensures Resting() == Start(service.Tables(), branchStates)
    {
      this.service := service;
      this.branchStates := branchStates;
      intents, transitions, attempts, attemptTransitions := map[], map[], map[], map[];
      blobRows, blobs, log := map[], map[], [];
    }

    /** `find` */
    method FindOperation(operation: OperationId) returns (r: Option<EffectId>)
      requires UniqueOperations(intents)
      ensures r == Find(Tables(), operation)
    {
      var todo := intents.Keys;
      while todo != {}
        invariant todo <= intents.Keys
        invariant forall e :: e in intents && e !in todo ==> intents[e].request.operation != operation
      {
        var e :| e in todo;
        if intents[e].request.operation == operation {
          return Some(e);
        }
        todo := todo - {e};
      }
      return None;
    }

    /** `insert_blob_metadata` */
    method InsertBlobRow(hash: Hash, row: BlobRow) returns (ok: bool)
      modifies this`blobRows
      ensures ok <==> RegisterBlob(old(blobRows), hash, row).Ok?
      ensures blobRows == if ok then RegisterBlob(old(blobRows), hash, row).value else old(blobRows)
    {
      if hash in blobRows && blobRows[hash] != row {
        return false;
      }
      blobRows := blobRows[hash := row];
      return true;
    }

    /** `authorize_and_persist`: one transaction over the authority's and the gateway's tables. */
    method Persist(z: Authorizer, intent: CanonicalIntent, effect: EffectId, input: BlobRow, clock: int)
      returns (r: Result<Created, GatewayError>)
      requires Valid(service.Tables()) && UniqueOperations(intents)
      modifies this, service
      ensures var spec := AuthorizeAndPersist(old(Tables()), z, intent, effect, input, clock);
        if spec.Ok? then r == Ok(spec.value.1) && Tables() == spec.value.0
        else r == Err(spec.error) && Tables() == old(Tables())
      ensures blobs == old(blobs)
    {
      hide Valid, AuthorizeInTransaction, Find, UniqueOperations;
      var existing := FindOperation(intent.operation);
      if existing.Some? {
        return Ok(Existing(existing.value));
      }
      var before, rows := service.Tables(), blobRows;
      var decided := service.AuthorizeInPlace(z.handleHash, UseFor(z, intent), clock);
      if decided.Err? {
        return Err(AuthorizationUnavailable);
      }
      var d := decided.value;
      var registered := InsertBlobRow(intent.inputHash, input);
      if !registered {
        service.Rollback(before);
        return Err(BlobMetadataConflict);
      }
      if !Insertable(Tables(), service.Tables(), effect, intent, d.capability) {
        service.Rollback(before);
        blobRows := rows;
        return Err(GatewayDatabase);
      }
      InsertIntent(effect, intent, d);
      return Ok(if d.reason == Allowed && d.capability.Some? then Fresh(effect) else Refused);
    }

    /** The intent row and its first two transitions. */
    method InsertIntent(effect: EffectId, intent: CanonicalIntent, d: Decision)
      modifies this`intents, this`transitions
      ensures Tables() == AddIntent(old(Tables()), old(Tables()).authority, old(blobRows), effect, intent, d)
    {
      var allowed := d.reason == Allowed && d.capability.Some?;
      intents := intents[effect := Intent(intent, d.capability, if allowed then Prepared else Denied, None, 0)];
      transitions := transitions[At(effect, 0) := RequestedMark];
      transitions := transitions[At(effect, 1) := if allowed then PreparedMark else FailedMark];
    }

    /** `mark_dispatched` */
    method Dispatching(effect: EffectId) returns (r: Result<Unit, GatewayError>)
      modifies this
      ensures var spec := MarkDispatched(old(Tables()), effect);
        if spec.Ok? then r == Ok(Unit) && Tables() == spec.value else r == Err(spec.error) && Tables() == old(Tables())
      ensures blobs == old(blobs)
    {
      if effect !in intents || intents[effect].state != Prepared {
        return Err(ConcurrentStateChange);
      }
      if effect in attempts || At(effect, 2) in transitions || At(effect, 0) in attemptTransitions {
        return Err(GatewayDatabase);
      }
      intents := intents[effect := intents[effect].(state := Dispatched, revision := intents[effect].revision + 1)];
      attempts := attempts[effect := Started];
      transitions := transitions[At(effect, 2) := DispatchedMark];
      attemptTransitions := attemptTransitions[At(effect, 0) := StartedMark];
      return Ok(Unit);
    }

    /** `update_resolution`, `update_attempt` and the two appends. */
    method Resolving(effect: EffectId, end: Resolution) returns (r: Result<Unit, GatewayError>)
      modifies this`intents, this`attempts, this`transitions, this`attemptTransitions
      ensures var spec := Resolve(old(Tables()), effect, end);
        if spec.Ok? then r == Ok(Unit) && Tables() == spec.value else r == Err(spec.error) && Tables() == old(Tables())
    {
      if effect !in intents || intents[effect].state != Dispatched {
        return Err(InvalidStoredValue);
      }
      if effect !in attempts || attempts[effect] != Started {
        return Err(InvalidStoredValue);
      }
      if At(effect, 3) in transitions || At(effect, 1) in attemptTransitions {
        return Err(GatewayDatabase);
      }
      var row := intents[effect];
      intents := intents[effect := row.(state := StateOf(end), revision := row.revision + 1,
                                        resultHash := if end.ToSucceeded? then Some(end.hash) else None)];
      attempts := attempts[effect := AttemptOf(end)];
      transitions := transitions[At(effect, 3) := MarkOf(end)];
      attemptTransitions := attemptTransitions[At(effect, 1) := AttemptMarkOf(end)];
      return Ok(Unit);
    }

    /** `mark_unknown`: when the branch cannot be suspended the resolution is undone. */
    method LosingTrack(effect: EffectId) returns (r: Result<Unit, GatewayError>)
      modifies this
      ensures var spec := MarkUnknown(old(Tables()), effect);
        if spec.Ok? then r == Ok(Unit) && Tables() == spec.value else r == Err(spec.error) && Tables() == old(Tables())
      ensures blobs == old(blobs)
    {
      var before, attempted, history, marks := intents, attempts, transitions, attemptTransitions;
      r := Resolving(effect, ToUnknown);
      if r.Ok? {
        var at := before[effect].request.at;
        if at !in branchStates || !Suspendable(branchStates[at]) {
          intents, attempts, transitions, attemptTransitions := before, attempted, history, marks;
          return Err(InvalidStoredValue);
        }
        hide Resolve;
        branchStates := branchStates[at := Suspended];
      }
    }

    /** The transaction of `commit_result`. */
    method Committing(effect: EffectId, hash: Hash, row: BlobRow) returns (r: Result<Unit, GatewayError>)
      modifies this
      ensures var spec := CommitResult(old(Tables()), effect, hash, row);
        if spec.Ok? then r == Ok(Unit) && Tables() == spec.value else r == Err(spec.error) && Tables() == old(Tables())
      ensures blobs == old(blobs)
    {
      hide Resolve;
      var rows := blobRows;
      var registered := InsertBlobRow(hash, row);
      if !registered {
        return Err(BlobMetadataConflict);
      }
      r := Resolving(effect, ToSucceeded(hash));
      if r.Err? {
        blobRows := rows;
      }
    }

    /** `mark_failed` */
    method Failing(effect: EffectId) returns (r: Result<Unit, GatewayError>)
      modifies this
      ensures var spec := MarkFailed(old(Tables()), effect);
        if spec.Ok? then r == Ok(Unit) && Tables() == spec.value else r == Err(spec.error) && Tables() == old(Tables())
      ensures blobs == old(blobs)
    {
      r := Resolving(effect, ToFailed);
    }

    /** `dispatch` from the point where the dispatcher has answered. */
    method Finish(digest: Bytes -> Hash, e: EffectId, intent: CanonicalIntent, fault: Fault, outcome: Outcome,
                  ghost s: System, ghost choice: Choice)
      returns (r: Result<Receipt, GatewayError>, ghost t: System)
      requires IsAlone(s) && Describes(s, intent, fault) && s.calls[SOLE].stage == Invoked(e, outcome)
      modifies this
      ensures t == Drive(digest, s, choice, 2) && IsAlone(t) && Describes(t, intent, fault)
          && t.calls[SOLE].stage == Returned(r)
      ensures t.invocations == s.invocations
    {
      hide MarkUnknown, MarkFailed, CommitResult, Put, Next, Drive;
      NextInvoked(digest, s, choice);
      DriveNext(digest, s, choice, 2);
      t := Next(digest, s, choice);
      if fault == AfterInvokeBeforeCommit {
        var lost := LosingTrack(e);
        r := Err(if lost.Ok? then FaultInjected else lost.error);
        DriveSettles(digest, t, choice, 1);
      } else if outcome.Declined? {
        var failed := Failing(e);
        r := Err(if failed.Ok? then DispatchFailed else failed.error);
        DriveSettles(digest, t, choice, 1);
      } else {
        r, t := Keep(digest, e, intent, fault, outcome, s, choice);
      }
    }

    /** The gateway's tables are those of a system in which the given call is under way. */
    ghost predicate Describes(s: System, intent: CanonicalIntent, fault: Fault)
      reads this, service
    {
      && s.ledger == Tables() && s.blobs == blobs
      && SOLE in s.calls && s.calls[SOLE].intent == intent && s.calls[SOLE].fault == fault
    }

    /** `commit_result` */
    method Keep(digest: Bytes -> Hash, e: EffectId, intent: CanonicalIntent, fault: Fault, outcome: Outcome,
                ghost s: System, ghost choice: Choice)
      returns (r: Result<Receipt, GatewayError>, ghost t: System)
      requires IsAlone(s) && Describes(s, intent, fault) && s.calls[SOLE].stage == Invoked(e, outcome)
      requires fault != AfterInvokeBeforeCommit && outcome.Accepted?
      modifies this
      ensures t == Drive(digest, s, choice, 2) && IsAlone(t) && Describes(t, intent, fault)
          && t.calls[SOLE].stage == Returned(r)
      ensures t.invocations == s.invocations
    {
      hide CommitResult, Put, Next, Drive;
      NextInvoked(digest, s, choice);
      DriveNext(digest, s, choice, 2);
      t := Next(digest, s, choice);
      var stored := Put(digest, blobs, outcome.bytes);
      if stored.None? {
        r := Err(BlobFailure);
        DriveSettles(digest, t, choice, 1);
        return;
      }
      blobs := stored.value;
      NextStored(digest, t, choice);
      DriveNext(digest, t, choice, 1);
      t := Next(digest, t, choice);
      DriveSettles(digest, t, choice, 0);
      var hash := digest(outcome.bytes);
      var committed := Committing(e, hash, BlobRow(|outcome.bytes|, outcome.mediaType));
      r := if committed.Ok? then Ok(Receipt(intent.operation, intent.inputHash, hash, outcome.bytes, false))
          else Err(committed.error);
    }

    /** Calling the dispatcher. */
    method Invoke(digest: Bytes -> Hash, e: EffectId, intent: CanonicalIntent, fault: Fault, choice: Choice,
                  ghost s: System)
      returns (r: Result<Receipt, GatewayError>, dispatched: bool, ghost t: System)
      requires IsAlone(s) && Describes(s, intent, fault) && s.calls[SOLE].stage == Marked(e)
      modifies this
      ensures t == Drive(digest, s, choice, 3) && IsAlone(t) && Describes(t, intent, fault)
          && t.calls[SOLE].stage == Returned(r)
      ensures t.invocations
          == s.invocations + (if dispatched then [Invocation(intent.operation, e, intent.inputHash)] else [])
    {
      hide MarkUnknown, Next, Drive;
      NextMarked(digest, s, choice);
      DriveNext(digest, s, choice, 3);
      t := Next(digest, s, choice);
      dispatched := false;
      if fault == AfterDispatchedBeforeInvoke {
        var lost := LosingTrack(e);
        r := Err(if lost.Ok? then FaultInjected else lost.error);
        DriveSettles(digest, t, choice, 2);
        return;
      }
      dispatched := true;
      r, t := Finish(digest, e, intent, fault, choice.outcome, t, choice);
    }

    /** `dispatch`: the mark is durable before the dispatcher is called. */
    method Dispatch(digest: Bytes -> Hash, e: EffectId, intent: CanonicalIntent, fault: Fault, choice: Choice,
                    ghost s: System)
      returns (r: Result<Receipt, GatewayError>, dispatched: bool, ghost t: System)
      requires IsAlone(s) && Describes(s, intent, fault) && s.calls[SOLE].stage == Ready(e)
      modifies this
      ensures t == Drive(digest, s, choice, 4) && IsAlone(t) && Describes(t, intent, fault)
          && t.calls[SOLE].stage == Returned(r)
      ensures t.invocations
          == s.invocations + (if dispatched then [Invocation(intent.operation, e, intent.inputHash)] else [])
    {
      hide MarkDispatched, Next, Drive;
      NextReady(digest, s, choice);
      DriveNext(digest, s, choice, 4);
      t := Next(digest, s, choice);
      dispatched := false;
      if fault == AfterPrepared {
        r := Err(FaultInjected);
        DriveSettles(digest, t, choice, 3);
        return;
      }
      var marked := Dispatching(e);
      if marked.Err? {
        r := Err(marked.error);
        DriveSettles(digest, t, choice, 3);
        return;
      }
      r, dispatched, t := Invoke(digest, e, intent, fault, choice, t);
    }

    /** `execute` from the point where the input is stored. */
    method Decide(digest: Bytes -> Hash, intent: CanonicalIntent, z: Authorizer, fault: Fault, choice: Choice,
                  ghost s: System)
      returns (r: Result<Receipt, GatewayError>, dispatched: bool, ghost t: System)
      requires Valid(service.Tables()) && UniqueOperations(intents)
      requires IsAlone(s) && Describes(s, intent, fault) && s.calls[SOLE].stage == Persisting
          && s.calls[SOLE].authorizer == z
      modifies this, service
      ensures t == Drive(digest, s, choice, 5) && IsAlone(t) && Describes(t, intent, fault)
          && t.calls[SOLE].stage == Returned(r)
      ensures |t.invocations| == |s.invocations| + (if dispatched then 1 else 0)
    {
      hide Valid, UniqueOperations, AuthorizeAndPersist, Next, Drive, ResolveExisting, INPUT_MEDIA_TYPE;
      NextPersisting(digest, s, choice);
      DriveNext(digest, s, choice, 5);
      t := Next(digest, s, choice);
      dispatched := false;
      ghost var before := Tables();
      ExistingIsThere(before, z, intent, choice.effect, BlobRow(|intent.input|, INPUT_MEDIA_TYPE), choice.clock);
      var created := Persist(z, intent, choice.effect, BlobRow(|intent.input|, INPUT_MEDIA_TYPE), choice.clock);
      if created.Err? {
        r := Err(created.error);
        DriveSettles(digest, t, choice, 4);
      } else if created.value.Fresh? {
        r, dispatched, t := Dispatch(digest, created.value.effect, intent, fault, choice, t);
      } else if created.value.Refused? {
        r := Err(AuthorizationDenied);
        DriveSettles(digest, t, choice, 4);
      } else {
        r := ResolveExisting(digest, blobs, intent, intents[created.value.effect]);
        NextResolving(digest, t, choice);
        DriveNext(digest, t, choice, 4);
        t := Next(digest, t, choice);
        DriveSettles(digest, t, choice, 3);
      }
    }

    /** `execute` from the point where no row was found. */
    method Submit(digest: Bytes -> Hash, intent: CanonicalIntent, z: Authorizer, fault: Fault, choice: Choice,
                  ghost s: System)
      returns (r: Result<Receipt, GatewayError>, dispatched: bool, ghost t: System)
      requires Valid(service.Tables()) && UniqueOperations(intents)
      requires IsAlone(s) && Describes(s, intent, fault) && s.calls[SOLE].stage == Storing
          && s.calls[SOLE].authorizer == z
      modifies this, service
      ensures t == Drive(digest, s, choice, 6) && IsAlone(t) && Describes(t, intent, fault)
          && t.calls[SOLE].stage == Returned(r)
      ensures |t.invocations| == |s.invocations| + (if dispatched then 1 else 0)
    {
      hide Valid, UniqueOperations, Next, Drive, Put;
      NextStoring(digest, s, choice);
      DriveNext(digest, s, choice, 6);
      t := Next(digest, s, choice);
      dispatched := false;
      var stored := Put(digest, blobs, intent.input);
      if stored.None? {
        r := Err(BlobFailure);
        DriveSettles(digest, t, choice, 5);
        return;
      }
      blobs := stored.value;
      r, dispatched, t := Decide(digest, intent, z, fault, choice, t);
    }

    /** `execute` */
    method ExecuteStages(digest: Bytes -> Hash, intent: CanonicalIntent, z: Authorizer, fault: Fault, choice: Choice,
                         ghost s: System)
      returns (r: Result<Receipt, GatewayError>, dispatched: bool, ghost t: System)
      requires Valid(service.Tables()) && UniqueOperations(intents)
      requires IsAlone(s) && Describes(s, intent, fault) && s.calls[SOLE].stage == Finding
          && s.calls[SOLE].authorizer == z
      modifies this, service
      ensures t == Drive(digest, s, choice, 7) && IsAlone(t) && Describes(t, intent, fault)
          && t.calls[SOLE].stage == Returned(r)
      ensures |t.invocations| == |s.invocations| + (if dispatched then 1 else 0)
    {
      hide Valid, UniqueOperations, Next, Drive, ResolveExisting, Find;
      NextFinding(digest, s, choice);
      DriveNext(digest, s, choice, 7);
      t := Next(digest, s, choice);
      dispatched := false;
      var existing := FindOperation(intent.operation);
      if existing.Some? {
        r := ResolveExisting(digest, blobs, intent, intents[existing.value]);
        NextResolving(digest, t, choice);
        DriveNext(digest, t, choice, 6);
        t := Next(digest, t, choice);
        DriveSettles(digest, t, choice, 5);
        return;
      }
      r, dispatched, t := Submit(digest, intent, z, fault, choice, t);
    }

    /**
     `execute` without interference is a run of the interleaved system, so everything proved about all runs holds of
     any series of such calls. The dispatcher's answer, a fresh effect identifier and the clock are given by `choice`.
     */
    method Execute(digest: Bytes -> Hash, intent: CanonicalIntent, z: Authorizer, fault: Fault, choice: Choice)
      returns (r: Result<Receipt, GatewayError>, dispatched: bool, ghost t: System)
      requires Inv(digest, Resting()) && intent.inputHash == digest(intent.input)
      modifies this, service
      ensures t == RunSystem(digest, old(Resting()), WholeCall(intent, z, fault, choice))
      ensures SOLE in t.calls && t.calls[SOLE].stage == Returned(r)
      ensures Resting() == t.(calls := map[])
      ensures |log| == |old(log)| + (if dispatched then 1 else 0)
      ensures Inv(digest, Resting())
    {
      hide Inv, Drive, RunSystem, WholeCall, Valid, UniqueOperations;
      WholeCallRuns(digest, Resting(), intent, z, fault, choice);
      r, dispatched, t :=
          ExecuteStages(digest, intent, z, fault, choice, Alone(Tables(), blobs, log, intent, z, fault, Finding));
      log := t.invocations;
      Retire(digest, t);
    }
  }

  /** Entering a call, and as many steps as a call can take. */
  function WholeCall(intent: CanonicalIntent, z: Authorizer, fault: Fault, choice: Choice): seq<Event> {
    [Enter(SOLE, intent, z, fault)] + Proceeds(choice, 7)
  }

  lemma EnterAlone(digest: Bytes -> Hash, s: System, intent: CanonicalIntent, z: Authorizer, fault: Fault)
    requires s.calls == map[] && intent.inputHash == digest(intent.input)
    ensures Step(digest, s, Enter(SOLE, intent, z, fault))
        == Alone(s.ledger, s.blobs, s.invocations, intent, z, fault, Finding)
  {
  }

  /** Entering and driving a call is a run, and keeps the invariant. */
  lemma WholeCallRuns(digest: Bytes -> Hash, s: System, intent: CanonicalIntent, z: Authorizer, fault: Fault,
                      choice: Choice)
    requires Inv(digest, s) && s.calls == map[] && intent.inputHash == digest(intent.input)
    ensures var t := Drive(digest, Alone(s.ledger, s.blobs, s.invocations, intent, z, fault, Finding), choice, 7);
      t == RunSystem(digest, s, WholeCall(intent, z, fault, choice)) && Inv(digest, t)
    ensures Valid(s.ledger.authority) && UniqueOperations(s.ledger.intents)
  {
    EnterAlone(digest, s, intent, z, fault);
    var n: nat := 7;
    var events := [Enter(SOLE, intent, z, fault)] + Proceeds(choice, n);
    RunFromFront(digest, s, Enter(SOLE, intent, z, fault), Proceeds(choice, n));
    DriveIsRun(digest, Alone(s.ledger, s.blobs, s.invocations, intent, z, fault, Finding), choice, n);
    hide Drive, RunSystem, Step, Valid, UniqueOperations, Shaped, AllFunded, Intact, ResultsStored;
    hide CallsSound, Exclusive, InvocationsSound;
    RunKeepsInv(digest, s, events);
  }

  /** A call that is over can be forgotten. */
  lemma Retire(digest: Bytes -> Hash, s: System)
    requires Inv(digest, s)
    ensures Inv(digest, s.(calls := map[]))
  {
    hide Valid, UniqueOperations, Shaped, AllFunded, Intact, ResultsStored, InvocationsSound;
  }

  lemma DriveNext(digest: Bytes -> Hash, s: System, choice: Choice, n: nat)
    requires n > 0
    ensures Drive(digest, s, choice, n) == Drive(digest, Next(digest, s, choice), choice, n - 1)
  {
  }

  /** A row that is found to exist is one of the present rows, and nothing has changed. */
  lemma ExistingIsThere(l: Ledger, z: Authorizer, intent: CanonicalIntent, effect: EffectId, input: BlobRow, clock: int)
    ensures var r := AuthorizeAndPersist(l, z, intent, effect, input, clock);
      r.Ok? && r.value.1.Existing? ==> r.value.0 == l && r.value.1.effect in l.intents
  {
    hide AuthorizeInTransaction;
  }
}
