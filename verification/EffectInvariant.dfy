/** What every step of every interleaving of `execute` calls keeps. */
module EffectInvariant {
  import opened Wrappers
  import opened Capabilities
  import opened AuthorityInvariant
  import opened AuthorityRuns
  import opened Effects
  import opened EffectProtocol

  type Calls = map<Caller, Call>

  // ---------------------------------------------------------------- one effect: summary row against histories

  /** The transition history that goes with a summary state, by sequence number. */
  function Marks(state: IntentState): seq<Mark> {
    match state
    case Prepared => [RequestedMark, PreparedMark]
    case Denied => [RequestedMark, FailedMark]
    case Dispatched => [RequestedMark, PreparedMark, DispatchedMark]
    case Succeeded => [RequestedMark, PreparedMark, DispatchedMark, CommittedMark]
    case Failed => [RequestedMark, PreparedMark, DispatchedMark, FailedMark]
    case Unknown => [RequestedMark, PreparedMark, DispatchedMark, UnknownMark]
  }

  function AttemptMarks(state: IntentState): seq<AttemptMark> {
    match state
    case Prepared => []
    case Denied => []
    case Dispatched => [StartedMark]
    case Succeeded => [StartedMark, AttemptCommittedMark]
    case Failed => [StartedMark, AttemptFailedMark]
    case Unknown => [StartedMark, AttemptUnknownMark]
  }

  function AttemptFor(state: IntentState): Option<AttemptState> {
    match state
    case Prepared => None
    case Denied => None
    case Dispatched => Some(Started)
    case Succeeded => Some(AttemptSucceeded)
    case Failed => Some(AttemptFailed)
    case Unknown => Some(AttemptUnknown)
  }

  ghost function MarksOf(intents: map<EffectId, Intent>, e: EffectId): seq<Mark> {
    if e in intents then Marks(intents[e].state) else []
  }

  ghost function AttemptMarksOf(intents: map<EffectId, Intent>, e: EffectId): seq<AttemptMark> {
    if e in intents then AttemptMarks(intents[e].state) else []
  }

  ghost predicate Transcribed(l: Ledger, at: At) {
    var marks := MarksOf(l.intents, at.effect);
    && (at in l.transitions <==> at.sequence < |marks|)
    && (at in l.transitions ==> l.transitions[at] == marks[at.sequence])
  }

  ghost predicate AttemptTranscribed(l: Ledger, at: At) {
    var marks := AttemptMarksOf(l.intents, at.effect);
    && (at in l.attemptTransitions <==> at.sequence < |marks|)
    && (at in l.attemptTransitions ==> l.attemptTransitions[at] == marks[at.sequence])
  }

  ghost predicate RowShaped(l: Ledger, e: EffectId) {
    && (e !in l.intents ==> e !in l.attempts)
    && (e in l.intents ==>
          var i := l.intents[e];
          && i.revision + 2 == |Marks(i.state)|
          && (e in l.attempts <==> AttemptFor(i.state).Some?)
          && (e in l.attempts ==> AttemptFor(i.state) == Some(l.attempts[e]))
          && (i.state == Succeeded <==> i.resultHash.Some?)
          && (i.state != Denied ==> i.capability.Some?))
  }

  /** Every summary row says what its two append-only histories say, and no history belongs to nobody. */
  ghost predicate Shaped(l: Ledger) {
    && (forall e {:trigger RowShaped(l, e)} :: RowShaped(l, e))
    && (forall at {:trigger Transcribed(l, at)} :: Transcribed(l, at))
    && (forall at {:trigger AttemptTranscribed(l, at)} :: AttemptTranscribed(l, at))
  }

  ghost predicate UniqueOperations(intents: map<EffectId, Intent>) {
    forall e, f :: e in intents && f in intents && intents[e].request.operation == intents[f].request.operation ==>
        e == f
  }

  // ---------------------------------------------------------------- authorizations behind effects

  /** The authorization row charged for an intent. */
  ghost predicate Pays(row: Authorization, i: Intent) {
    && i.capability == Some(row.capability)
    && row.requestId == i.request.operation
    && row.requestHash == i.request.inputHash
  }

  ghost predicate Funded(log: seq<Authorization>, i: Intent) {
    i.state == Denied || exists k :: 0 <= k < |log| && Pays(log[k], i)
  }

  ghost predicate AllFunded(log: seq<Authorization>, intents: map<EffectId, Intent>) {
    forall e :: e in intents ==> Funded(log, intents[e])
  }

  // ---------------------------------------------------------------- calls and invocations

  ghost predicate Intact(digest: Bytes -> Hash, blobs: Blobs) {
    forall h :: h in blobs ==> digest(blobs[h]) == h
  }

  ghost predicate ResultsStored(intents: map<EffectId, Intent>, blobs: Blobs) {
    forall e :: e in intents && intents[e].resultHash.Some? ==> intents[e].resultHash.value in blobs
  }

  /** The effect a call is responsible for. */
  function Owned(stage: Stage): Option<EffectId> {
    match stage
    case Ready(e) => Some(e)
    case Marked(e) => Some(e)
    case Invoked(e, _) => Some(e)
    case ResultStored(e, _, _) => Some(e)
    case _ => None
  }

  ghost predicate WasInvoked(log: seq<Invocation>, operation: OperationId) {
    exists k :: 0 <= k < |log| && log[k].operation == operation
  }

  ghost predicate CallSound(digest: Bytes -> Hash, intents: map<EffectId, Intent>, blobs: Blobs, log: seq<Invocation>,
                            call: Call) {
    && (Owned(call.stage).Some? ==>
          var e := Owned(call.stage).value;
          && e in intents
          && intents[e].request == call.intent
          && intents[e].state == (if call.stage.Ready? then Prepared else Dispatched)
          && (WasInvoked(log, call.intent.operation) <==> call.stage.Invoked? || call.stage.ResultStored?))
    && (call.stage.ResultStored? ==> digest(call.stage.bytes) in blobs)
    && (call.stage.Resolving? && call.stage.row.state == Succeeded ==>
          exists e :: e in intents && intents[e] == call.stage.row)
  }

  ghost predicate CallsSound(digest: Bytes -> Hash, intents: map<EffectId, Intent>, blobs: Blobs,
                             log: seq<Invocation>, calls: Calls) {
    forall c {:trigger calls[c]} :: c in calls ==> CallSound(digest, intents, blobs, log, calls[c])
  }

  ghost predicate Exclusive(calls: Calls) {
    forall c, d {:trigger calls[c], calls[d]} :: c in calls && d in calls && c != d && Owned(calls[c].stage).Some? ==>
      Owned(calls[c].stage) != Owned(calls[d].stage)
  }

  /** An invocation belongs to a durable effect whose dispatch was marked and whose authorization is kept. */
  ghost predicate InvocationSound(intents: map<EffectId, Intent>, v: Invocation) {
    && v.effect in intents
    && intents[v.effect].request.operation == v.operation
    && intents[v.effect].request.inputHash == v.inputHash
    && intents[v.effect].state in {Dispatched, Succeeded, Failed, Unknown}
  }

  ghost predicate InvocationsSound(intents: map<EffectId, Intent>, log: seq<Invocation>) {
    && (forall k :: 0 <= k < |log| ==> InvocationSound(intents, log[k]))
    && (forall j, k :: 0 <= j < k < |log| ==> log[j].operation != log[k].operation)
    && (forall e :: e in intents && intents[e].state in {Succeeded, Failed} ==>
       WasInvoked(log, intents[e].request.operation))
  }

  ghost predicate Inv(digest: Bytes -> Hash, s: System) {
    && Valid(s.ledger.authority)
    && Shaped(s.ledger)
    && UniqueOperations(s.ledger.intents)
    && AllFunded(s.ledger.authority.authorizations, s.ledger.intents)
    && Intact(digest, s.blobs)
    && ResultsStored(s.ledger.intents, s.blobs)
    && CallsSound(digest, s.ledger.intents, s.blobs, s.invocations, s.calls)
    && Exclusive(s.calls)
    && InvocationsSound(s.ledger.intents, s.invocations)
  }

  lemma StartInv(digest: Bytes -> Hash, a: Authority, branches: map<BranchKey, BranchState>)
    requires Valid(a)
    ensures Inv(digest, Start(a, branches))
  {
  }

  // ---------------------------------------------------------------- ledger transactions keep the shape

  lemma AddKeepsShape(l: Ledger, a: Authority, rows: map<Hash, BlobRow>, effect: EffectId, intent: CanonicalIntent,
                      d: Decision)
    requires Shaped(l) && effect !in l.intents
    ensures Shaped(AddIntent(l, a, rows, effect, intent, d))
  {
    var m := AddIntent(l, a, rows, effect, intent, d);
    forall e ensures RowShaped(m, e) { assert RowShaped(l, e); }
    forall at ensures Transcribed(m, at) { assert Transcribed(l, at); }
    forall at ensures AttemptTranscribed(m, at) { assert AttemptTranscribed(l, at); }
  }

  lemma DispatchKeepsShape(l: Ledger, effect: EffectId)
    requires Shaped(l) && effect in l.intents && l.intents[effect].state == Prepared
    ensures MarkDispatched(l, effect).Ok? && Shaped(MarkDispatched(l, effect).value)
  {
    assert RowShaped(l, effect) && Transcribed(l, At(effect, 2)) && AttemptTranscribed(l, At(effect, 0));
    var m := MarkDispatched(l, effect).value;
    forall e ensures RowShaped(m, e) { assert RowShaped(l, e); }
    forall at ensures Transcribed(m, at) { assert Transcribed(l, at); }
    forall at ensures AttemptTranscribed(m, at) { assert AttemptTranscribed(l, at); }
  }

  lemma ResolveKeepsShape(l: Ledger, effect: EffectId, r: Resolution)
    requires Shaped(l) && effect in l.intents && l.intents[effect].state == Dispatched
    ensures Resolve(l, effect, r).Ok? && Shaped(Resolve(l, effect, r).value)
  {
    assert RowShaped(l, effect) && Transcribed(l, At(effect, 3)) && AttemptTranscribed(l, At(effect, 1));
    var m := Resolve(l, effect, r).value;
    forall e ensures RowShaped(m, e) { assert RowShaped(l, e); }
    forall at ensures Transcribed(m, at) { assert Transcribed(l, at); }
    forall at ensures AttemptTranscribed(m, at) { assert AttemptTranscribed(l, at); }
  }

  /** Shape does not depend on the authority, the branch states or the blob rows. */
  lemma ShapeIsLocal(l: Ledger, m: Ledger)
    requires Shaped(l)
    requires m.intents == l.intents && m.transitions == l.transitions && m.attempts == l.attempts
    requires m.attemptTransitions == l.attemptTransitions
    ensures Shaped(m)
  {
    forall e ensures RowShaped(m, e) { assert RowShaped(l, e); }
    forall at ensures Transcribed(m, at) { assert Transcribed(l, at); }
    forall at ensures AttemptTranscribed(m, at) { assert AttemptTranscribed(l, at); }
  }

  // ---------------------------------------------------------------- the authorization log only grows

  lemma UseGrowsLog(a: Authority, hash: Hash, u: CapabilityUse, clock: int)
    requires AuthorizeInTransaction(a, hash, u, clock).Ok?
    ensures var (b, d) := AuthorizeInTransaction(a, hash, u, clock).value;
      && a.authorizations <= b.authorizations
      && (d.reason == Allowed && d.capability.Some? ==>
            b.authorizations == a.authorizations
              + [Authorization(d.capability.value, u.requestId, u.requestHash, u.budgetUnits, clock)])
  {
    hide Evaluate, ValidUse, Lapse, ConsumeAll;
  }

  lemma CommitGrowsLog(a: Authority, op: Operation)
    ensures a.authorizations <= Commit(a, op).authorizations
  {
    hide AuthorizeInTransaction, ValidateIssue, ValidateAttenuation;
    if op.OpUse? && Transact(a, op).Ok? {
      UseGrowsLog(a, op.hash, op.use, op.clock);
    }
  }

  lemma FundedStays(log: seq<Authorization>, log': seq<Authorization>, i: Intent)
    requires Funded(log, i) && log <= log'
    ensures Funded(log', i)
  {
    if i.state != Denied {
      var k :| 0 <= k < |log| && Pays(log[k], i);
      assert log'[k] == log[k];
    }
  }

  // ---------------------------------------------------------------- moving one row

  /** The only rows that differ are that of `f`, whose request and capability are kept. */
  ghost predicate OnlyMoves(before: map<EffectId, Intent>, after: map<EffectId, Intent>, f: EffectId) {
    && f in before && after.Keys == before.Keys
    && after[f].request == before[f].request && after[f].capability == before[f].capability
    && before[f].state != Denied && after[f].state != Denied
    && forall e {:trigger after[e]} :: e in before && e != f ==> after[e] == before[e]
  }

  lemma MoveKeepsFunding(log: seq<Authorization>, before: map<EffectId, Intent>, after: map<EffectId, Intent>,
                         f: EffectId)
    requires AllFunded(log, before) && UniqueOperations(before) && OnlyMoves(before, after, f)
    ensures AllFunded(log, after) && UniqueOperations(after)
  {
    forall e | e in after ensures Funded(log, after[e]) {
      assert Funded(log, before[e]);
      if e == f {
        var k :| 0 <= k < |log| && Pays(log[k], before[f]);
        assert Pays(log[k], after[f]);
      }
    }
  }

  /** Another caller's claims survive a move of a row it does not own. */
  lemma OthersStaySound(digest: Bytes -> Hash, before: map<EffectId, Intent>, after: map<EffectId, Intent>, f: EffectId,
                        blobs: Blobs, log: seq<Invocation>, call: Call)
    requires OnlyMoves(before, after, f) && before[f].state != Succeeded
    requires CallSound(digest, before, blobs, log, call) && Owned(call.stage) != Some(f)
    ensures CallSound(digest, after, blobs, log, call)
  {
    if call.stage.Resolving? && call.stage.row.state == Succeeded {
      var e :| e in before && before[e] == call.stage.row;
      assert after[e] == before[e];
    }
  }
}
