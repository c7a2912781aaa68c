/**
 Security frontiers (crates/epoch-supervisor/src/recovery.rs): counts of what the capability authority and the effect
 gateway have recorded for a branch, and why they only grow.
 */
module Frontiers {
  import opened Wrappers
  import opened Capabilities
  import opened AuthorityInvariant
  import opened AuthorityRuns
  import opened Effects
  import opened EffectProtocol
  import opened EffectInvariant
  import opened EffectSteps
  import opened EffectTheorems

  // ---------------------------------------------------------------- the counts

  function CapabilitiesAt(a: Authority, at: BranchKey): set<CapabilityId> {
    set x | x in a.capabilities && a.capabilities[x].scope.at == at
  }

  function DecisionsAt(log: seq<DecisionRow>, at: BranchKey): nat {
    if log == [] then 0
    else DecisionsAt(log[..|log| - 1], at) + (if log[|log| - 1].request.scope.at == at then 1 else 0)
  }

  /** The join of `effect_transition_history` with the intents of the branch. */
  function TransitionsAt(l: Ledger, at: BranchKey): set<At> {
    set t | t in l.transitions && t.effect in l.intents && l.intents[t.effect].request.at == at
  }

  datatype Frontier = Frontier(capabilities: nat, effects: nat)

  /** `security_frontiers` */
  function Current(l: Ledger, at: BranchKey): Frontier {
    Frontier(|CapabilitiesAt(l.authority, at)| + DecisionsAt(l.authority.decisions, at), |TransitionsAt(l, at)|)
  }

  // ---------------------------------------------------------------- tables only grow

  ghost predicate AuthorityGrows(a: Authority, b: Authority) {
    && (forall x {:trigger x in a.capabilities} {:trigger b.capabilities[x]} :: x in a.capabilities ==>
          x in b.capabilities && b.capabilities[x].scope == a.capabilities[x].scope)
    && a.decisions <= b.decisions
  }

  ghost predicate HistoryGrows(l: Ledger, m: Ledger) {
    && l.transitions.Keys <= m.transitions.Keys
    && (forall e {:trigger e in l.intents} {:trigger m.intents[e]} :: e in l.intents ==>
       e in m.intents && m.intents[e].request == l.intents[e].request)
  }

  ghost predicate Grows(l: Ledger, m: Ledger) {
    AuthorityGrows(l.authority, m.authority) && HistoryGrows(l, m)
  }

  lemma UseGrowsDecisions(a: Authority, hash: Hash, u: CapabilityUse, clock: int)
    requires AuthorizeInTransaction(a, hash, u, clock).Ok?
    ensures a.decisions <= AuthorizeInTransaction(a, hash, u, clock).value.0.decisions
  {
    hide Evaluate, ValidUse, Lapse, ConsumeAll;
  }

  lemma CommitGrowsDecisions(a: Authority, op: Operation)
    ensures a.decisions <= Commit(a, op).decisions
  {
    hide AuthorizeInTransaction, ValidateIssue, ValidateAttenuation;
    if op.OpUse? && Transact(a, op).Ok? {
      UseGrowsDecisions(a, op.hash, op.use, op.clock);
    }
  }

  lemma CommitGrows(a: Authority, op: Operation)
    requires Valid(a)
    ensures AuthorityGrows(a, Commit(a, op))
  {
    hide Valid, Commit;
    CommitAges(a, op);
    CommitGrowsDecisions(a, op);
  }

  lemma UseGrows(a: Authority, hash: Hash, u: CapabilityUse, clock: int)
    requires Valid(a) && AuthorizeInTransaction(a, hash, u, clock).Ok?
    ensures AuthorityGrows(a, AuthorizeInTransaction(a, hash, u, clock).value.0)
  {
    hide Valid, AuthorizeInTransaction, UseEffect;
    UseHasEffect(a, hash, u, clock);
    EffectAges(a.capabilities, u.budgetUnits, clock, AuthorizeInTransaction(a, hash, u, clock).value.0.capabilities);
    UseGrowsDecisions(a, hash, u, clock);
  }

  lemma PersistGrows(l: Ledger, z: Authorizer, intent: CanonicalIntent, effect: EffectId, row: BlobRow, clock: int)
    requires Valid(l.authority) && AuthorizeAndPersist(l, z, intent, effect, row, clock).Ok?
    ensures Grows(l, AuthorizeAndPersist(l, z, intent, effect, row, clock).value.0)
  {
    hide Valid, AuthorizeInTransaction, Find;
    if AuthorizeInTransaction(l.authority, z.handleHash, UseFor(z, intent), clock).Ok? {
      UseGrows(l.authority, z.handleHash, UseFor(z, intent), clock);
    }
  }

  lemma ResolveGrows(l: Ledger, e: EffectId, r: Resolution)
    requires Resolve(l, e, r).Ok?
    ensures Grows(l, Resolve(l, e, r).value)
  {
  }

  lemma DispatchGrows(l: Ledger, e: EffectId)
    requires MarkDispatched(l, e).Ok?
    ensures Grows(l, MarkDispatched(l, e).value)
  {
  }

  lemma UnknownGrows(l: Ledger, e: EffectId)
    requires MarkUnknown(l, e).Ok?
    ensures Grows(l, MarkUnknown(l, e).value)
  {
    ResolveGrows(l, e, ToUnknown);
    hide Resolve, AuthorityGrows;
  }

  lemma ResultGrows(l: Ledger, e: EffectId, hash: Hash, row: BlobRow)
    requires CommitResult(l, e, hash, row).Ok?
    ensures Grows(l, CommitResult(l, e, hash, row).value)
  {
    ResolveGrows(l.(blobRows := RegisterBlob(l.blobRows, hash, row).value), e, ToSucceeded(hash));
    hide Resolve, AuthorityGrows;
  }

  lemma TransactionsGrow(l: Ledger, e: EffectId, hash: Hash, row: BlobRow)
    ensures MarkDispatched(l, e).Ok? ==> Grows(l, MarkDispatched(l, e).value)
    ensures MarkFailed(l, e).Ok? ==> Grows(l, MarkFailed(l, e).value)
    ensures MarkUnknown(l, e).Ok? ==> Grows(l, MarkUnknown(l, e).value)
    ensures CommitResult(l, e, hash, row).Ok? ==> Grows(l, CommitResult(l, e, hash, row).value)
  {
    hide MarkDispatched, MarkUnknown, CommitResult, Grows, Resolve;
    if MarkDispatched(l, e).Ok? { DispatchGrows(l, e); }
    if MarkFailed(l, e).Ok? { ResolveGrows(l, e, ToFailed); }
    if MarkUnknown(l, e).Ok? { UnknownGrows(l, e); }
    if CommitResult(l, e, hash, row).Ok? { ResultGrows(l, e, hash, row); }
  }

  lemma AdvanceGrows(digest: Bytes -> Hash, s: System, c: Caller, choice: Choice)
    requires Valid(s.ledger.authority) && c in s.calls
    ensures Grows(s.ledger, Advance(digest, s, c, choice).ledger)
  {
    var call, l := s.calls[c], s.ledger;
    hide Valid;
    match call.stage
    case Persisting =>
      var row := BlobRow(|call.intent.input|, INPUT_MEDIA_TYPE);
      hide AuthorizeAndPersist, Grows;
      SelfGrows(l);
      if AuthorizeAndPersist(l, call.authorizer, call.intent, choice.effect, row, choice.clock).Ok? {
        PersistGrows(l, call.authorizer, call.intent, choice.effect, row, choice.clock);
      }
    case _ => TransactionAdvanceGrows(digest, s, c, choice);
  }

  lemma SelfGrows(l: Ledger)
    ensures Grows(l, l)
  {
  }

  lemma TransactionAdvanceGrows(digest: Bytes -> Hash, s: System, c: Caller, choice: Choice)
    requires c in s.calls && !s.calls[c].stage.Persisting?
    ensures Grows(s.ledger, Advance(digest, s, c, choice).ledger)
  {
    var stage, l := s.calls[c].stage, s.ledger;
    SelfGrows(l);
    hide Grows, MarkDispatched, MarkFailed, MarkUnknown, CommitResult, Find, Put, ResolveExisting, AuthorizeAndPersist;
    if stage.ResultStored? {
      TransactionsGrow(l, stage.effect, digest(stage.bytes), BlobRow(|stage.bytes|, stage.mediaType));
    } else if Owned(stage).Some? {
      TransactionsGrow(l, stage.effect, "", BlobRow(0, ""));
    }
  }

  lemma AuthorityStays(a: Authority)
    ensures AuthorityGrows(a, a)
  {
  }

  lemma StepGrows(digest: Bytes -> Hash, s: System, event: Event)
    requires Inv(digest, s)
    ensures Grows(s.ledger, Step(digest, s, event).ledger)
  {
    assert Valid(s.ledger.authority);
    hide Inv, Valid;
    if event.Proceed? && event.caller in s.calls {
      hide Advance, Grows;
      AdvanceGrows(digest, s, event.caller, event.choice);
    } else {
      hide Advance, Commit, AuthorityGrows;
      AuthorityStays(s.ledger.authority);
      if event.Outside? { CommitGrows(s.ledger.authority, event.op); }
    }
  }

  lemma GrowsTransitive(l: Ledger, m: Ledger, n: Ledger)
    requires Grows(l, m) && Grows(m, n)
    ensures Grows(l, n)
  {
  }

  // ---------------------------------------------------------------- growth and counts

  lemma SubsetCounts<T>(a: set<T>, b: set<T>)
    requires a <= b
    ensures |a| <= |b| && (|a| == |b| ==> a == b)
  {
    assert b == a + (b - a);
  }

  /** A decision was recorded in the scope after the first `n`. */
  ghost predicate DecidedSince(log: seq<DecisionRow>, n: nat, at: BranchKey) {
    exists i :: n <= i < |log| && log[i].request.scope.at == at
  }

  lemma {:induction false} DecisionsCount(log: seq<DecisionRow>, n: nat, at: BranchKey)
    requires n <= |log|
    ensures DecisionsAt(log[..n], at) <= DecisionsAt(log, at)
    ensures DecisionsAt(log[..n], at) < DecisionsAt(log, at) <==> DecidedSince(log, n, at)
    decreases |log|
  {
    if n == |log| {
      assert log[..n] == log;
    } else {
      var before := log[..|log| - 1];
      assert before[..n] == log[..n];
      DecisionsCount(before, n, at);
      assert DecidedSince(log, n, at) <==> DecidedSince(before, n, at) || log[|log| - 1].request.scope.at == at by {
        if DecidedSince(before, n, at) {
          var i :| n <= i < |before| && before[i].request.scope.at == at;
          assert log[i] == before[i];
        }
        if log[|log| - 1].request.scope.at == at { assert log[|log| - 1].request.scope.at == at; }
        if DecidedSince(log, n, at) {
          var i :| n <= i < |log| && log[i].request.scope.at == at;
          assert i < |log| - 1 ==> before[i] == log[i];
        }
      }
    }
  }

  /** A capability was issued, or a decision recorded, in the scope between two states. */
  ghost predicate AuthorityRecorded(a: Authority, b: Authority, at: BranchKey) {
    || (exists x :: x in b.capabilities && b.capabilities[x].scope.at == at && x !in a.capabilities)
    || DecidedSince(b.decisions, |a.decisions|, at)
  }

  /** An effect transition was recorded in the scope between two states. */
  ghost predicate EffectRecorded(l: Ledger, m: Ledger, at: BranchKey) {
    exists t :: t in m.transitions && t.effect in m.intents && m.intents[t.effect].request.at == at
             && !(t in l.transitions && t.effect in l.intents)
  }

  lemma CapabilityFrontierIsExact(a: Authority, b: Authority, at: BranchKey)
    requires AuthorityGrows(a, b)
    ensures var before := |CapabilitiesAt(a, at)| + DecisionsAt(a.decisions, at);
      var after := |CapabilitiesAt(b, at)| + DecisionsAt(b.decisions, at);
      before <= after && (before < after <==> AuthorityRecorded(a, b, at))
  {
    var x, y := CapabilitiesAt(a, at), CapabilitiesAt(b, at);
    assert x <= y;
    SubsetCounts(x, y);
    assert b.decisions[..|a.decisions|] == a.decisions;
    DecisionsCount(b.decisions, |a.decisions|, at);
    hide DecidedSince, DecisionsAt;
    if c :| c in b.capabilities && b.capabilities[c].scope.at == at && c !in a.capabilities {
      assert c in y && c !in x;
    }
    if x != y {
      var c :| c in y && c !in x;
      assert c !in a.capabilities;
    }
  }

  lemma EffectFrontierIsExact(l: Ledger, m: Ledger, at: BranchKey)
    requires HistoryGrows(l, m)
    ensures |TransitionsAt(l, at)| <= |TransitionsAt(m, at)|
    ensures |TransitionsAt(l, at)| < |TransitionsAt(m, at)| <==> EffectRecorded(l, m, at)
  {
    var x, y := TransitionsAt(l, at), TransitionsAt(m, at);
    assert x <= y;
    SubsetCounts(x, y);
    if x != y {
      var t :| t in y && t !in x;
      assert t in m.transitions;
    }
    if EffectRecorded(l, m, at) {
      var t :| t in m.transitions && t.effect in m.intents && m.intents[t.effect].request.at == at
            && !(t in l.transitions && t.effect in l.intents);
      assert t in y && t !in x;
    }
  }

  /** Between two states of a run a frontier moves exactly when something was recorded in its scope. */
  lemma FrontierIsExact(l: Ledger, m: Ledger, at: BranchKey)
    requires Grows(l, m)
    ensures Current(l, at).capabilities <= Current(m, at).capabilities
    ensures Current(l, at).effects <= Current(m, at).effects
    ensures Current(l, at).capabilities < Current(m, at).capabilities <==>
        AuthorityRecorded(l.authority, m.authority, at)
    ensures Current(l, at).effects < Current(m, at).effects <==> EffectRecorded(l, m, at)
  {
    CapabilityFrontierIsExact(l.authority, m.authority, at);
    EffectFrontierIsExact(l, m, at);
  }

  /** Revoking only changes a row, so no frontier notices it, although authority was lost. */
  lemma RevocationIsNotSeen(l: Ledger, op: Operation, at: BranchKey)
    requires op.OpRevoke? || op.OpRevokeById?
    ensures Current(l.(authority := Commit(l.authority, op)), at) == Current(l, at)
  {
    var m := l.(authority := Commit(l.authority, op));
    assert m.authority.capabilities.Keys == l.authority.capabilities.Keys;
    assert CapabilitiesAt(m.authority, at) == CapabilitiesAt(l.authority, at);
    assert m.authority.decisions == l.authority.decisions;
    assert TransitionsAt(m, at) == TransitionsAt(l, at);
  }
}
