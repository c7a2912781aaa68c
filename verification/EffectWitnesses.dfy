/** Concrete runs of the gateway in which a denial, or an unknown outcome, goes unrecorded. */
module EffectWitnesses {
  import opened Wrappers
  import opened Capabilities
  import opened Delegation
  import opened AuthorityInvariant
  import opened AuthorityRuns
  import opened AuthorityWitnesses
  import opened Effects
  import opened EffectProtocol
  import opened EffectInvariant
  import opened EffectTheorems
  import opened EffectGateways
  import opened Frontiers

  /** An authority with one unlimited capability, as issued by its service. */
  ghost function Issued(branches: set<BranchKey>, at: BranchKey, id: CapabilityId, hash: Hash): Authority {
    Run(Empty(branches), [OpSetPolicy(at, 1, 0), OpIssue(GrantAt(at), id, hash, 0)])
  }

  function IntentAt(digest: Bytes -> Hash, at: BranchKey, input: Bytes): CanonicalIntent {
    CanonicalIntent(at, "k", "a", "r", 1, "o", input, digest(input))
  }

  function Holder(hash: Hash): Authorizer {
    Authorizer(hash, "u", 1)
  }

  function InputRow(input: Bytes): BlobRow {
    BlobRow(|input|, INPUT_MEDIA_TYPE)
  }

  lemma UseIsValid(digest: Bytes -> Hash, at: BranchKey, input: Bytes, hash: Hash)
    requires IsDigest(digest(input))
    ensures ValidUse(UseFor(Holder(hash), IntentAt(digest, at, input)))
  {
  }

  /** A first call on an empty ledger reaches the point of persisting, with its input stored. */
  lemma ReachesPersisting(digest: Bytes -> Hash, a: Authority, states: map<BranchKey, BranchState>,
                          intent: CanonicalIntent,
                          z: Authorizer, fault: Fault, choice: Choice)
    requires Valid(a) && intent.inputHash == digest(intent.input)
    ensures var l, log := Start(a, states).ledger, [];
      RunSystem(digest, Start(a, states), WholeCall(intent, z, fault, choice))
      == Drive(digest, Alone(l, map[digest(intent.input) := intent.input], log, intent, z, fault, Persisting), choice,
        5)
  {
    var l := Start(a, states).ledger;
    var s := Alone(l, map[], [], intent, z, fault, Finding);
    StartInv(digest, a, states);
    WholeCallRuns(digest, Start(a, states), intent, z, fault, choice);
    hide Inv, Valid, RunSystem, WholeCall, Drive, Next;
    NextFinding(digest, s, choice);
    DriveNext(digest, s, choice, 7);
    var t := Alone(l, map[], [], intent, z, fault, Storing);
    NextStoring(digest, t, choice);
    DriveNext(digest, t, choice, 6);
    assert map[][digest(intent.input) := intent.input] == map[digest(intent.input) := intent.input];
  }

  // ---------------------------------------------------------------- a denial that is not recorded

  /** A capability of another branch is refused by its binding. */
  lemma ForeignUseIsDenied(digest: Bytes -> Hash, home: BranchKey, away: BranchKey, id: CapabilityId, hash: Hash,
                           input: Bytes, clock: int)
    requires home != away && IsDigest(digest(input)) && 0 <= clock
    ensures var r := AuthorizeInTransaction(SoleGrant({home, away}, home, id, hash), hash,
        UseFor(Holder(hash), IntentAt(digest, away, input)), clock);
      r.Ok? && r.value.1.reason in {SessionMismatch, BranchMismatch}
  {
    UseIsValid(digest, away, input, hash);
    hide ValidUse, LoadAncestors, Lapse;
  }

  /**
   A capability is issued in one branch and its handle submitted with an intent of another. The authorizer denies, the
   call fails in the database, and no table changed: neither an effect nor a decision was recorded.
   */
  lemma ForeignDenialIsUndone(digest: Bytes -> Hash, home: BranchKey, away: BranchKey, id: CapabilityId, hash: Hash,
                              states: map<BranchKey, BranchState>, input: Bytes, choice: Choice)
    requires home != away && IsDigest(digest(input)) && 0 <= choice.clock
    ensures var a := Issued({home, away}, home, id, hash);
      var intent, z := IntentAt(digest, away, input), Holder(hash);
      var r := AuthorizeInTransaction(a, hash, UseFor(z, intent), choice.clock);
      var t := RunSystem(digest, Start(a, states), WholeCall(intent, z, NoFault, choice));
      && r.Ok? && r.value.1.reason in {SessionMismatch, BranchMismatch}
      && t.ledger == Start(a, states).ledger
      && SOLE in t.calls && t.calls[SOLE].stage == Returned(Err(GatewayDatabase))
  {
    var a, intent, z := SoleGrant({home, away}, home, id, hash), IntentAt(digest, away, input), Holder(hash);
    var l, blobs := Start(a, states).ledger, map[digest(input) := input];
    SoleGrantReached({home, away}, home, id, hash);
    ForeignUseIsDenied(digest, home, away, id, hash, input, choice.clock);
    ForeignIntentIsRefused(digest, home, away, id, hash, states, input, choice);
    hide Valid, AuthorizeInTransaction, AuthorizeAndPersist, Drive, Next, RunSystem, WholeCall, UseFor, Run, SoleGrant;
    ReachesPersisting(digest, a, states, intent, z, NoFault, choice);
    hide Start;
    var s := Alone(l, blobs, [], intent, z, NoFault, Persisting);
    NextPersisting(digest, s, choice);
    DriveNext(digest, s, choice, 5);
    DriveSettles(digest, Next(digest, s, choice), choice, 4);
  }

  lemma ForeignIntentIsRefused(digest: Bytes -> Hash, home: BranchKey, away: BranchKey, id: CapabilityId, hash: Hash,
                               states: map<BranchKey, BranchState>, input: Bytes, choice: Choice)
    requires home != away && IsDigest(digest(input)) && 0 <= choice.clock
    ensures var l := Start(SoleGrant({home, away}, home, id, hash), states).ledger;
      AuthorizeAndPersist(l, Holder(hash), IntentAt(digest, away, input), choice.effect, InputRow(input), choice.clock)
      == Err(GatewayDatabase)
  {
    var a, intent := SoleGrant({home, away}, home, id, hash), IntentAt(digest, away, input);
    var l := Start(a, states).ledger;
    ForeignUseIsDenied(digest, home, away, id, hash, input, choice.clock);
    assert Named(a, hash) == Some(id) && Insertable(l, a, choice.effect, intent, None);
    assert Find(l, intent.operation).None?;
    hide AuthorizeInTransaction, AuthorizeAndPersist, Find, UseFor, Insertable;
    DenialRecordedExactlyWhen(l, Holder(hash), intent, choice.effect, InputRow(input), choice.clock);
  }

  // ---------------------------------------------------------------- an unknown outcome that is not recorded

  lemma HomeUseIsEntitled(digest: Bytes -> Hash, home: BranchKey, id: CapabilityId, hash: Hash, input: Bytes,
                          clock: int)
    ensures Entitled(SoleGrant({home}, home, id, hash), id, UseFor(Holder(hash), IntentAt(digest, home, input)), clock)
  {
    OwnChain(SoleGrant({home}, home, id, hash), id);
  }

  lemma HomeUseIsAllowed(digest: Bytes -> Hash, home: BranchKey, id: CapabilityId, hash: Hash, input: Bytes, clock: int)
    requires IsDigest(digest(input)) && 0 <= clock
    ensures var a, u := SoleGrant({home}, home, id, hash), UseFor(Holder(hash), IntentAt(digest, home, input));
      var r := AuthorizeInTransaction(a, hash, u, clock);
      && r.Ok? && r.value.1 == Decision(Allowed, Some(id)) && r.value.0.branches == {home}
      && id in r.value.0.capabilities && r.value.0.capabilities[id].scope.at == home
  {
    var a, u := SoleGrant({home}, home, id, hash), UseFor(Holder(hash), IntentAt(digest, home, input));
    hide Valid, Entitled, ValidUse, Run, Evaluate, LoadAncestors, ConsumeAll, UseFor, Lapse, AuthorizeInTransaction;
    SoleGrantReached({home}, home, id, hash);
    UseIsValid(digest, home, input, hash);
    HomeUseIsEntitled(digest, home, id, hash, input, clock);
    AllowedExactlyWhenEntitled(a, id, u, clock);
    OwnChain(a, id);
    AllowedUse(a, id, hash, u, clock);
    UseGrows(a, hash, u, clock);
    AllowedDecision(a, id, hash, u, clock);
  }

  lemma AllowedDecision(a: Authority, id: CapabilityId, hash: Hash, u: CapabilityUse, clock: int)
    requires ValidUse(u) && 0 <= clock && hash in a.handles && a.handles[hash] == id && id in a.capabilities
    requires Evaluate(a, id, u, clock).Allow?
    ensures var r := AuthorizeInTransaction(a, hash, u, clock);
      r.Ok? ==> r.value.1 == Decision(Allowed, Some(id)) && r.value.0.branches == a.branches
  {
    hide ValidUse, Evaluate, ConsumeAll, LoadAncestors;
  }

  lemma OwnChain(a: Authority, id: CapabilityId)
    requires a.capabilities.Keys == {id} && a.capabilities[id].parent.None?
    ensures Chain(ParentsOf(a.capabilities), id) == [id]
  {
  }

  /** The ledger once the intent is persisted. */
  lemma HomeIntentIsFresh(digest: Bytes -> Hash, home: BranchKey, id: CapabilityId, hash: Hash,
                          states: map<BranchKey, BranchState>, input: Bytes, effect: EffectId, clock: int)
    requires IsDigest(digest(input)) && 0 <= clock
    ensures var l := Start(SoleGrant({home}, home, id, hash), states).ledger;
      var r := AuthorizeAndPersist(l, Holder(hash), IntentAt(digest, home, input), effect, InputRow(input), clock);
      && r.Ok? && r.value.1 == Fresh(effect) && effect in r.value.0.intents
      && r.value.0.intents[effect].state == Prepared && r.value.0.intents[effect].request.at == home
      && r.value.0.transitions.Keys == {At(effect, 0), At(effect, 1)} && r.value.0.branchStates == states
      && r.value.0.attempts == map[] && r.value.0.attemptTransitions == map[]
  {
    var l, intent := Start(SoleGrant({home}, home, id, hash), states).ledger, IntentAt(digest, home, input);
    HomeUseIsAllowed(digest, home, id, hash, input, clock);
    assert Find(l, intent.operation).None?;
    hide AuthorizeInTransaction, Find, UseFor;
  }

  /** Marking it dispatched works; marking it unknown afterwards does not, in a branch that cannot be suspended. */
  lemma UnknownIsRefused(l: Ledger, effect: EffectId, at: BranchKey)
    requires effect in l.intents && l.intents[effect].state == Prepared && l.intents[effect].request.at == at
    requires l.transitions.Keys == {At(effect, 0), At(effect, 1)} && l.attempts == map[]
        && l.attemptTransitions == map[]
    requires at !in l.branchStates || !Suspendable(l.branchStates[at])
    ensures MarkDispatched(l, effect).Ok?
    ensures var m := MarkDispatched(l, effect).value;
      effect in m.intents && m.intents[effect].state == Dispatched && MarkUnknown(m, effect) == Err(InvalidStoredValue)
  {
  }

  /**
   In an abandoned branch a call stops between the dispatched mark and the dispatcher. The unknown mark is refused, so
   the effect stays dispatched, with an outcome nobody recorded.
   */
  lemma UnknownGoesUnrecorded(digest: Bytes -> Hash, home: BranchKey, id: CapabilityId, hash: Hash, input: Bytes,
                              choice: Choice)
    requires IsDigest(digest(input)) && 0 <= choice.clock
    ensures var a := Issued({home}, home, id, hash);
      var events := WholeCall(IntentAt(digest, home, input), Holder(hash), AfterDispatchedBeforeInvoke, choice);
      var t := RunSystem(digest, Start(a, map[home := Abandoned]), events);
      && SOLE in t.calls && t.calls[SOLE].stage == Returned(Err(InvalidStoredValue))
      && choice.effect in t.ledger.intents && t.ledger.intents[choice.effect].state == Dispatched
      && t.ledger.branchStates == map[home := Abandoned] && t.invocations == []
  {
    var a, states, e := SoleGrant({home}, home, id, hash), map[home := Abandoned], choice.effect;
    var intent, z, fault := IntentAt(digest, home, input), Holder(hash), AfterDispatchedBeforeInvoke;
    SoleGrantReached({home}, home, id, hash);
    HomeIntentIsFresh(digest, home, id, hash, states, input, e, choice.clock);
    var persisted := AuthorizeAndPersist(Start(a, states).ledger, z, intent, e, InputRow(input), choice.clock).value.0;
    UnknownIsRefused(persisted, e, home);
    hide Valid, AuthorizeAndPersist, Drive, Next, RunSystem, WholeCall, Run, MarkUnknown, SoleGrant;
    var marked := MarkDispatched(persisted, e).value;
    assert marked.branchStates == states;
    hide MarkDispatched;
    ReachesPersisting(digest, a, states, intent, z, fault, choice);
    hide Start;
    DriveToRefusal(digest, Start(a, states).ledger, persisted, marked, map[digest(input) := input], intent, z, choice);
  }

  lemma DriveToRefusal(digest: Bytes -> Hash, l: Ledger, persisted: Ledger, marked: Ledger, blobs: Blobs,
                       intent: CanonicalIntent,
                       z: Authorizer, choice: Choice)
    requires AuthorizeAndPersist(l, z, intent, choice.effect, InputRow(intent.input), choice.clock)
        == Ok((persisted, Fresh(choice.effect)))
    requires MarkDispatched(persisted, choice.effect) == Ok(marked)
        && MarkUnknown(marked, choice.effect) == Err(InvalidStoredValue)
    ensures Drive(digest, Alone(l, blobs, [], intent, z, AfterDispatchedBeforeInvoke, Persisting), choice, 5)
         == Alone(marked, blobs, [], intent, z, AfterDispatchedBeforeInvoke, Returned(Err(InvalidStoredValue)))
  {
    var fault, e := AfterDispatchedBeforeInvoke, choice.effect;
    hide AuthorizeAndPersist, MarkDispatched, MarkUnknown, Drive, Next;
    var s0 := Alone(l, blobs, [], intent, z, fault, Persisting);
    var s1 := Alone(persisted, blobs, [], intent, z, fault, Ready(e));
    var s2 := Alone(marked, blobs, [], intent, z, fault, Marked(e));
    NextPersisting(digest, s0, choice);
    DriveNext(digest, s0, choice, 5);
    NextReady(digest, s1, choice);
    DriveNext(digest, s1, choice, 4);
    NextMarked(digest, s2, choice);
    DriveNext(digest, s2, choice, 3);
    DriveSettles(digest, Next(digest, s2, choice), choice, 2);
  }
}
