/** Theorems about whole runs of the capability authority. */
module AuthorityRuns {
  import opened Wrappers
  import opened Capabilities
  import opened Delegation
  import opened AuthorityInvariant

  // ---------------------------------------------------------------- every step keeps the invariant

  lemma MarkLapsedKeepsValid(a: Authority, x: CapabilityId, now: int)
    requires Valid(a) && x in a.capabilities && Lapse(a.capabilities[x], now).Some?
    ensures Lapse(a.capabilities[x], now).value == Consumed ==> a.capabilities[x].status == Consumed
    ensures Mark(a, x, Lapse(a.capabilities[x], now).value, now).Ok? ==>
      Valid(Mark(a, x, Lapse(a.capabilities[x], now).value, now).value)
  {
    var c := a.capabilities[x];
    assert SaneRow(a.policies, c);
    if c.status == Active && c.issuedAt <= now {
      MarkKeepsValid(a, x, Expired, a.capabilities[x := c.(status := Expired)]);
    }
  }

  lemma RevokeKeepsValid(a: Authority, x: CapabilityId, clock: int)
    requires Valid(a) && x in a.capabilities && RevokeRow(a, x, clock).Ok?
    ensures Valid(RevokeRow(a, x, clock).value)
  {
    var c := a.capabilities[x];
    if c.status == Active {
      MarkKeepsValid(a, x, Revoked, a.capabilities[x := c.(status := Revoked)]);
    }
  }

  lemma IssueKeepsValid(a: Authority, request: IssueRequest, id: CapabilityId, hash: Hash, clock: int)
    requires Valid(a) && Issue(a, request, id, hash, clock).Ok?
    ensures Valid(Issue(a, request, id, hash, clock).value)
  {
    InsertKeepsValid(a, id, hash, NewCapability(request, None, clock));
  }

  /** Narrower than what remains is narrower than what was granted. */
  lemma NarrowerThanRemaining(a: Authority, x: CapabilityId)
    requires Valid(a) && x in a.capabilities
    ensures Narrows(a.capabilities[x].remainingUses, a.capabilities[x].maxUses)
    ensures Narrows(a.capabilities[x].remainingBudget, a.capabilities[x].budget)
  {
    assert ConservesRow(ParentsOf(a.capabilities), a.capabilities, a.authorizations, x);
    SpentNonnegative(ParentsOf(a.capabilities), a.authorizations, x);
  }

  lemma {:induction false} SpentNonnegative(p: Parents, log: seq<Authorization>, x: CapabilityId)
    requires forall r :: r in log ==> r.budgetUnits >= 1
    ensures SpentBelow(p, log, x) >= 0
  {
    if log != [] {
      SpentNonnegative(p, log[..|log| - 1], x);
    }
  }

  lemma AttenuateKeepsValid(a: Authority, parentHash: Hash, request: IssueRequest, id: CapabilityId, hash: Hash,
                            clock: int)
    requires Valid(a) && Attenuate(a, parentHash, request, id, hash, clock).Ok?
    ensures Valid(Attenuate(a, parentHash, request, id, hash, clock).value)
  {
    hide LoadAncestors, Conserves, Logged, AncestryAgrees, Narrowing;
    var parent := a.handles[parentHash];
    assert ValidateAttenuation(a, parent, request, clock).Ok?;
    NarrowerThanRemaining(a, parent);
    InsertKeepsValid(a, id, hash, NewCapability(request, Some(parent), clock));
  }

  /** What one allowed use does: the whole chain is charged, one row is added to each history. */
  lemma AllowedUse(a: Authority, id: CapabilityId, hash: Hash, u: CapabilityUse, clock: int)
    requires Valid(a) && ValidUse(u) && 0 <= clock
    requires hash in a.handles && a.handles[hash] == id && id in a.capabilities && Evaluate(a, id, u, clock).Allow?
    ensures var chain := Chain(ParentsOf(a.capabilities), id);
      var r := AuthorizeInTransaction(a, hash, u, clock);
      && (r.Ok? <==> forall x :: x in chain ==> a.capabilities[x].issuedAt <= clock)
      && (r.Err? ==> r.error == Database)
      && (r.Ok? ==> ChargedAlong(a.capabilities, chain, u.budgetUnits, r.value.0.capabilities) && Valid(r.value.0))
  {
    hide Valid, Evaluate, LoadAncestors, Chargeable, ChargedAlong, ConsumeAll, Distinct;
    EvaluateAllows(a, id, u, clock);
    var chain := Chain(ParentsOf(a.capabilities), id);
    ChainDistinct(ParentsOf(a.capabilities), id);
    ConsumeAllCharges(a.capabilities, chain, a.capabilities, u.budgetUnits, clock);
    var charged := ConsumeAll(a.capabilities, chain, a.capabilities, u.budgetUnits, clock);
    if charged.Ok? {
      var row := Authorization(id, u.requestId, u.requestHash, u.budgetUnits, clock);
      ChargeKeepsValid(a, charged.value, row, DecisionRow(Some(id), hash, u, Allowed, clock));
    }
  }

  lemma DeniedUseKeepsValid(a: Authority, id: CapabilityId, hash: Hash, u: CapabilityUse, clock: int)
    requires Valid(a) && ValidUse(u) && 0 <= clock
    requires hash in a.handles && a.handles[hash] == id && id in a.capabilities && Evaluate(a, id, u, clock).Deny?
    ensures AuthorizeInTransaction(a, hash, u, clock).Ok? ==> Valid(AuthorizeInTransaction(a, hash, u, clock).value.0)
  {
    hide Valid, Evaluate, ValidUse;
    var e := Evaluate(a, id, u, clock);
    var d := DecisionRow(Some(id), hash, u, e.reason, clock);
    if e.lapsed.None? || Lapse(a.capabilities[e.lapsed.value], clock).None? {
      RecordKeepsValid(a, d);
    } else {
      MarkLapsedKeepsValid(a, e.lapsed.value, clock);
      var marked := Mark(a, e.lapsed.value, Lapse(a.capabilities[e.lapsed.value], clock).value, clock);
      if marked.Ok? {
        RecordKeepsValid(marked.value, d);
      }
    }
  }

  /** The only row a refused use may change is one active row whose expiry has come, which is marked expired. */
  ghost predicate MarkedAtMostOne(caps: Rows, caps': Rows, now: int) {
    caps' == caps || exists x :: Barred(caps, x, Expired, caps') && caps[x].expiresAt.value <= now
  }

  lemma DeniedUseMarks(a: Authority, id: CapabilityId, hash: Hash, u: CapabilityUse, clock: int)
    requires Valid(a) && id in a.capabilities && Evaluate(a, id, u, clock).Deny?
    requires hash in a.handles && a.handles[hash] == id && AuthorizeInTransaction(a, hash, u, clock).Ok?
    ensures MarkedAtMostOne(a.capabilities, AuthorizeInTransaction(a, hash, u, clock).value.0.capabilities, clock)
    ensures AuthorizeInTransaction(a, hash, u, clock).value.1.reason == Evaluate(a, id, u, clock).reason
  {
    hide Evaluate, LoadAncestors, ValidUse;
    var e := Evaluate(a, id, u, clock);
    if e.lapsed.Some? && Lapse(a.capabilities[e.lapsed.value], clock).Some? {
      var x := e.lapsed.value;
      MarkLapsedKeepsValid(a, x, clock);
      assert SaneRow(a.policies, a.capabilities[x]);
      if a.capabilities[x].status == Active {
        assert Barred(a.capabilities, x, Expired, a.capabilities[x := a.capabilities[x].(status := Expired)]);
      }
    }
  }

  lemma UseKeepsValid(a: Authority, hash: Hash, u: CapabilityUse, clock: int)
    requires Valid(a) && AuthorizeInTransaction(a, hash, u, clock).Ok?
    ensures Valid(AuthorizeInTransaction(a, hash, u, clock).value.0)
  {
    hide Valid, Evaluate, ValidUse;
    if hash !in a.handles || a.handles[hash] !in a.capabilities {
      RecordKeepsValid(a, DecisionRow(None, hash, u, UnknownHandle, clock));
    } else if Evaluate(a, a.handles[hash], u, clock).Allow? {
      AllowedUse(a, a.handles[hash], hash, u, clock);
    } else {
      DeniedUseKeepsValid(a, a.handles[hash], hash, u, clock);
    }
  }

  lemma CommitKeepsValid(a: Authority, op: Operation)
    requires Valid(a)
    ensures Valid(Commit(a, op))
  {
    hide Valid, AuthorizeInTransaction, Issue, Attenuate, SetPolicyRevision, RevokeRow;
    if Transact(a, op).Ok? {
      match op
      case OpSetPolicy(at, revision, clock) => PolicyKeepsValid(a, at, revision, clock);
      case OpIssue(request, id, hash, clock) => IssueKeepsValid(a, request, id, hash, clock);
      case OpAttenuate(parentHash, request, id, hash, clock) =>
        AttenuateKeepsValid(a, parentHash, request, id, hash, clock);
      case OpRevoke(hash, clock) => RevokeKeepsValid(a, a.handles[hash], clock);
      case OpRevokeById(id, clock) => RevokeKeepsValid(a, id, clock);
      case OpUse(hash, u, clock) => UseKeepsValid(a, hash, u, clock);
    }
  }

  lemma {:induction false} RunKeepsValid(a: Authority, ops: seq<Operation>)
    requires Valid(a)
    ensures Valid(Run(a, ops))
  {
    if ops != [] {
      RunKeepsValid(a, ops[..|ops| - 1]);
      CommitKeepsValid(Run(a, ops[..|ops| - 1]), ops[|ops| - 1]);
    }
  }

  // ---------------------------------------------------------------- conservation over every run

  /**
   In every reachable state each grant equals what remains of it plus what its whole subtree was authorized to
   spend; hence no pattern of delegation spends more than any ancestor was granted.
   */
  lemma GrantsAreConserved(branches: set<BranchKey>, ops: seq<Operation>, x: CapabilityId)
    requires x in Run(Empty(branches), ops).capabilities
    ensures var a := Run(Empty(branches), ops);
      var c, p := a.capabilities[x], ParentsOf(a.capabilities);
      && (c.budget.Some? ==>
          && c.remainingBudget.Some? && 0 <= c.remainingBudget.value
          && c.budget.value == c.remainingBudget.value + SpentBelow(p, a.authorizations, x)
          && SpentBelow(p, a.authorizations, x) <= c.budget.value)
      && (c.maxUses.Some? ==>
          && c.remainingUses.Some? && 0 <= c.remainingUses.value
          && c.maxUses.value == c.remainingUses.value + UsesBelow(p, a.authorizations, x)
          && UsesBelow(p, a.authorizations, x) <= c.maxUses.value)
  {
    EmptyValid(branches);
    RunKeepsValid(Empty(branches), ops);
    var a := Run(Empty(branches), ops);
    assert ConservesRow(ParentsOf(a.capabilities), a.capabilities, a.authorizations, x);
    assert SaneRow(a.policies, a.capabilities[x]);
  }

  /** The audit log and the authorization table tell the same story after any run. */
  lemma AllowsAreAuthorizations(branches: set<BranchKey>, ops: seq<Operation>)
    ensures GrantedBy(Run(Empty(branches), ops).decisions) == Run(Empty(branches), ops).authorizations
  {
    EmptyValid(branches);
    RunKeepsValid(Empty(branches), ops);
  }

  /**
   A child's remaining budget is within its parent's exactly while the rest of the parent's subtree has not spent
   more than the slack left at delegation. (`SiblingSpends` in `AuthorityWitnesses` shows the failing side.)
   */
  lemma ChildWithinParentExactlyWhen(a: Authority, x: CapabilityId)
    requires Valid(a) && x in a.capabilities && a.capabilities[x].parent.Some?
    ensures var y := a.capabilities[x].parent.value;
      && y in a.capabilities
      && var c, d, p := a.capabilities[x], a.capabilities[y], ParentsOf(a.capabilities);
      && (d.budget.Some? ==>
           && c.budget.Some? && c.remainingBudget.Some? && d.remainingBudget.Some?
           && (c.remainingBudget.value <= d.remainingBudget.value <==>
               SpentBelow(p, a.authorizations, y) - SpentBelow(p, a.authorizations,
                 x) <= d.budget.value - c.budget.value))
  {
    assert NarrowRow(a.capabilities, x);
    assert ConservesRow(ParentsOf(a.capabilities), a.capabilities, a.authorizations, x);
    assert ConservesRow(ParentsOf(a.capabilities), a.capabilities, a.authorizations, a.capabilities[x].parent.value);
  }

  // ---------------------------------------------------------------- no corruption is ever reported

  /** After any run the ancestry query yields the parent path, in order, to the root and without repeats. */
  lemma AncestryIsTheParentPath(branches: set<BranchKey>, ops: seq<Operation>, id: CapabilityId)
    requires id in Run(Empty(branches), ops).capabilities
    ensures var a := Run(Empty(branches), ops);
      IsParentPath(ParentsOf(a.capabilities), id, LoadAncestors(a, id))
  {
    EmptyValid(branches);
    RunKeepsValid(Empty(branches), ops);
    var a := Run(Empty(branches), ops);
    LoadAncestorsIsChain(a, id);
    ChainIsParentPath(ParentsOf(a.capabilities), id);
  }

  lemma NoCorruptEvaluation(a: Authority, id: CapabilityId, u: CapabilityUse, now: int)
    requires Valid(a) && id in a.capabilities
    ensures Evaluate(a, id, u, now).Deny? ==> Evaluate(a, id, u, now).reason != CorruptAuthority
  {
    hide LoadAncestors, Conserves, Logged, AncestryAgrees, Narrowing, Sane;
    LoadAncestorsIsChain(a, id);
  }

  lemma NoCorruptAttenuation(a: Authority, id: CapabilityId, request: IssueRequest, now: int)
    requires Valid(a) && id in a.capabilities
    ensures ValidateAttenuation(a, id, request, now) != Err(CorruptRecord)
    ensures ValidateAttenuation(a, id, request, now) != Err(ConcurrentAuthorityChange)
  {
    hide LoadAncestors, Conserves, Logged, AncestryAgrees, Narrowing, Sane;
    LoadAncestorsIsChain(a, id);
  }

  lemma NoCorruptUse(a: Authority, hash: Hash, u: CapabilityUse, clock: int)
    requires Valid(a)
    ensures var r := AuthorizeInTransaction(a, hash, u, clock);
      && (r.Err? ==> r.error in {InvalidField, InvalidClock, Database})
      && (r.Ok? ==> r.value.1.reason != CorruptAuthority)
  {
    hide Valid, Evaluate, Lapse, ValidUse, ChargedAlong;
    if ValidUse(u) && 0 <= clock && hash in a.handles && a.handles[hash] in a.capabilities {
      var id := a.handles[hash];
      if Evaluate(a, id, u, clock).Allow? {
        AllowedUse(a, id, hash, u, clock);
      } else {
        NoCorruptEvaluation(a, id, u, clock);
      }
    }
  }

  /** No run reports corruption or a concurrent change: those replies need a state that no run reaches. */
  lemma NoCorruptionReported(branches: set<BranchKey>, ops: seq<Operation>, op: Operation)
    ensures var r := Transact(Run(Empty(branches), ops), op);
      && r != Err(CorruptRecord) && r != Err(ConcurrentAuthorityChange)
      && (r.Ok? && r.value.1.Decided? ==> r.value.1.decision.reason != CorruptAuthority)
  {
    hide Valid, Transact, Run;
    EmptyValid(branches);
    RunKeepsValid(Empty(branches), ops);
    NoCorruptReply(Run(Empty(branches), ops), op);
  }

  lemma NoCorruptReply(a: Authority, op: Operation)
    requires Valid(a)
    ensures var r := Transact(a, op);
      && r != Err(CorruptRecord) && r != Err(ConcurrentAuthorityChange)
      && (r.Ok? && r.value.1.Decided? ==> r.value.1.decision.reason != CorruptAuthority)
  {
    hide Rooted, AncestryAgrees, Narrowing, Sane, Conserves, Logged, AuthorizeInTransaction, ValidateAttenuation;
    if op.OpAttenuate? {
      if op.parentHash in a.handles {
        NoCorruptAttenuation(a, a.handles[op.parentHash], op.request, op.clock);
      }
    } else if op.OpUse? {
      NoCorruptUse(a, op.hash, op.use, op.clock);
    }
  }

  // ---------------------------------------------------------------- when a use is allowed

  /** A row that bars nothing at time `now`: active, with something left of every counter, and not expired. */
  predicate Usable(c: Capability, now: int) {
    && c.status == Active
    && c.remainingUses != Some(0) && c.remainingBudget != Some(0)
    && (c.expiresAt.Some? ==> now < c.expiresAt.value)
  }

  /** The whole condition for a use of `id` to be allowed, free of the order in which the service checks it. */
  ghost predicate Entitled(a: Authority, id: CapabilityId, u: CapabilityUse, now: int)
    requires id in a.capabilities
  {
    && a.capabilities[id].scope == u.scope
    && (forall x :: x in Chain(ParentsOf(a.capabilities), id) ==>
          && x in a.capabilities && Usable(a.capabilities[x], now)
          && (a.capabilities[x].remainingBudget.Some? ==> u.budgetUnits <= a.capabilities[x].remainingBudget.value))
    && u.scope.at in a.policies
    && a.policies[u.scope.at] == a.capabilities[id].policyRevision == u.policyRevision
    && (forall i :: 0 <= i < |a.authorizations| && a.authorizations[i].capability == id ==>
          a.authorizations[i].requestId != u.requestId)
  }

  lemma AllowedExactlyWhenEntitled(a: Authority, id: CapabilityId, u: CapabilityUse, now: int)
    requires Valid(a) && id in a.capabilities
    ensures Evaluate(a, id, u, now).Allow? <==> Entitled(a, id, u, now)
  {
    hide Narrowing, Sane, Conserves, Logged, AncestryAgrees, LoadAncestors;
    LoadAncestorsIsChain(a, id);
    var chain := Chain(ParentsOf(a.capabilities), id);
    assert chain == [id] + chain[1..];
    if Entitled(a, id, u, now) {
      assert FirstLapsed(a.capabilities, chain[1..], now).None?;
    }
    if Evaluate(a, id, u, now).Allow? {
      EvaluateAllows(a, id, u, now);
    }
  }

  // ---------------------------------------------------------------- loss of authority is permanent

  /** The stored status left active, or the branch policy moved past the capability's revision. */
  ghost predicate Lost(a: Authority, x: CapabilityId) {
    && x in a.capabilities
    && (|| a.capabilities[x].status != Active
        || (a.capabilities[x].scope.at in a.policies
            && a.policies[a.capabilities[x].scope.at] > a.capabilities[x].policyRevision))
  }

  /** Rows never disappear, never become active again, and never change scope, revision or parent. */
  ghost predicate RowsOnlyAge(caps: Rows, caps': Rows) {
    forall x {:trigger caps'[x]} :: x in caps ==>
      && x in caps'
      && caps'[x].scope == caps[x].scope && caps'[x].policyRevision == caps[x].policyRevision
      && caps'[x].parent == caps[x].parent
      && (caps[x].status != Active ==> caps'[x].status == caps[x].status)
  }

  ghost predicate PoliciesOnlyAdvance(old_: map<BranchKey, int>, new_: map<BranchKey, int>) {
    forall b :: b in old_ ==> b in new_ && old_[b] <= new_[b]
  }

  /** The effect of a use on the rows: a marked expiry at most, or one charged chain. */
  ghost predicate UseEffect(caps: Rows, units: int, now: int, caps': Rows) {
    || MarkedAtMostOne(caps, caps', now)
    || exists ids :: Chargeable(caps, ids, units) && ChargedAlong(caps, ids, units, caps')
  }

  lemma UseHasEffect(a: Authority, hash: Hash, u: CapabilityUse, clock: int)
    requires Valid(a) && AuthorizeInTransaction(a, hash, u, clock).Ok?
    ensures UseEffect(a.capabilities, u.budgetUnits, clock,
        AuthorizeInTransaction(a, hash, u, clock).value.0.capabilities)
  {
    hide Valid, Evaluate, ValidUse, ChargedAlong, Chargeable, Barred, LoadAncestors;
    if hash in a.handles && a.handles[hash] in a.capabilities {
      var id := a.handles[hash];
      if Evaluate(a, id, u, clock).Allow? {
        AllowedUse(a, id, hash, u, clock);
        EvaluateAllows(a, id, u, clock);
      } else {
        DeniedUseMarks(a, id, hash, u, clock);
      }
    }
  }

  lemma EffectAges(caps: Rows, units: int, now: int, caps': Rows)
    requires UseEffect(caps, units, now, caps')
    ensures RowsOnlyAge(caps, caps')
  {
  }

  lemma EffectExpiresOnlyBy(caps: Rows, units: int, now: int, caps': Rows, t: int)
    requires UseEffect(caps, units, now, caps') && ExpiredBy(caps, t) && now <= t
    ensures ExpiredBy(caps', t)
  {
  }

  lemma UseKeepsPolicies(a: Authority, hash: Hash, u: CapabilityUse, clock: int)
    requires AuthorizeInTransaction(a, hash, u, clock).Ok?
    ensures AuthorizeInTransaction(a, hash, u, clock).value.0.policies == a.policies
  {
  }

  lemma CommitAges(a: Authority, op: Operation)
    requires Valid(a)
    ensures RowsOnlyAge(a.capabilities, Commit(a, op).capabilities)
    ensures PoliciesOnlyAdvance(a.policies, Commit(a, op).policies)
  {
    hide Valid, AuthorizeInTransaction, ValidateAttenuation, ValidateIssue;
    if op.OpUse? && Transact(a, op).Ok? {
      UseHasEffect(a, op.hash, op.use, op.clock);
      EffectAges(a.capabilities, op.use.budgetUnits, op.clock, Commit(a, op).capabilities);
      UseKeepsPolicies(a, op.hash, op.use, op.clock);
    }
  }

  lemma {:induction false} LossPersists(a: Authority, x: CapabilityId, ops: seq<Operation>)
    requires Valid(a) && Lost(a, x)
    ensures Lost(Run(a, ops), x)
  {
    if ops != [] {
      var before := ops[..|ops| - 1];
      LossPersists(a, x, before);
      RunKeepsValid(a, before);
      CommitAges(Run(a, before), ops[|ops| - 1]);
    }
  }

  /** A lost member of the chain shares its branch and revision with the capability below it. */
  lemma {:induction false} ChainSharesScope(caps: Rows, id: CapabilityId, x: CapabilityId)
    requires Rooted(ParentsOf(caps)) && Narrowing(caps) && id in caps && x in Chain(ParentsOf(caps), id)
    ensures x in caps && caps[x].scope == caps[id].scope && caps[x].policyRevision == caps[id].policyRevision
    decreases |Chain(ParentsOf(caps), id)|
  {
    var p := ParentsOf(caps);
    if x != id {
      assert Continues(p, id);
      assert NarrowRow(caps, id);
      ChainSharesScope(caps, p[id].value, x);
    }
  }

  lemma LostChainGrantsNothing(a: Authority, id: CapabilityId, x: CapabilityId, u: CapabilityUse,
                               request: IssueRequest, now: int)
    requires Valid(a) && id in a.capabilities && x in Chain(ParentsOf(a.capabilities), id) && Lost(a, x)
    ensures Evaluate(a, id, u, now).Deny?
    ensures ValidateAttenuation(a, id, request, now).Err?
  {
    hide LoadAncestors, Conserves, Logged, AncestryAgrees, Narrowing, Evaluate;
    ChainSharesScope(a.capabilities, id, x);
    AllowedExactlyWhenEntitled(a, id, u, now);
    LoadAncestorsIsChain(a, id);
    var chain := Chain(ParentsOf(a.capabilities), id);
    assert x == id || x in chain[1..];
    assert SaneRow(a.policies, a.capabilities[x]);
  }

  /** A call that would use capability `id`, or delegate from it, is refused. */
  ghost predicate Refused(a: Authority, id: CapabilityId, op: Operation) {
    && (op.OpUse? && op.hash in a.handles && a.handles[op.hash] == id && Transact(a, op).Ok? ==>
          Transact(a, op).value.1.decision.reason != Allowed)
    && (op.OpAttenuate? && op.parentHash in a.handles && a.handles[op.parentHash] == id ==> Transact(a, op).Err?)
  }

  lemma LostChainRefusesUse(a: Authority, id: CapabilityId, x: CapabilityId, hash: Hash, u: CapabilityUse, clock: int)
    requires Valid(a) && id in a.capabilities && x in Chain(ParentsOf(a.capabilities), id) && Lost(a, x)
    requires hash in a.handles && a.handles[hash] == id && AuthorizeInTransaction(a, hash, u, clock).Ok?
    ensures AuthorizeInTransaction(a, hash, u, clock).value.1.reason != Allowed
  {
    LostChainGrantsNothing(a, id, x, u, IssueRequest(u.scope, None, None, None, 0), clock);
    DeniedUseMarks(a, id, hash, u, clock);
  }

  lemma LostChainRefuses(a: Authority, id: CapabilityId, x: CapabilityId, op: Operation)
    requires Valid(a) && id in a.capabilities && x in Chain(ParentsOf(a.capabilities), id) && Lost(a, x)
    ensures Refused(a, id, op)
  {
    hide Valid, AuthorizeInTransaction, ValidateAttenuation, Insert, ValidateIssue;
    if op.OpUse? {
      if op.hash in a.handles && a.handles[op.hash] == id && AuthorizeInTransaction(a, op.hash, op.use, op.clock).Ok? {
        LostChainRefusesUse(a, id, x, op.hash, op.use, op.clock);
      }
    } else if op.OpAttenuate? {
      LostChainGrantsNothing(a, id, x, CapabilityUse(op.request.scope, 0, 0, "", ""), op.request, op.clock);
    }
  }

  /**
   Once a capability is lost, no later call under any clock allows a use of it or of any capability then below it,
   nor delegates from any of them.
   */
  lemma LossIsPermanent(a: Authority, x: CapabilityId, ops: seq<Operation>, id: CapabilityId, op: Operation)
    requires Valid(a) && Lost(a, x)
    requires id in Run(a, ops).capabilities && x in Chain(ParentsOf(Run(a, ops).capabilities), id)
    ensures Refused(Run(a, ops), id, op)
  {
    hide Valid, Refused, Run, Lost;
    RunKeepsValid(a, ops);
    LossPersists(a, x, ops);
    LostChainRefuses(Run(a, ops), id, x, op);
  }

  // ---------------------------------------------------------------- expiry of ancestors

  /** Every row stored as expired had reached its expiry by time `t`. */
  ghost predicate ExpiredBy(caps: Rows, t: int) {
    forall x {:trigger caps[x]} :: x in caps && caps[x].status == Expired ==>
      caps[x].expiresAt.Some? && caps[x].expiresAt.value <= t
  }

  lemma CommitExpiresOnlyBy(a: Authority, op: Operation, t: int)
    requires Valid(a) && ExpiredBy(a.capabilities, t)
    requires op.OpUse? ==> op.clock <= t
    ensures ExpiredBy(Commit(a, op).capabilities, t)
  {
    hide AuthorizeInTransaction, ValidateAttenuation, ValidateIssue, Linked, AncestryAgrees, Narrowing;
    hide Conserves, Logged;
    if op.OpUse? && Transact(a, op).Ok? {
      UseHasEffect(a, op.hash, op.use, op.clock);
      EffectExpiresOnlyBy(a.capabilities, op.use.budgetUnits, op.clock, Commit(a, op).capabilities, t);
    }
  }

  lemma {:induction false} RunExpiresOnlyBy(branches: set<BranchKey>, ops: seq<Operation>, t: int)
    requires forall i :: 0 <= i < |ops| && ops[i].OpUse? ==> ops[i].clock <= t
    ensures ExpiredBy(Run(Empty(branches), ops).capabilities, t)
  {
    if ops != [] {
      var before := ops[..|ops| - 1];
      RunExpiresOnlyBy(branches, before, t);
      EmptyValid(branches);
      RunKeepsValid(Empty(branches), before);
      CommitExpiresOnlyBy(Run(Empty(branches), before), ops[|ops| - 1], t);
    }
  }

  /** Expiries narrow all the way down a delegation chain. */
  lemma {:induction false} ChainNarrowsExpiry(caps: Rows, id: CapabilityId, x: CapabilityId)
    requires Rooted(ParentsOf(caps)) && Narrowing(caps) && id in caps && x in Chain(ParentsOf(caps), id)
    ensures x in caps && Narrows(caps[id].expiresAt, caps[x].expiresAt)
    decreases |Chain(ParentsOf(caps), id)|
  {
    var p := ParentsOf(caps);
    if x != id {
      assert Continues(p, id);
      assert NarrowRow(caps, id);
      ChainNarrowsExpiry(caps, p[id].value, x);
    }
  }

  /** The first lapsed member of a list, by position. */
  ghost predicate FirstLapsedAt(caps: Rows, ids: seq<CapabilityId>, now: int, k: int) {
    && 0 <= k < |ids| && ids[k] in caps && Lapse(caps[ids[k]], now).Some?
    && forall j :: 0 <= j < k ==> ids[j] in caps && Lapse(caps[ids[j]], now).None?
  }

  lemma {:induction false} FirstLapsedIsFirst(caps: Rows, ids: seq<CapabilityId>, now: int)
    requires forall x :: x in ids ==> x in caps
    ensures forall k :: FirstLapsedAt(caps, ids, now, k) ==> FirstLapsed(caps, ids, now) == Some(ids[k])
    ensures FirstLapsed(caps, ids, now).Some? ==> exists k :: FirstLapsedAt(caps, ids, now, k)
  {
    if ids != [] {
      var rest := ids[1..];
      FirstLapsedIsFirst(caps, rest, now);
      hide Lapse;
      forall k | FirstLapsedAt(caps, ids, now, k) ensures FirstLapsed(caps, ids, now) == Some(ids[k]) {
        if k > 0 { assert FirstLapsedAt(caps, rest, now, k - 1); }
      }
      if Lapse(caps[ids[0]], now).Some? {
        assert FirstLapsedAt(caps, ids, now, 0);
      } else if FirstLapsed(caps, rest, now).Some? {
        var k :| FirstLapsedAt(caps, rest, now, k);
        assert FirstLapsedAt(caps, ids, now, k + 1);
      }
    }
  }

  ghost predicate LapsesExpired(caps: Rows, ids: seq<CapabilityId>, now: int, k: int) {
    0 <= k < |ids| && ids[k] in caps && Lapse(caps[ids[k]], now) == Some(Expired)
  }

  /**
   Binding and policy pass, and the first lapsed capability on the parent chain is a proper ancestor that is expired.
   */
  ghost predicate MeetsExpiredAncestor(a: Authority, id: CapabilityId, u: CapabilityUse, now: int)
    requires id in a.capabilities
  {
    var c, chain := a.capabilities[id], Chain(ParentsOf(a.capabilities), id);
    && BindingDenial(c, u).None? && PolicyDenial(a.policies, c, u).None?
    && exists k :: FirstLapsedAt(a.capabilities, chain, now, k) && k > 0 && LapsesExpired(a.capabilities, chain, now, k)
  }

  lemma ShiftFirstLapsed(caps: Rows, chain: seq<CapabilityId>, now: int, k: int)
    requires chain != [] && chain[0] in caps && Lapse(caps[chain[0]], now).None?
    ensures FirstLapsedAt(caps, chain[1..], now, k) <==> FirstLapsedAt(caps, chain, now, k + 1) && k >= 0
  {
    hide Lapse;
    if FirstLapsedAt(caps, chain, now, k + 1) && k >= 0 {
      assert forall j :: 0 <= j < k ==> chain[1..][j] == chain[j + 1];
    }
  }

  /** The verdict on a capability whose own checks passed, by its chain. */
  lemma ChainVerdict(caps: Rows, log: seq<Authorization>, chain: seq<CapabilityId>, id: CapabilityId,
                     u: CapabilityUse, now: int)
    requires chain != [] && chain[0] == id && (forall x :: x in chain ==> x in caps) && Lapse(caps[id], now).None?
    ensures var e := EvaluateChain(caps, log, chain, id, u, now);
      (e.Deny? && e.reason == AncestorExpired) <==>
        exists k :: FirstLapsedAt(caps, chain, now, k) && k > 0 && LapsesExpired(caps, chain, now, k)
  {
    hide Lapse, AlreadyAuthorized, Affords;
    FirstLapsedIsFirst(caps, chain[1..], now);
    if FirstLapsed(caps, chain[1..], now).Some? {
      var k :| FirstLapsedAt(caps, chain[1..], now, k);
      ShiftFirstLapsed(caps, chain, now, k);
      assert FirstLapsedAt(caps, chain, now, k + 1) && chain[k + 1] == chain[1..][k];
    }
    if k :| FirstLapsedAt(caps, chain, now, k) && k > 0 && LapsesExpired(caps, chain, now, k) {
      ShiftFirstLapsed(caps, chain, now, k - 1);
      assert chain[1..][k - 1] == chain[k];
    }
  }

  lemma EvaluationMeetsExpiredAncestor(a: Authority, id: CapabilityId, u: CapabilityUse, now: int)
    requires Valid(a) && id in a.capabilities
    ensures (Evaluate(a, id, u, now).Deny? && Evaluate(a, id, u, now).reason == AncestorExpired)
      <==> MeetsExpiredAncestor(a, id, u, now)
  {
    ChainStarts(a, id);
    LoadAncestorsIsChain(a, id);
    hide Valid, LoadAncestors, Lapse, EvaluateChain;
    if Lapse(a.capabilities[id], now).None? {
      ChainVerdict(a.capabilities, a.authorizations, LoadAncestors(a, id), id, u, now);
      hide FirstLapsedAt;
    }
  }

  lemma ChainStarts(a: Authority, id: CapabilityId)
    requires Valid(a) && id in a.capabilities
    ensures |Chain(ParentsOf(a.capabilities), id)| > 0 && Chain(ParentsOf(a.capabilities), id)[0] == id
  {
  }

  /** An expired ancestor above an unexpired capability was stored as expired, at a later reading of the clock. */
  lemma ExpiredAncestorIsStored(a: Authority, id: CapabilityId, now: int, k: int)
    requires Valid(a) && id in a.capabilities
    requires var chain := Chain(ParentsOf(a.capabilities), id);
      FirstLapsedAt(a.capabilities, chain, now, k) && k > 0 && LapsesExpired(a.capabilities, chain, now, k)
    ensures var x := Chain(ParentsOf(a.capabilities), id)[k];
      && x in a.capabilities && a.capabilities[x].status == Expired
      && a.capabilities[x].expiresAt.Some? && a.capabilities[x].expiresAt.value > now
  {
    ChainStarts(a, id);
    var x := Chain(ParentsOf(a.capabilities), id)[k];
    assert SaneRow(a.policies, a.capabilities[x]);
    ChainNarrowsExpiry(a.capabilities, id, x);
    hide Valid;
  }

  /**
   A use is answered `AncestorExpired` exactly when it is well formed, its handle names a capability whose binding and
   policy checks pass, and the first lapsed capability on its parent chain is a proper ancestor that lapses as expired.
   */
  lemma AncestorExpiredExactlyWhen(a: Authority, hash: Hash, u: CapabilityUse, now: int)
    requires Valid(a)
    ensures var r := AuthorizeInTransaction(a, hash, u, now);
      (r.Ok? && r.value.1.reason == AncestorExpired) <==>
        && ValidUse(u) && 0 <= now && hash in a.handles && a.handles[hash] in a.capabilities
        && MeetsExpiredAncestor(a, a.handles[hash], u, now)
  {
    hide Valid, Evaluate, ValidUse, MeetsExpiredAncestor;
    if ValidUse(u) && 0 <= now && hash in a.handles && a.handles[hash] in a.capabilities {
      var id := a.handles[hash];
      EvaluationMeetsExpiredAncestor(a, id, u, now);
      if MeetsExpiredAncestor(a, id, u, now) { ExpiredAncestorAnswers(a, id, hash, u, now); }
      if AuthorizeInTransaction(a, hash, u, now).Ok?
          && Evaluate(a, id, u, now).Deny? { DeniedUseMarks(a, id, hash, u, now); }
    }
  }

  /** The stored status needs no marking, so the answer is always recorded. */
  lemma ExpiredAncestorAnswers(a: Authority, id: CapabilityId, hash: Hash, u: CapabilityUse, now: int)
    requires Valid(a) && ValidUse(u) && 0 <= now && hash in a.handles && a.handles[hash] == id && id in a.capabilities
    requires MeetsExpiredAncestor(a, id, u, now)
    ensures AuthorizeInTransaction(a, hash, u, now).Ok?
  {
    var chain := Chain(ParentsOf(a.capabilities), id);
    var k :| FirstLapsedAt(a.capabilities, chain, now, k) && k > 0 && LapsesExpired(a.capabilities, chain, now, k);
    ChainStarts(a, id);
    ExpiredAncestorIsStored(a, id, now, k);
    ExpiredVerdict(a, id, u, now, k);
    hide Valid, ValidUse, Evaluate;
  }

  lemma ExpiredVerdict(a: Authority, id: CapabilityId, u: CapabilityUse, now: int, k: int)
    requires Valid(a) && id in a.capabilities
    requires BindingDenial(a.capabilities[id], u).None? && PolicyDenial(a.policies, a.capabilities[id], u).None?
    requires var chain := Chain(ParentsOf(a.capabilities), id);
      FirstLapsedAt(a.capabilities, chain, now, k) && k > 0 && LapsesExpired(a.capabilities, chain, now, k)
    ensures Evaluate(a, id, u, now) == Deny(AncestorExpired, Some(Chain(ParentsOf(a.capabilities), id)[k]))
  {
    ChainStarts(a, id);
    var caps, chain := a.capabilities, Chain(ParentsOf(a.capabilities), id);
    assert Lapse(caps[chain[0]], now).None?;
    LoadAncestorsIsChain(a, id);
    hide Valid, LoadAncestors, Lapse;
    FirstLapsedIsFirst(caps, chain[1..], now);
    ShiftFirstLapsed(caps, chain, now, k - 1);
    assert chain[1..][k - 1] == chain[k];
  }

  /**
   So an expired ancestor is reported only to a use whose clock reads earlier than that of some previous use: if the
   clock readings of uses never decrease, no run reports it.
   */
  lemma AncestorExpiredNeedsClockRegression(branches: set<BranchKey>, ops: seq<Operation>, hash: Hash,
                                            u: CapabilityUse, now: int)
    requires var r := Transact(Run(Empty(branches), ops), OpUse(hash, u, now));
      r.Ok? && r.value.1.decision.reason == AncestorExpired
    ensures exists i :: 0 <= i < |ops| && ops[i].OpUse? && ops[i].clock > now
  {
    hide Valid, AuthorizeInTransaction, Run, ExpiredBy;
    var a := Run(Empty(branches), ops);
    EmptyValid(branches);
    RunKeepsValid(Empty(branches), ops);
    if forall i :: 0 <= i < |ops| && ops[i].OpUse? ==> ops[i].clock <= now {
      RunExpiresOnlyBy(branches, ops, now);
      NoExpiredAncestorByThen(a, hash, u, now);
    }
  }

  lemma NoExpiredAncestorByThen(a: Authority, hash: Hash, u: CapabilityUse, now: int)
    requires Valid(a) && ExpiredBy(a.capabilities, now)
    ensures var r := AuthorizeInTransaction(a, hash, u, now); r.Ok? ==> r.value.1.reason != AncestorExpired
  {
    hide Valid, AuthorizeInTransaction, ValidUse, Lapse, FirstLapsedAt, BindingDenial, PolicyDenial;
    AncestorExpiredExactlyWhen(a, hash, u, now);
    if hash in a.handles && a.handles[hash] in a.capabilities && MeetsExpiredAncestor(a, a.handles[hash], u, now) {
      var id := a.handles[hash];
      var chain := Chain(ParentsOf(a.capabilities), id);
      var k :| FirstLapsedAt(a.capabilities, chain, now, k) && k > 0 && LapsesExpired(a.capabilities, chain, now, k);
      ExpiredAncestorIsStored(a, id, now, k);
    }
  }
}
