/** What each call of the capability service does, in terms of the tables alone. */
module AuthorityCalls {
  import opened Wrappers
  import opened Capabilities
  import opened Delegation
  import opened AuthorityInvariant
  import opened AuthorityRuns
  import Text

  // ---------------------------------------------------------------- policies

  /** A policy revision is set exactly when it is representable and does not go back; nothing else changes. */
  lemma PolicySetExactlyWhen(a: Authority, at: BranchKey, revision: nat, clock: int)
    ensures var r := Transact(a, OpSetPolicy(at, revision, clock));
      && (r.Ok? <==> revision <= 0x7FFF_FFFF_FFFF_FFFF && 0 <= clock
                     && (if at in a.policies then a.policies[at] <= revision else at in a.branches))
      && (r.Ok? ==> r.value == (a.(policies := a.policies[at := revision]), Done))
  {
  }

  // ---------------------------------------------------------------- issue and delegation

  predicate InLimits(limit: Option<nat>) {
    limit.None? || 1 <= limit.value <= 0x7FFF_FFFF_FFFF_FFFF
  }

  /** A request that the service takes up at all. */
  predicate Acceptable(request: IssueRequest, now: int) {
    && 0 <= now
    && Text.IsTrimmedField(request.scope.subject, 255)
    && Text.IsTrimmedField(request.scope.action, 255)
    && Text.IsTrimmedField(request.scope.resource, 2048)
    && InLimits(request.maxUses) && InLimits(request.budgetUnits)
    && (request.expiresAt.Some? ==> now < request.expiresAt.value)
    && request.policyRevision <= 0x7FFF_FFFF_FFFF_FFFF
  }

  lemma ValidationMeans(request: IssueRequest, now: int)
    ensures (0 <= now && ValidateIssue(request, now).Ok?) <==> Acceptable(request, now)
  {
    hide Text.IsTrimmedField;
  }

  /** The branch exists and runs under the requested policy; identifier and handle are new. */
  predicate Grantable(a: Authority, request: IssueRequest, id: CapabilityId, hash: Hash) {
    && request.scope.at in a.branches && request.scope.at in a.policies
    && a.policies[request.scope.at] == request.policyRevision
    && id !in a.capabilities && hash !in a.handles
  }

  /** The row of a new capability: what was asked for, untouched. */
  predicate IsNewRow(c: Capability, request: IssueRequest, parent: Option<CapabilityId>, now: int) {
    && c.scope == request.scope && c.parent == parent && c.policyRevision == request.policyRevision
    && c.maxUses == request.maxUses && c.remainingUses == request.maxUses
    && c.budget == request.budgetUnits && c.remainingBudget == request.budgetUnits
    && c.status == Active && c.issuedAt == now && c.expiresAt == request.expiresAt
  }

  /** One capability was added: its row, its handle, and its ancestry, which is itself and that of its parent. */
  ghost predicate Adds(a: Authority, b: Authority, id: CapabilityId, hash: Hash, parent: Option<CapabilityId>) {
    && b == a.(capabilities := b.capabilities, handles := a.handles[hash := id], ancestry := b.ancestry)
    && id in b.capabilities && b.capabilities == a.capabilities[id := b.capabilities[id]]
    && forall r {:trigger r in b.ancestry} :: r in b.ancestry <==>
         || r in a.ancestry || r == AncestryRow(id, id, 0)
         || (r.capability == id && r.depth > 0 && parent.Some?
           && AncestryRow(parent.value, r.ancestor, r.depth - 1) in a.ancestry)
  }

  lemma InsertAdds(a: Authority, id: CapabilityId, hash: Hash, c: Capability)
    ensures Insert(a, id, hash, c).Ok? <==> id !in a.capabilities && hash !in a.handles && c.scope.at in a.branches
    ensures Insert(a, id, hash, c).Ok? ==>
      var b := Insert(a, id, hash, c).value; Adds(a, b, id, hash, c.parent) && b.capabilities[id] == c
  {
    if Insert(a, id, hash, c).Ok? {
      var b := Insert(a, id, hash, c).value;
      forall r {:trigger r in b.ancestry} ensures r in b.ancestry <==>
          || r in a.ancestry || r == AncestryRow(id, id, 0)
          || (r.capability == id && r.depth > 0 && c.parent.Some?
            && AncestryRow(c.parent.value, r.ancestor, r.depth - 1) in a.ancestry) {
        InheritedMeans(a.ancestry, id, c.parent, r);
      }
    }
  }

  lemma InheritedMeans(ancestry: set<AncestryRow>, id: CapabilityId, parent: Option<CapabilityId>, r: AncestryRow)
    ensures r in Inherited(ancestry, id, parent) <==>
      && r.capability == id && r.depth > 0 && parent.Some?
      && AncestryRow(parent.value, r.ancestor, r.depth - 1) in ancestry
  {
    if r.capability == id && r.depth > 0 && parent.Some? {
      var q := AncestryRow(parent.value, r.ancestor, r.depth - 1);
      assert AncestryRow(id, q.ancestor, q.depth + 1) == r;
    }
  }

  /** A root capability is issued exactly when the request is acceptable and grantable; it gets what was asked for. */
  lemma IssuedExactlyWhen(a: Authority, request: IssueRequest, id: CapabilityId, hash: Hash, clock: int)
    ensures var r := Transact(a, OpIssue(request, id, hash, clock));
      && (r.Ok? <==> Acceptable(request, clock) && Grantable(a, request, id, hash))
      && (r.Ok? ==>
            && r.value.1 == Done && Adds(a, r.value.0, id, hash, None)
            && IsNewRow(r.value.0.capabilities[id], request, None, clock))
  {
    ValidationMeans(request, clock);
    InsertAdds(a, id, hash, NewCapability(request, None, clock));
    hide ValidateIssue, Acceptable, Insert, Adds;
  }

  predicate NoWider(child: Option<int>, parent: Option<int>) {
    parent.Some? ==> child.Some? && child.value <= parent.value
  }

  /** The parent and all its ancestors are usable, and the request stays within what is left of the parent. */
  ghost predicate Delegable(a: Authority, parent: CapabilityId, request: IssueRequest, now: int)
    requires parent in a.capabilities
  {
    var p := a.capabilities[parent];
    && (forall x :: x in Chain(ParentsOf(a.capabilities), parent) ==>
       x in a.capabilities && Usable(a.capabilities[x], now))
    && p.scope == request.scope && p.policyRevision == request.policyRevision
    && NoWider(request.maxUses, p.remainingUses) && NoWider(request.budgetUnits, p.remainingBudget)
    && NoWider(request.expiresAt, p.expiresAt)
    && p.scope.at in a.policies && a.policies[p.scope.at] == p.policyRevision
  }

  lemma LapseMeans(c: Capability, now: int)
    ensures Lapse(c, now).None? <==> Usable(c, now)
    ensures Lapse(c, now) == Some(Revoked) <==> c.status == Revoked
    ensures Lapse(c, now) == Some(Consumed) <==> SpentUp(c)
    ensures Lapse(c, now) == Some(Expired) <==> RunOut(c, now)
  {
  }

  predicate SpentUp(c: Capability) {
    c.status == Consumed || (c.status == Active && (c.remainingUses == Some(0) || c.remainingBudget == Some(0)))
  }

  predicate RunOut(c: Capability, now: int) {
    || c.status == Expired
    || (c.status == Active && !SpentUp(c) && c.expiresAt.Some? && now >= c.expiresAt.value)
  }

  lemma ChainClear(caps: Rows, chain: seq<CapabilityId>, now: int)
    requires chain != [] && forall x :: x in chain ==> x in caps
    ensures (Lapse(caps[chain[0]], now).None? && FirstLapsed(caps, chain[1..], now).None?)
      <==> forall x :: x in chain ==> Usable(caps[x], now)
  {
    assert chain == [chain[0]] + chain[1..];
    forall x | x in chain ensures Lapse(caps[x], now).None? <==> Usable(caps[x], now) { LapseMeans(caps[x], now); }
    hide Lapse, Usable;
  }

  lemma DelegationMeans(a: Authority, parent: CapabilityId, request: IssueRequest, now: int)
    requires Valid(a) && parent in a.capabilities
    ensures ValidateAttenuation(a, parent, request, now).Ok? <==> Delegable(a, parent, request, now)
  {
    LoadAncestorsIsChain(a, parent);
    ChainStarts(a, parent);
    hide Valid, LoadAncestors, Lapse, Usable, Chain, FirstLapsed;
    ChainClear(a.capabilities, LoadAncestors(a, parent), now);
  }

  /** A capability is delegated exactly when its request is acceptable, grantable, and within its whole chain. */
  lemma DelegatedExactlyWhen(a: Authority, parentHash: Hash, request: IssueRequest, id: CapabilityId, hash: Hash,
                             clock: int)
    requires Valid(a)
    ensures var r := Transact(a, OpAttenuate(parentHash, request, id, hash, clock));
      && (r.Ok? <==>
            && Acceptable(request, clock) && Grantable(a, request, id, hash)
            && parentHash in a.handles && a.handles[parentHash] in a.capabilities
            && Delegable(a, a.handles[parentHash], request, clock))
      && (r.Ok? ==>
            && r.value.1 == Done && Adds(a, r.value.0, id, hash, Some(a.handles[parentHash]))
            && IsNewRow(r.value.0.capabilities[id], request, Some(a.handles[parentHash]), clock))
  {
    ValidationMeans(request, clock);
    hide ValidateIssue, Acceptable, Insert, Adds, Valid, ValidateAttenuation;
    if parentHash in a.handles && a.handles[parentHash] in a.capabilities {
      var parent := a.handles[parentHash];
      DelegationMeans(a, parent, request, clock);
      InsertAdds(a, id, hash, NewCapability(request, Some(parent), clock));
      hide Chain, Usable, NoWider;
    }
  }

  // ---------------------------------------------------------------- revocation

  /** The call revokes a stored capability: by its handle, or by its identifier. */
  predicate Revokes(a: Authority, op: Operation, x: CapabilityId) {
    && x in a.capabilities
    && (op.OpRevokeById? || op.OpRevoke?)
    && (op.OpRevokeById? ==> op.id == x)
    && (op.OpRevoke? ==> op.hash in a.handles && a.handles[op.hash] == x)
  }

  /**
   A revocation succeeds exactly when the clock is not negative and, for an active capability, not before its issue.
   An active capability is then revoked, one that was lost already keeps its status, and nothing else changes.
   */
  lemma RevokedExactlyWhen(a: Authority, op: Operation, x: CapabilityId)
    requires Revokes(a, op, x)
    ensures var r, c := Transact(a, op), a.capabilities[x];
      && (r.Ok? <==> 0 <= op.clock && (c.status != Active || c.issuedAt <= op.clock))
      && (r.Ok? ==>
            && r.value.1 == Done && r.value.0 == a.(capabilities := r.value.0.capabilities)
            && r.value.0.capabilities.Keys == a.capabilities.Keys
            && r.value.0.capabilities[x].status == (if c.status == Active then Revoked else c.status)
            && r.value.0.capabilities[x] == c.(status := r.value.0.capabilities[x].status)
            && (forall y :: y in a.capabilities && y != x ==> r.value.0.capabilities[y] == a.capabilities[y]))
      && (r.Err? ==> Commit(a, op) == a)
  {
  }

  lemma {:induction false} RunSplits(a: Authority, ops: seq<Operation>, n: nat)
    requires n <= |ops|
    ensures Run(a, ops) == Run(Run(a, ops[..n]), ops[n..])
    decreases |ops|
  {
    hide Commit;
    if n == |ops| {
      assert ops[..n] == ops && ops[n..] == [];
    } else {
      var m := |ops| - 1;
      RunSplits(a, ops[..m], n);
      assert ops[..m][..n] == ops[..n] && ops[..m][n..] == ops[n..][..m - n];
      assert ops[n..][|ops[n..]| - 1] == ops[m];
    }
  }

  /**
   After any run that holds a successful revocation of an active capability, no call under any clock allows a use of it
   or of a capability below it, nor delegates from one of them.
   */
  lemma RevocationIsPermanent(branches: set<BranchKey>, ops: seq<Operation>, n: nat, x: CapabilityId, id: CapabilityId,
                              op: Operation)
    requires n < |ops|
    requires var a := Run(Empty(branches), ops[..n]);
      Revokes(a, ops[n], x) && a.capabilities[x].status == Active && Transact(a, ops[n]).Ok?
    requires var b := Run(Empty(branches), ops); id in b.capabilities && x in Chain(ParentsOf(b.capabilities), id)
    ensures Refused(Run(Empty(branches), ops), id, op)
  {
    var e := Empty(branches);
    var a := Run(e, ops[..n]);
    RevokedExactlyWhen(a, ops[n], x);
    var b := Commit(a, ops[n]);
    assert ops[..n + 1][..n] == ops[..n];
    assert b == Run(e, ops[..n + 1]);
    assert Lost(b, x);
    hide Valid, Refused, Run, Lost, Commit, Transact, Revokes;
    EmptyValid(branches);
    RunKeepsValid(e, ops[..n + 1]);
    RunSplits(e, ops, n + 1);
    LossIsPermanent(b, x, ops[n + 1..], id, op);
  }

  // ---------------------------------------------------------------- why a use is refused

  /** Position `k` of a chain is the first that cannot be used. */
  ghost predicate FirstBarred(caps: Rows, chain: seq<CapabilityId>, now: int, k: int) {
    && 0 <= k < |chain| && chain[k] in caps && !Usable(caps[chain[k]], now)
    && forall j :: 0 <= j < k ==> chain[j] in caps && Usable(caps[chain[j]], now)
  }

  /** The binding and the capability itself pass, and so does its policy. */
  ghost predicate Passes(a: Authority, id: CapabilityId, u: CapabilityUse, now: int)
    requires id in a.capabilities
  {
    var c := a.capabilities[id];
    && c.scope == u.scope && Usable(c, now)
    && u.scope.at in a.policies && a.policies[u.scope.at] == c.policyRevision == u.policyRevision
  }

  /** Everything up to the ancestors passes, and the first barred one satisfies a condition. */
  ghost predicate AncestorBars(a: Authority, id: CapabilityId, u: CapabilityUse, now: int, why: Status)
    requires id in a.capabilities
  {
    && Passes(a, id, u, now)
    && exists k :: FirstBarred(a.capabilities, Chain(ParentsOf(a.capabilities), id), now, k) && k > 0
                && BarredAs(a.capabilities, Chain(ParentsOf(a.capabilities), id), now, k, why)
  }

  ghost predicate BarredAs(caps: Rows, chain: seq<CapabilityId>, now: int, k: int, why: Status) {
    0 <= k < |chain| && chain[k] in caps && BarredFor(caps[chain[k]], now, why)
  }

  predicate BarredFor(c: Capability, now: int, why: Status) {
    match why
    case Active => false
    case Revoked => c.status == Revoked
    case Consumed => SpentUp(c)
    case Expired => RunOut(c, now)
  }

  ghost predicate ChainUsable(a: Authority, id: CapabilityId, now: int) {
    forall x :: x in Chain(ParentsOf(a.capabilities), id) ==> x in a.capabilities && Usable(a.capabilities[x], now)
  }

  ghost predicate UsedBefore(a: Authority, id: CapabilityId, u: CapabilityUse) {
    exists i :: 0 <= i < |a.authorizations| && a.authorizations[i].capability == id
             && a.authorizations[i].requestId == u.requestId
  }

  ghost predicate TooDear(a: Authority, id: CapabilityId, u: CapabilityUse) {
    exists x :: x in Chain(ParentsOf(a.capabilities), id) && x in a.capabilities
             && a.capabilities[x].remainingBudget.Some? && a.capabilities[x].remainingBudget.value < u.budgetUnits
  }

  /** What each answer to a use of capability `id` says about the tables. */
  ghost predicate Says(a: Authority, id: CapabilityId, u: CapabilityUse, now: int, r: Reason)
    requires id in a.capabilities
  {
    var c, at := a.capabilities[id], u.scope.at;
    match r
    case SessionMismatch => c.scope.at.session != at.session
    case BranchMismatch => c.scope.at.session == at.session && c.scope.at.branch != at.branch
    case SubjectMismatch => c.scope.at == at && c.scope.subject != u.scope.subject
    case ActionMismatch => c.scope.at == at && c.scope.subject == u.scope.subject && c.scope.action != u.scope.action
    case ResourceMismatch => c.scope == u.scope.(resource := c.scope.resource) && c.scope.resource != u.scope.resource
    case RevokedHandle => c.scope == u.scope && BarredFor(c, now, Revoked)
    case ConsumedHandle => c.scope == u.scope && BarredFor(c, now, Consumed)
    case ExpiredHandle => c.scope == u.scope && BarredFor(c, now, Expired)
    case PolicyUnavailable => c.scope == u.scope && Usable(c, now) && at !in a.policies
    case PolicyStale => c.scope == u.scope && Usable(c, now) && at in a.policies && a.policies[at] != c.policyRevision
    case PolicyRevisionMismatch =>
      && c.scope == u.scope && Usable(c, now) && at in a.policies
      && a.policies[at] == c.policyRevision && c.policyRevision != u.policyRevision
    case AncestorRevoked => AncestorBars(a, id, u, now, Revoked)
    case AncestorConsumed => AncestorBars(a, id, u, now, Consumed)
    case AncestorExpired => AncestorBars(a, id, u, now, Expired)
    case RequestAlreadyAuthorized => Passes(a, id, u, now) && ChainUsable(a, id, now) && UsedBefore(a, id, u)
    case BudgetExceeded =>
      Passes(a, id, u, now) && ChainUsable(a, id, now) && !UsedBefore(a, id, u) && TooDear(a, id, u)
    case Allowed =>
      Passes(a, id, u, now) && ChainUsable(a, id, now) && !UsedBefore(a, id, u) && !TooDear(a, id, u)
    case UnknownHandle => false
    case CorruptAuthority => false
  }

  ghost function Verdict(a: Authority, id: CapabilityId, u: CapabilityUse, now: int): Reason
    requires id in a.capabilities
  {
    var e := Evaluate(a, id, u, now);
    if e.Allow? then Allowed else e.reason
  }

  function ChainReason(caps: Rows, log: seq<Authorization>, chain: seq<CapabilityId>, id: CapabilityId,
                       u: CapabilityUse, now: int): Reason
    requires forall x :: x in chain ==> x in caps
  {
    var e := EvaluateChain(caps, log, chain, id, u, now);
    if e.Allow? then Allowed else e.reason
  }

  /** No ancestor bars, or the first one that does names the reason. */
  lemma ChainReasons(caps: Rows, log: seq<Authorization>, chain: seq<CapabilityId>, id: CapabilityId, u: CapabilityUse,
                     now: int)
    requires chain != [] && chain[0] == id && (forall x :: x in chain ==> x in caps) && Usable(caps[id], now)
    ensures var r := ChainReason(caps, log, chain, id, u, now);
      if forall x :: x in chain ==> Usable(caps[x], now) then
        r == if AlreadyAuthorized(log, id, u.requestId) then RequestAlreadyAuthorized
             else if exists x :: x in chain && !Affords(caps[x], u.budgetUnits) then BudgetExceeded
             else Allowed
      else (exists k ::
              FirstBarred(caps, chain, now, k) && k > 0
              && r == AncestorReason(Lapse(caps[chain[k]], now).value))
  {
    var rest := chain[1..];
    FirstLapsedIsFirst(caps, rest, now);
    forall x | x in chain ensures Lapse(caps[x], now).None? <==> Usable(caps[x], now) { LapseMeans(caps[x], now); }
    hide Lapse, Usable, AlreadyAuthorized, Affords, FirstLapsed;
    assert chain == [chain[0]] + rest;
    if FirstLapsed(caps, rest, now).Some? {
      var k :| FirstLapsedAt(caps, rest, now, k);
      ShiftFirstLapsed(caps, chain, now, k);
      assert chain[k + 1] == rest[k] && rest[k] in chain;
      assert FirstBarred(caps, chain, now, k + 1) by {
        forall j | 0 <= j < k + 1 ensures chain[j] in caps && Usable(caps[chain[j]], now) { assert chain[j] in chain; }
      }
    }
  }

  lemma VerdictHolds(a: Authority, id: CapabilityId, u: CapabilityUse, now: int)
    requires Valid(a) && id in a.capabilities
    ensures Says(a, id, u, now, Verdict(a, id, u, now))
  {
    var c := a.capabilities[id];
    if BindingDenial(c, u).None? && Lapse(c, now).None? && PolicyDenial(a.policies, c, u).None? {
      LapseMeans(c, now);
      LoadAncestorsIsChain(a, id);
      ChainStarts(a, id);
      hide Valid, LoadAncestors, Lapse, Says, Usable, EvaluateChain;
      PassedVerdictHolds(a, id, u, now);
    } else {
      hide Valid, Says, Verdict;
      EarlyVerdictHolds(a, id, u, now);
    }
  }

  /** Refused by the binding, by the capability itself, or by its policy. */
  lemma EarlyVerdictHolds(a: Authority, id: CapabilityId, u: CapabilityUse, now: int)
    requires id in a.capabilities
    requires var c := a.capabilities[id];
      BindingDenial(c, u).Some? || Lapse(c, now).Some? || PolicyDenial(a.policies, c, u).Some?
    ensures Says(a, id, u, now, Verdict(a, id, u, now))
  {
    LapseMeans(a.capabilities[id], now);
    hide EvaluateChain, LoadAncestors, Usable, SpentUp, RunOut, Lapse, AncestorBars, UsedBefore, TooDear, ChainUsable;
  }

  lemma PassedVerdictHolds(a: Authority, id: CapabilityId, u: CapabilityUse, now: int)
    requires id in a.capabilities && Passes(a, id, u, now)
    requires var chain := Chain(ParentsOf(a.capabilities), id);
      chain != [] && chain[0] == id && forall x :: x in chain ==> x in a.capabilities
    ensures Says(a, id, u, now,
        ChainReason(a.capabilities, a.authorizations, Chain(ParentsOf(a.capabilities), id), id, u, now))
  {
    var caps, chain := a.capabilities, Chain(ParentsOf(a.capabilities), id);
    ChainReasons(caps, a.authorizations, chain, id, u, now);
    var r := ChainReason(caps, a.authorizations, chain, id, u, now);
    hide ChainReason, Lapse, Usable, Says;
    if ChainUsable(a, id, now) {
      UsableVerdictHolds(a, id, u, now, r);
    } else {
      var k :| FirstBarred(caps, chain, now, k) && k > 0 && r == AncestorReason(Lapse(caps[chain[k]], now).value);
      BarredVerdictHolds(a, id, u, now, k);
    }
  }

  lemma UsableVerdictHolds(a: Authority, id: CapabilityId, u: CapabilityUse, now: int, r: Reason)
    requires id in a.capabilities && Passes(a, id, u, now) && ChainUsable(a, id, now)
    requires r == if AlreadyAuthorized(a.authorizations, id, u.requestId) then RequestAlreadyAuthorized
                  else if (exists x ::
                             x in Chain(ParentsOf(a.capabilities), id)
                             && !Affords(a.capabilities[x], u.budgetUnits))
                  then BudgetExceeded else Allowed
    ensures Says(a, id, u, now, r)
  {
    UsedMeans(a, id, u);
    DearMeans(a, id, u);
    hide UsedBefore, TooDear, AlreadyAuthorized, Affords, Passes, ChainUsable, AncestorBars, Usable;
  }

  lemma UsedMeans(a: Authority, id: CapabilityId, u: CapabilityUse)
    ensures AlreadyAuthorized(a.authorizations, id, u.requestId) <==> UsedBefore(a, id, u)
  {
  }

  lemma DearMeans(a: Authority, id: CapabilityId, u: CapabilityUse)
    requires forall x :: x in Chain(ParentsOf(a.capabilities), id) ==> x in a.capabilities
    ensures (exists x :: x in Chain(ParentsOf(a.capabilities), id) && !Affords(a.capabilities[x], u.budgetUnits))
      <==> TooDear(a, id, u)
  {
    hide Chain;
  }

  lemma BarredVerdictHolds(a: Authority, id: CapabilityId, u: CapabilityUse, now: int, k: int)
    requires id in a.capabilities && Passes(a, id, u, now)
    requires FirstBarred(a.capabilities, Chain(ParentsOf(a.capabilities), id), now, k) && k > 0
    ensures var c := a.capabilities[Chain(ParentsOf(a.capabilities), id)[k]];
      Lapse(c, now).Some? && Lapse(c, now).value != Active
      && Says(a, id, u, now, AncestorReason(Lapse(c, now).value))
  {
    hide Chain, ParentsOf;
    var chain := Chain(ParentsOf(a.capabilities), id);
    var c := a.capabilities[chain[k]];
    LapseMeans(c, now);
    var why := Lapse(c, now).value;
    assert BarredAs(a.capabilities, chain, now, k, why);
    hide Usable, SpentUp, RunOut, Lapse, BarredAs, FirstBarred, Passes;
    assert AncestorBars(a, id, u, now, why);
  }

  lemma AncestorsBarForOneReason(a: Authority, id: CapabilityId, u: CapabilityUse, now: int, why: Status, other: Status)
    requires id in a.capabilities && AncestorBars(a, id, u, now, why)
    ensures AncestorBars(a, id, u, now, other) ==> why == other
    ensures !ChainUsable(a, id, now)
  {
    var caps, chain := a.capabilities, Chain(ParentsOf(a.capabilities), id);
    var k :| FirstBarred(caps, chain, now, k) && k > 0 && BarredAs(caps, chain, now, k, why);
    assert chain[k] in chain;
    if AncestorBars(a, id, u, now, other) {
      var j :| FirstBarred(caps, chain, now, j) && j > 0 && BarredAs(caps, chain, now, j, other);
      assert j == k;
    }
  }

  lemma BarredForOneReason(c: Capability, now: int, why: Status, other: Status)
    ensures BarredFor(c, now, why) ==> !Usable(c, now) && (BarredFor(c, now, other) ==> why == other)
  {
  }

  /** No two answers fit the same tables. */
  lemma AnswersExclude(a: Authority, id: CapabilityId, u: CapabilityUse, now: int, r: Reason, q: Reason)
    requires id in a.capabilities && Says(a, id, u, now, r) && Says(a, id, u, now, q)
    ensures r == q
  {
    forall why, other {:trigger AncestorBars(a, id, u, now, why), AncestorBars(a, id, u, now, other)}
      | AncestorBars(a, id, u, now, why)
      ensures !ChainUsable(a, id, now) && Passes(a, id, u, now) && (AncestorBars(a, id, u, now, other) ==> why == other)
    {
      AncestorsBarForOneReason(a, id, u, now, why, other);
    }
    forall why, other {:trigger BarredFor(a.capabilities[id], now, why), BarredFor(a.capabilities[id], now, other)}
      | BarredFor(a.capabilities[id], now, why)
      ensures !Usable(a.capabilities[id], now) && (BarredFor(a.capabilities[id], now, other) ==> why == other)
    {
      BarredForOneReason(a.capabilities[id], now, why, other);
    }
    hide AncestorBars, BarredFor, UsedBefore, TooDear, ChainUsable, Usable;
  }

  /** A use is answered with a reason exactly when that reason is what the tables say; the answers cover every case. */
  lemma AnsweredExactlyWhen(a: Authority, id: CapabilityId, u: CapabilityUse, now: int, r: Reason)
    requires Valid(a) && id in a.capabilities
    ensures Verdict(a, id, u, now) == r <==> Says(a, id, u, now, r)
  {
    hide Valid, Verdict, Says;
    VerdictHolds(a, id, u, now);
    if Says(a, id, u, now, r) { AnswersExclude(a, id, u, now, r, Verdict(a, id, u, now)); }
  }

  /** A use is well formed: trimmed texts, a digest for its request, and a positive charge that fits. */
  lemma ValidUseMeans(u: CapabilityUse)
    ensures ValidUse(u) <==>
      && Text.IsTrimmedField(u.scope.subject, 255) && Text.IsTrimmedField(u.scope.action, 255)
      && Text.IsTrimmedField(u.scope.resource, 2048) && Text.IsTrimmedField(u.requestId, 255)
      && |u.requestHash| == 64
      && (forall i :: 0 <= i < 64 ==> u.requestHash[i] in "0123456789abcdef")
      && 1 <= u.budgetUnits <= 0x7FFF_FFFF_FFFF_FFFF && u.policyRevision <= 0x7FFF_FFFF_FFFF_FFFF
  {
    hide Text.IsTrimmedField;
    forall c: char ensures c in "0123456789abcdef" <==> '0' <= c <= '9' || 'a' <= c <= 'f' { HexDigit(c); }
  }

  lemma HexDigit(c: char)
    ensures c in "0123456789abcdef" <==> '0' <= c <= '9' || 'a' <= c <= 'f'
  {
    var s := "0123456789abcdef";
    if '0' <= c <= '9' {
      assert s[c as int - '0' as int] == c;
    } else if 'a' <= c <= 'f' {
      assert s[10 + c as int - 'a' as int] == c;
    }
  }

  // ---------------------------------------------------------------- what a use writes

  /** The answer to a use of a handle. */
  ghost function Answer(a: Authority, hash: Hash, u: CapabilityUse, now: int): Reason {
    if Named(a, hash).None? then UnknownHandle else Verdict(a, Named(a, hash).value, u, now)
  }

  ghost predicate IssuedBy(a: Authority, id: CapabilityId, now: int) {
    forall x :: x in Chain(ParentsOf(a.capabilities), id) ==> x in a.capabilities && a.capabilities[x].issuedAt <= now
  }

  /**
   A use is answered exactly when it is well formed and, if it is to be charged, nothing on its chain is of later date.
   */
  ghost predicate Answerable(a: Authority, hash: Hash, u: CapabilityUse, now: int) {
    && ValidUse(u) && 0 <= now
    && (Answer(a, hash, u, now) == Allowed ==> Named(a, hash).Some? && IssuedBy(a, Named(a, hash).value, now))
  }

  /** What an answered use leaves behind. */
  ghost predicate Leaves(a: Authority, hash: Hash, u: CapabilityUse, now: int, b: Authority) {
    var id, reason := Named(a, hash), Answer(a, hash, u, now);
    && b == a.(capabilities := b.capabilities, authorizations := b.authorizations, decisions := b.decisions)
    && b.decisions == a.decisions + [DecisionRow(id, hash, u, reason, now)]
    && (if reason == Allowed then
          && id.Some?
          && b.authorizations
             == a.authorizations + [Authorization(id.value, u.requestId, u.requestHash, u.budgetUnits, now)]
          && ChargedAlong(a.capabilities, Chain(ParentsOf(a.capabilities), id.value), u.budgetUnits, b.capabilities)
        else
          && b.authorizations == a.authorizations
          && b.capabilities
             == (if reason == ExpiredHandle && id.Some? then ExpiryRecorded(a.capabilities, id.value)
                 else a.capabilities))
  }

  function ExpiryRecorded(caps: Rows, id: CapabilityId): Rows
    requires id in caps
  {
    caps[id := caps[id].(status := Expired)]
  }

  /** A lapsed proper ancestor of a usable capability is stored as such, so meeting it marks nothing. */
  lemma LapsedAncestorIsStored(a: Authority, id: CapabilityId, now: int, k: int)
    requires Valid(a) && id in a.capabilities && k > 0
    requires FirstLapsedAt(a.capabilities, Chain(ParentsOf(a.capabilities), id), now, k)
    ensures a.capabilities[Chain(ParentsOf(a.capabilities), id)[k]].status != Active
  {
    var chain := Chain(ParentsOf(a.capabilities), id);
    assert SaneRow(a.policies, a.capabilities[chain[k]]);
    if LapsesExpired(a.capabilities, chain, now, k) { ExpiredAncestorIsStored(a, id, now, k); }
    hide Valid, Chain;
  }

  lemma LapsedIsStored(a: Authority, id: CapabilityId, now: int)
    requires Valid(a) && id in a.capabilities && Lapse(a.capabilities[id], now).None?
    ensures var chain := Chain(ParentsOf(a.capabilities), id);
      && chain != [] && (forall x :: x in chain ==> x in a.capabilities)
      && var barred := FirstLapsed(a.capabilities, chain[1..], now);
         barred.Some? ==> a.capabilities[barred.value].status != Active
  {
    LoadAncestorsIsChain(a, id);
    ChainStarts(a, id);
    var chain := Chain(ParentsOf(a.capabilities), id);
    hide Valid, Chain, Lapse, LoadAncestors;
    FirstLapsedIsFirst(a.capabilities, chain[1..], now);
    if FirstLapsed(a.capabilities, chain[1..], now).Some? {
      var k :| FirstLapsedAt(a.capabilities, chain[1..], now, k);
      ShiftFirstLapsed(a.capabilities, chain, now, k);
      LapsedAncestorIsStored(a, id, now, k + 1);
    }
  }

  /** A refusal meets an active row that lapsed only as the used capability itself, and then it has expired. */
  lemma RefusalMeets(a: Authority, id: CapabilityId, u: CapabilityUse, now: int)
    requires Valid(a) && id in a.capabilities && Evaluate(a, id, u, now).Deny?
    ensures var e := Evaluate(a, id, u, now);
      if e.reason == ExpiredHandle then e.lapsed == Some(id) && Lapse(a.capabilities[id], now) == Some(Expired)
      else e.lapsed.Some? ==> a.capabilities[e.lapsed.value].status != Active
  {
    assert SaneRow(a.policies, a.capabilities[id]);
    LoadAncestorsIsChain(a, id);
    hide Valid, LoadAncestors;
    if Lapse(a.capabilities[id], now).None? {
      LapsedIsStored(a, id, now);
      hide Chain, Lapse, FirstLapsed;
    }
  }

  lemma ExpiredRowCanBeMarked(a: Authority, x: CapabilityId, now: int)
    requires Valid(a) && x in a.capabilities && Lapse(a.capabilities[x], now).Some?
    ensures Mark(a, x, Lapse(a.capabilities[x], now).value, now).Ok?
  {
    assert SaneRow(a.policies, a.capabilities[x]);
  }

  lemma DeniedUseLeaves(a: Authority, id: CapabilityId, hash: Hash, u: CapabilityUse, clock: int)
    requires Valid(a) && ValidUse(u) && 0 <= clock && Named(a, hash) == Some(id) && Evaluate(a, id, u, clock).Deny?
    ensures var r := AuthorizeInTransaction(a, hash, u, clock);
      r.Ok? && r.value.1 == Decision(Answer(a, hash, u, clock), Some(id)) && Leaves(a, hash, u, clock, r.value.0)
  {
    var e := Evaluate(a, id, u, clock);
    if e.lapsed.Some? && Lapse(a.capabilities[e.lapsed.value], clock).Some? {
      ExpiredRowCanBeMarked(a, e.lapsed.value, clock);
    }
    RefusalMeets(a, id, u, clock);
    hide Evaluate, Valid, ValidUse, Chain, Lapse;
    assert a.capabilities[id := a.capabilities[id]] == a.capabilities;
  }

  lemma AllowedUseWrites(a: Authority, id: CapabilityId, hash: Hash, u: CapabilityUse, clock: int)
    requires ValidUse(u) && 0 <= clock && Named(a, hash) == Some(id) && Evaluate(a, id, u, clock).Allow?
    requires AuthorizeInTransaction(a, hash, u, clock).Ok?
    ensures var (b, d) := AuthorizeInTransaction(a, hash, u, clock).value;
      && d == Decision(Allowed, Some(id))
      && b == a.(capabilities := b.capabilities, authorizations := b.authorizations, decisions := b.decisions)
      && b.authorizations == a.authorizations + [Authorization(id, u.requestId, u.requestHash, u.budgetUnits, clock)]
      && b.decisions == a.decisions + [DecisionRow(Some(id), hash, u, Allowed, clock)]
  {
    hide Evaluate, ValidUse, ConsumeAll, LoadAncestors;
  }

  lemma AllowedUseLeaves(a: Authority, id: CapabilityId, hash: Hash, u: CapabilityUse, clock: int)
    requires Valid(a) && ValidUse(u) && 0 <= clock && Named(a, hash) == Some(id) && Evaluate(a, id, u, clock).Allow?
    ensures var r := AuthorizeInTransaction(a, hash, u, clock);
      && (r.Ok? <==> IssuedBy(a, id, clock))
      && (r.Ok? ==> r.value.1 == Decision(Allowed, Some(id)) && Leaves(a, hash, u, clock, r.value.0))
  {
    hide Evaluate, Valid, ValidUse, ChargedAlong, LoadAncestors, AuthorizeInTransaction, Chargeable, Chain;
    EvaluateAllows(a, id, u, clock);
    AllowedUse(a, id, hash, u, clock);
    if AuthorizeInTransaction(a, hash, u, clock).Ok? { AllowedUseWrites(a, id, hash, u, clock); }
  }

  /**
   One use of a handle: when it is answered, with what, and everything it writes. The answer is the one the tables
   call for (`AnsweredExactlyWhen`); one decision is appended; an allowed use is charged to its whole chain and logged
   with its own request, hash and units; a refused one marks a row only to record that the used capability expired.
   */
  lemma UseAnsweredExactlyWhen(a: Authority, hash: Hash, u: CapabilityUse, clock: int)
    requires Valid(a)
    ensures var r := Transact(a, OpUse(hash, u, clock));
      && (r.Ok? <==> Answerable(a, hash, u, clock))
      && (r.Ok? ==>
           && r.value.1 == Decided(Decision(Answer(a, hash, u, clock), Named(a, hash)))
           && Leaves(a, hash, u, clock, r.value.0))
  {
    var id := Named(a, hash);
    if ValidUse(u) && 0 <= clock && id.Some? {
      hide Valid, ValidUse, AuthorizeInTransaction, Leaves, IssuedBy, Evaluate;
      if Evaluate(a, id.value, u, clock).Allow? {
        AllowedUseLeaves(a, id.value, hash, u, clock);
      } else {
        DeniedUseLeaves(a, id.value, hash, u, clock);
      }
    } else {
      hide Valid, ValidUse, Evaluate, ChargedAlong, Chain;
    }
  }

  // ---------------------------------------------------------------- why a call fails

  /** The texts and limits of a request hold. */
  predicate FieldsFit(request: IssueRequest) {
    && Text.IsTrimmedField(request.scope.subject, 255) && Text.IsTrimmedField(request.scope.action, 255)
    && Text.IsTrimmedField(request.scope.resource, 2048)
    && InLimits(request.maxUses) && InLimits(request.budgetUnits)
  }

  /** Why a request is not taken up. */
  predicate Unacceptable(request: IssueRequest, now: int, e: Error) {
    match e
    case InvalidClock => now < 0
    case InvalidExpiration =>
      0 <= now && FieldsFit(request) && request.expiresAt.Some? && request.expiresAt.value <= now
    case InvalidField =>
      && 0 <= now
      && (FieldsFit(request) ==>
            && (request.expiresAt.Some? ==> now < request.expiresAt.value)
            && request.policyRevision > 0x7FFF_FFFF_FFFF_FFFF)
    case _ => false
  }

  /** The identifier or the handle is taken, or the branch does not exist. */
  predicate Clashes(a: Authority, request: IssueRequest, id: CapabilityId, hash: Hash) {
    id in a.capabilities || hash in a.handles || request.scope.at !in a.branches
  }

  /** The request asks for the parent's own scope and policy and for no more than is left of it. */
  predicate Within(p: Capability, request: IssueRequest) {
    && p.scope == request.scope && p.policyRevision == request.policyRevision
    && NoWider(request.maxUses, p.remainingUses) && NoWider(request.budgetUnits, p.remainingBudget)
    && NoWider(request.expiresAt, p.expiresAt)
  }

  /** Why an acceptable request is not delegated. */
  ghost predicate Undelegable(a: Authority, parent: Option<CapabilityId>, request: IssueRequest, now: int, e: Error)
    requires parent.Some? ==> parent.value in a.capabilities
  {
    if parent.None? then e == UnknownParentCapability
    else
      var p, usable := a.capabilities[parent.value], ChainUsable(a, parent.value, now);
      match e
      case InactiveParentCapability =>
        !usable || (Within(p, request) && p.scope.at in a.policies && a.policies[p.scope.at] != p.policyRevision)
      case AttenuationWouldWiden => usable && !Within(p, request)
      case PolicyNotInitialized => usable && Within(p, request) && p.scope.at !in a.policies
      case _ => false
  }

  predicate PolicyFailsAs(a: Authority, at: BranchKey, revision: nat, clock: int, e: Error) {
    match e
    case InvalidField => revision > 0x7FFF_FFFF_FFFF_FFFF
    case InvalidClock => revision <= 0x7FFF_FFFF_FFFF_FFFF && clock < 0
    case PolicyRevisionRollback =>
      revision <= 0x7FFF_FFFF_FFFF_FFFF && 0 <= clock && at in a.policies && revision < a.policies[at]
    case Database => revision <= 0x7FFF_FFFF_FFFF_FFFF && 0 <= clock && at !in a.policies && at !in a.branches
    case _ => false
  }

  predicate IssueFailsAs(a: Authority, request: IssueRequest, id: CapabilityId, hash: Hash, clock: int, e: Error) {
    if !Acceptable(request, clock) then Unacceptable(request, clock, e)
    else if request.scope.at !in a.policies then e == PolicyNotInitialized
    else if a.policies[request.scope.at] != request.policyRevision then e == PolicyNotCurrent
    else e == Database && Clashes(a, request, id, hash)
  }

  ghost predicate AttenuateFailsAs(a: Authority, parent: Option<CapabilityId>, request: IssueRequest,
                                   id: CapabilityId, hash: Hash, clock: int, e: Error)
    requires parent.Some? ==> parent.value in a.capabilities
  {
    if !Acceptable(request, clock) then Unacceptable(request, clock, e)
    else if parent.None? || !Delegable(a, parent.value, request, clock) then
      Undelegable(a, parent, request, clock, e)
    else e == Database && Clashes(a, request, id, hash)
  }

  /** A revocation of the capability `x`, or of nothing stored. */
  predicate RevokeFailsAs(a: Authority, x: Option<CapabilityId>, unknown: Error, clock: int, e: Error) {
    if clock < 0 then e == InvalidClock
    else if x.None? then e == unknown
    else e == Database && NotYetIssued(a, x.value, clock)
  }

  ghost predicate UseFailsAs(a: Authority, hash: Hash, u: CapabilityUse, clock: int, e: Error) {
    match e
    case InvalidField => !ValidUse(u)
    case InvalidClock => ValidUse(u) && clock < 0
    case Database => ValidUse(u) && 0 <= clock && !Answerable(a, hash, u, clock)
    case _ => false
  }

  /** What each error of each call says about the tables before it. */
  ghost predicate FailsAs(a: Authority, op: Operation, e: Error) {
    match op
    case OpSetPolicy(at, revision, clock) => PolicyFailsAs(a, at, revision, clock, e)
    case OpIssue(request, id, hash, clock) => IssueFailsAs(a, request, id, hash, clock, e)
    case OpAttenuate(parentHash, request, id, hash, clock) =>
      AttenuateFailsAs(a, Named(a, parentHash), request, id, hash, clock, e)
    case OpRevoke(hash, clock) => RevokeFailsAs(a, Named(a, hash), UnknownParentCapability, clock, e)
    case OpRevokeById(id, clock) =>
      RevokeFailsAs(a, if id in a.capabilities then Some(id) else None, CapabilityNotFound, clock, e)
    case OpUse(hash, u, clock) => UseFailsAs(a, hash, u, clock, e)
  }

  predicate NotYetIssued(a: Authority, id: CapabilityId, clock: int) {
    id in a.capabilities && a.capabilities[id].status == Active && clock < a.capabilities[id].issuedAt
  }

  lemma ValidationFailsAs(request: IssueRequest, now: int, e: Error)
    requires 0 <= now && !Acceptable(request, now)
    ensures ValidateIssue(request, now) == Err(e) <==> Unacceptable(request, now, e)
  {
    hide Text.IsTrimmedField;
  }

  /** What a delegation under a usable chain is told. */
  function UnderUsableChain(a: Authority, p: Capability, request: IssueRequest): Result<Unit, Error> {
    if !Within(p, request) then Err(AttenuationWouldWiden)
    else if p.scope.at !in a.policies then Err(PolicyNotInitialized)
    else if a.policies[p.scope.at] != p.policyRevision then Err(InactiveParentCapability)
    else Ok(Unit)
  }

  /** The order of the two looks at the chain does not matter: it is usable as a whole, or the parent is inactive. */
  lemma AttenuationIs(a: Authority, parent: CapabilityId, request: IssueRequest, now: int)
    requires Valid(a) && parent in a.capabilities
    ensures ValidateAttenuation(a, parent, request, now)
      == if !ChainUsable(a, parent, now) then Err(InactiveParentCapability)
         else UnderUsableChain(a, a.capabilities[parent], request)
  {
    LoadAncestorsIsChain(a, parent);
    ChainStarts(a, parent);
    hide Valid, LoadAncestors, Lapse, Usable, Chain, FirstLapsed, ParentsOf;
    var chain := LoadAncestors(a, parent);
    ChainClear(a.capabilities, chain, now);
    assert ChainUsable(a, parent, now) <==> forall x :: x in chain ==> Usable(a.capabilities[x], now);
    hide ChainUsable;
  }

  lemma DelegationFailsAs(a: Authority, parent: CapabilityId, request: IssueRequest, now: int, e: Error)
    requires Valid(a) && parent in a.capabilities && !Delegable(a, parent, request, now)
    ensures ValidateAttenuation(a, parent, request, now) == Err(e) <==> Undelegable(a, Some(parent), request, now, e)
  {
    AttenuationIs(a, parent, request, now);
    DelegationMeans(a, parent, request, now);
    hide Valid, ValidateAttenuation, Delegable, ChainUsable, Within;
  }

  lemma PolicyErrorsTellWhy(a: Authority, at: BranchKey, revision: nat, clock: int, e: Error)
    ensures Transact(a, OpSetPolicy(at, revision, clock)) == Err(e) <==> PolicyFailsAs(a, at, revision, clock, e)
  {
  }

  lemma IssueErrorsTellWhy(a: Authority, request: IssueRequest, id: CapabilityId, hash: Hash, clock: int, e: Error)
    ensures Transact(a, OpIssue(request, id, hash, clock)) == Err(e) <==> IssueFailsAs(a, request, id, hash, clock, e)
  {
    ValidationMeans(request, clock);
    if 0 <= clock && !Acceptable(request, clock) { ValidationFailsAs(request, clock, e); }
    assert clock < 0 ==> !Acceptable(request, clock) && (Unacceptable(request, clock, e) <==> e == InvalidClock);
    hide ValidateIssue, Acceptable, Unacceptable;
  }

  lemma RevokeErrorsTellWhy(a: Authority, op: Operation, e: Error)
    requires op.OpRevoke? || op.OpRevokeById?
    ensures Transact(a, op) == Err(e) <==> FailsAs(a, op, e)
  {
    hide AttenuateFailsAs, UseFailsAs, IssueFailsAs, PolicyFailsAs, Issue, Attenuate, AuthorizeInTransaction;
  }

  lemma UseReplies(a: Authority, hash: Hash, u: CapabilityUse, clock: int)
    ensures var r, t := AuthorizeInTransaction(a, hash, u, clock), Transact(a, OpUse(hash, u, clock));
      && (r.Ok? <==> t.Ok?) && (r.Ok? ==> t.value == (r.value.0, Decided(r.value.1)))
      && (r.Err? ==> t.error == r.error)
  {
    hide AuthorizeInTransaction;
  }

  /** Only a charge can fail inside the database, and only on a row of a later date. */
  lemma UseErrorsTellWhy(a: Authority, hash: Hash, u: CapabilityUse, clock: int, e: Error)
    requires Valid(a)
    ensures Transact(a, OpUse(hash, u, clock)) == Err(e) <==> UseFailsAs(a, hash, u, clock, e)
  {
    UseAnsweredExactlyWhen(a, hash, u, clock);
    UseReplies(a, hash, u, clock);
    if AuthorizeInTransaction(a, hash, u, clock).Err? { UseErrors(a, hash, u, clock); }
    assert Answerable(a, hash, u, clock) ==> ValidUse(u) && 0 <= clock;
    hide Valid, Answerable, Answer, Leaves, AuthorizeInTransaction, ValidUse, Transact;
  }

  lemma UseErrors(a: Authority, hash: Hash, u: CapabilityUse, clock: int)
    requires Valid(a) && AuthorizeInTransaction(a, hash, u, clock).Err?
    ensures AuthorizeInTransaction(a, hash, u, clock)
      == Err(if !ValidUse(u) then InvalidField else if clock < 0 then InvalidClock else Database)
  {
    hide Valid, ValidUse, Evaluate, ConsumeAll, ChargedAlong, Chain, LoadAncestors;
    var id := Named(a, hash);
    if ValidUse(u) && 0 <= clock && id.Some? && Evaluate(a, id.value, u, clock).Allow? {
      AllowedUse(a, id.value, hash, u, clock);
    }
  }

  /** How a delegation is made of its parts. */
  lemma DelegationParts(a: Authority, parentHash: Hash, request: IssueRequest, id: CapabilityId, hash: Hash, clock: int,
                        e: Error)
    ensures var op, valid := OpAttenuate(parentHash, request, id, hash, clock), ValidateIssue(request, clock);
      var r := Transact(a, op);
      if clock < 0 then r == Err(InvalidClock)
      else if valid.Err? then r == Err(valid.error)
      else if Named(a, parentHash).None? then r == Err(UnknownParentCapability)
      else
        var narrower := ValidateAttenuation(a, Named(a, parentHash).value, request, clock);
        if narrower.Err? then r == Err(narrower.error)
        else r == Err(e) <==> e == Database && Clashes(a, request, id, hash)
  {
    hide ValidateIssue, ValidateAttenuation;
  }

  lemma DelegationErrorsTellWhy(a: Authority, parentHash: Hash, request: IssueRequest, id: CapabilityId, hash: Hash,
                                clock: int, e: Error)
    requires Valid(a)
    ensures Transact(a, OpAttenuate(parentHash, request, id, hash, clock)) == Err(e)
      <==> AttenuateFailsAs(a, Named(a, parentHash), request, id, hash, clock, e)
  {
    DelegationParts(a, parentHash, request, id, hash, clock, e);
    ValidationMeans(request, clock);
    assert clock < 0 ==> !Acceptable(request, clock) && (Unacceptable(request, clock, e) <==> e == InvalidClock);
    hide Valid, ValidateIssue, Acceptable, Unacceptable, ValidateAttenuation, Delegable, Transact, Clashes;
    var parent := Named(a, parentHash);
    assert parent.None? ==> (Undelegable(a, parent, request, clock, e) <==> e == UnknownParentCapability);
    hide Undelegable;
    if !Acceptable(request, clock) {
      if 0 <= clock { ValidationFailsAs(request, clock, e); }
    } else if parent.Some? {
      DelegationMeans(a, parent.value, request, clock);
      if !Delegable(a, parent.value, request, clock) { DelegationFailsAs(a, parent.value, request, clock, e); }
    }
  }

  /** Every failing call says why: an error is returned exactly when the tables call for it. */
  lemma ErrorsTellWhy(a: Authority, op: Operation, e: Error)
    requires Valid(a)
    ensures Transact(a, op) == Err(e) <==> FailsAs(a, op, e)
  {
    hide Valid, Transact, PolicyFailsAs, IssueFailsAs, AttenuateFailsAs, RevokeFailsAs, UseFailsAs;
    match op
    case OpSetPolicy(at, revision, clock) => PolicyErrorsTellWhy(a, at, revision, clock, e);
    case OpIssue(request, id, hash, clock) => IssueErrorsTellWhy(a, request, id, hash, clock, e);
    case OpAttenuate(parentHash, request, id, hash, clock) =>
      DelegationErrorsTellWhy(a, parentHash, request, id, hash, clock, e);
    case OpRevoke(_, _) => RevokeErrorsTellWhy(a, op, e);
    case OpRevokeById(_, _) => RevokeErrorsTellWhy(a, op, e);
    case OpUse(hash, u, clock) => UseErrorsTellWhy(a, hash, u, clock, e);
  }
}
