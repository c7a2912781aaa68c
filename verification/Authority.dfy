/** What every transaction of the capability authority keeps. */
module AuthorityInvariant {
  import opened Wrappers
  import opened Capabilities
  import opened Delegation

  type Rows = map<CapabilityId, Capability>

  // ---------------------------------------------------------------- the invariant

  ghost predicate Linked(a: Authority) {
    && (forall h :: h in a.handles ==> a.handles[h] in a.capabilities)
    && (forall b :: b in a.policies ==> b in a.branches)
    && Rooted(ParentsOf(a.capabilities))
  }

  ghost predicate IsChainPosition(p: Parents, r: AncestryRow) {
    r.capability in p && r.depth < |Chain(p, r.capability)| && r.ancestor == Chain(p, r.capability)[r.depth]
  }

  /** The closure table lists exactly the members of each delegation chain, each at its position. */
  ghost predicate AncestryAgrees(p: Parents, ancestry: set<AncestryRow>) {
    forall r {:trigger r in ancestry} {:trigger IsChainPosition(p, r)} :: r in ancestry <==> IsChainPosition(p, r)
  }

  /** A delegated capability has its parent's scope and policy revision and no later expiry or larger grant. */
  ghost predicate NarrowsParent(child: Capability, parent: Capability) {
    && child.scope == parent.scope
    && child.policyRevision == parent.policyRevision
    && Narrows(child.expiresAt, parent.expiresAt)
    && Narrows(child.maxUses, parent.maxUses)
    && Narrows(child.budget, parent.budget)
  }

  ghost predicate NarrowRow(caps: Rows, x: CapabilityId) {
    x in caps && caps[x].parent.Some? ==>
      caps[x].parent.value in caps && NarrowsParent(caps[x], caps[caps[x].parent.value])
  }

  ghost predicate Narrowing(caps: Rows) {
    forall x {:trigger NarrowRow(caps, x)} :: NarrowRow(caps, x)
  }

  /** Counters are never negative, and a row is consumed exactly when one of them is exhausted. */
  ghost predicate SaneRow(policies: map<BranchKey, int>, c: Capability) {
    && CountersNonnegative(c)
    && (c.status == Consumed <==> c.remainingUses == Some(0) || c.remainingBudget == Some(0))
    && (c.status == Expired ==> c.expiresAt.Some?)
    && 0 <= c.issuedAt && (c.expiresAt.Some? ==> c.issuedAt < c.expiresAt.value)
    && c.scope.at in policies && c.policyRevision <= policies[c.scope.at]
  }

  ghost predicate Sane(policies: map<BranchKey, int>, caps: Rows) {
    forall x {:trigger caps[x]} :: x in caps ==> SaneRow(policies, caps[x])
  }

  ghost predicate Balanced(limit: Option<int>, remaining: Option<int>, spent: int) {
    && (limit.None? <==> remaining.None?)
    && (limit.Some? ==> limit.value == remaining.value + spent)
  }

  ghost predicate ConservesRow(p: Parents, caps: Rows, log: seq<Authorization>, x: CapabilityId) {
    x in caps ==>
      && Balanced(caps[x].maxUses, caps[x].remainingUses, UsesBelow(p, log, x))
      && Balanced(caps[x].budget, caps[x].remainingBudget, SpentBelow(p, log, x))
  }

  /** What was granted is what remains plus what the whole subtree has spent. */
  ghost predicate Conserves(p: Parents, caps: Rows, log: seq<Authorization>) {
    forall x {:trigger ConservesRow(p, caps, log, x)} :: ConservesRow(p, caps, log, x)
  }

  /** Authorization rows name existing capabilities, and no request is authorized twice by one of them. */
  ghost predicate Logged(p: Parents, log: seq<Authorization>) {
    && (forall r :: r in log ==> r.capability in p && r.budgetUnits >= 1)
    && (forall i, j :: 0 <= i < j < |log| ==>
          log[i].capability != log[j].capability || log[i].requestId != log[j].requestId)
  }

  /** The authorization that an allow decision stands for. */
  function Granted(d: DecisionRow): seq<Authorization> {
    if d.reason == Allowed && d.capability.Some?
    then [Authorization(d.capability.value, d.request.requestId, d.request.requestHash, d.request.budgetUnits, d.at)]
    else []
  }

  /** The authorizations that the allow decisions of an audit log stand for, in order. */
  function GrantedBy(log: seq<DecisionRow>): seq<Authorization> {
    if log == [] then [] else GrantedBy(log[..|log| - 1]) + Granted(log[|log| - 1])
  }

  ghost predicate Valid(a: Authority) {
    var p := ParentsOf(a.capabilities);
    && Linked(a)
    && AncestryAgrees(p, a.ancestry)
    && Narrowing(a.capabilities)
    && Sane(a.policies, a.capabilities)
    && Conserves(p, a.capabilities, a.authorizations)
    && Logged(p, a.authorizations)
    && GrantedBy(a.decisions) == a.authorizations
  }

  lemma EmptyValid(branches: set<BranchKey>)
    ensures Valid(Empty(branches))
  {
  }

  // ---------------------------------------------------------------- the ancestry query

  ghost predicate IsIndexed(rows: set<AncestryRow>, id: CapabilityId, s: seq<CapabilityId>, k: nat) {
    forall r {:trigger r in rows} ::
      r in rows <==> r.capability == id && k <= r.depth < |s| && r.ancestor == s[r.depth]
  }

  lemma IndexedTail(rows: set<AncestryRow>, id: CapabilityId, s: seq<CapabilityId>, k: nat)
    requires k < |s| && IsIndexed(rows, id, s, k)
    ensures var first := AncestryRow(id, s[k], k);
      && first in rows && IsIndexed(rows - {first}, id, s, k + 1)
      && forall r :: IsShallowest(r, rows) ==> r == first
  {
    var first := AncestryRow(id, s[k], k);
    assert first in rows;
  }

  lemma ByDepthUnfolds(rows: set<AncestryRow>)
    requires rows != {}
    ensures exists r :: IsShallowest(r, rows) && ByDepth(rows) == [r] + ByDepth(rows - {r})
  {
    ShallowestExists(rows);
  }

  lemma {:induction false} ByDepthOfIndexedRows(rows: set<AncestryRow>, id: CapabilityId, s: seq<CapabilityId>, k: nat)
    requires k <= |s| && IsIndexed(rows, id, s, k)
    ensures Ancestors(ByDepth(rows)) == s[k..]
    decreases |s| - k
  {
    IndexedExhausted(rows, id, s, k);
    if k < |s| {
      IndexedTail(rows, id, s, k);
      hide IsIndexed, IsShallowest, ByDepth;
      var first := AncestryRow(id, s[k], k);
      ByDepthUnfolds(rows);
      ByDepthOfIndexedRows(rows - {first}, id, s, k + 1);
      AncestorsOfMore(first, ByDepth(rows - {first}));
      hide Ancestors;
      assert s[k..] == [s[k]] + s[k + 1..];
      assert ByDepth(rows) == [first] + ByDepth(rows - {first});
    } else {
      assert rows == {} && s[k..] == [];
    }
  }

  lemma AncestorsOfMore(r: AncestryRow, rest: seq<AncestryRow>)
    ensures Ancestors([r] + rest) == [r.ancestor] + Ancestors(rest)
  {
  }

  /** The rows that `load_ancestors` selects are the positions of the delegation chain. */
  lemma AncestorRowsAreIndexed(a: Authority, id: CapabilityId)
    requires id in a.capabilities
    requires AncestryAgrees(ParentsOf(a.capabilities), a.ancestry)
    ensures IsIndexed(AncestorRows(a, id), id, Chain(ParentsOf(a.capabilities), id), 0)
  {
    var p := ParentsOf(a.capabilities);
    var s, rows := Chain(p, id), AncestorRows(a, id);
    forall r ensures r in rows <==> r.capability == id && 0 <= r.depth < |s| && r.ancestor == s[r.depth] {
      assert r in a.ancestry <==> IsChainPosition(p, r);
    }
  }

  lemma IndexedExhausted(rows: set<AncestryRow>, id: CapabilityId, s: seq<CapabilityId>, k: nat)
    requires k <= |s| && IsIndexed(rows, id, s, k)
    ensures rows == {} <==> k == |s|
  {
    if k < |s| {
      IndexedTail(rows, id, s, k);
    }
  }

  /** `load_ancestors` returns the delegation chain: self, parent, up to the root. */
  lemma LoadAncestorsIsChain(a: Authority, id: CapabilityId)
    requires id in a.capabilities
    requires AncestryAgrees(ParentsOf(a.capabilities), a.ancestry)
    ensures LoadAncestors(a, id) == Chain(ParentsOf(a.capabilities), id)
  {
    AncestorRowsAreIndexed(a, id);
    ByDepthOfIndexedRows(AncestorRows(a, id), id, Chain(ParentsOf(a.capabilities), id), 0);
  }

  // ---------------------------------------------------------------- inserting a capability

  lemma InsertKeepsAncestry(p: Parents, ancestry: set<AncestryRow>, id: CapabilityId, parent: Option<CapabilityId>)
    requires Rooted(p) && AncestryAgrees(p, ancestry) && id !in p
    requires parent.Some? ==> parent.value in p
    ensures AncestryAgrees(p[id := parent], ancestry + Inherited(ancestry, id, parent) + {AncestryRow(id, id, 0)})
  {
    var q := p[id := parent];
    var after := ancestry + Inherited(ancestry, id, parent) + {AncestryRow(id, id, 0)};
    RootedExtends(p, id, parent);
    forall r ensures r in after <==> IsChainPosition(q, r) {
      assert r in ancestry <==> IsChainPosition(p, r);
      if r.capability == id && parent.Some? && r.depth > 0 {
        var up := AncestryRow(parent.value, r.ancestor, r.depth - 1);
        assert up in ancestry <==> IsChainPosition(p, up);
        assert r in Inherited(ancestry, id, parent) <==> up in ancestry;
      }
    }
  }

  lemma InsertKeepsAccounts(p: Parents, caps: Rows, log: seq<Authorization>, id: CapabilityId, c: Capability)
    requires Rooted(p) && id !in p && id !in caps && Logged(p, log) && Conserves(p, caps, log)
    requires c.parent.Some? ==> c.parent.value in p
    requires c.remainingUses == c.maxUses && c.remainingBudget == c.budget
    ensures Conserves(p[id := c.parent], caps[id := c], log)
  {
    var q, caps' := p[id := c.parent], caps[id := c];
    forall x ensures ConservesRow(q, caps', log, x) {
      assert ConservesRow(p, caps, log, x);
      SpendingExtends(p, id, c.parent, log, x);
    }
  }

  lemma InsertKeepsNarrowing(caps: Rows, id: CapabilityId, c: Capability)
    requires Narrowing(caps) && id !in caps
    requires c.parent.Some? ==> c.parent.value in caps && NarrowsParent(c, caps[c.parent.value])
    ensures Narrowing(caps[id := c])
  {
    var caps' := caps[id := c];
    forall x ensures NarrowRow(caps', x) {
      assert NarrowRow(caps, x);
    }
  }

  lemma InsertKeepsValid(a: Authority, id: CapabilityId, hash: Hash, c: Capability)
    requires Valid(a)
    requires c.parent.Some? ==>
      c.parent.value in a.capabilities && NarrowsParent(c, a.capabilities[c.parent.value])
    requires c.remainingUses == c.maxUses && c.remainingBudget == c.budget
    requires c.status == Active && SaneRow(a.policies, c)
    requires Insert(a, id, hash, c).Ok?
    ensures Valid(Insert(a, id, hash, c).value)
  {
    hide AncestryAgrees, Conserves, Narrowing;
    var p := ParentsOf(a.capabilities);
    assert ParentsOf(a.capabilities[id := c]) == p[id := c.parent];
    InsertKeepsAncestry(p, a.ancestry, id, c.parent);
    InsertKeepsAccounts(p, a.capabilities, a.authorizations, id, c);
    InsertKeepsNarrowing(a.capabilities, id, c);
    RootedExtends(p, id, c.parent);
  }

  // ---------------------------------------------------------------- changing rows in place

  /** Rows that differ only in status and counters. */
  ghost predicate SameShape(caps: Rows, caps': Rows) {
    && caps'.Keys == caps.Keys
    && forall x {:trigger caps'[x]} :: x in caps ==>
         caps'[x] == caps[x].(status := caps'[x].status, remainingUses := caps'[x].remainingUses,
                              remainingBudget := caps'[x].remainingBudget)
  }

  lemma SameShapeKeeps(caps: Rows, caps': Rows)
    requires Narrowing(caps) && SameShape(caps, caps')
    ensures ParentsOf(caps') == ParentsOf(caps)
    ensures Narrowing(caps')
  {
    assert ParentsOf(caps') == ParentsOf(caps) by {
      assert forall x :: x in caps ==> caps'[x].parent == caps[x].parent;
    }
    forall x ensures NarrowRow(caps', x) {
      assert NarrowRow(caps, x);
    }
  }

  /** Only statuses changed, and only from active to revoked or to expired. */
  ghost predicate Barred(caps: Rows, id: CapabilityId, status: Status, caps': Rows) {
    && id in caps && caps[id].status == Active
    && (status == Revoked || (status == Expired && caps[id].expiresAt.Some?))
    && caps' == caps[id := caps[id].(status := status)]
  }

  lemma BarredKeepsAccounts(p: Parents, caps: Rows, log: seq<Authorization>, id: CapabilityId, status: Status,
                            caps': Rows)
    requires Conserves(p, caps, log) && Barred(caps, id, status, caps')
    ensures Conserves(p, caps', log)
  {
    forall x ensures ConservesRow(p, caps', log, x) {
      assert ConservesRow(p, caps, log, x);
    }
  }

  lemma MarkKeepsValid(a: Authority, id: CapabilityId, status: Status, caps': Rows)
    requires Valid(a) && Barred(a.capabilities, id, status, caps')
    ensures Valid(a.(capabilities := caps'))
  {
    hide AncestryAgrees, Conserves, Narrowing, Logged, GrantedBy;
    SameShapeKeeps(a.capabilities, caps');
    BarredKeepsAccounts(ParentsOf(a.capabilities), a.capabilities, a.authorizations, id, status, caps');
  }

  lemma PolicyKeepsValid(a: Authority, at: BranchKey, revision: nat, clock: int)
    requires Valid(a) && SetPolicyRevision(a, at, revision, clock).Ok?
    ensures Valid(SetPolicyRevision(a, at, revision, clock).value)
  {
  }

  // ---------------------------------------------------------------- charging a chain

  /** Every member of the chain is charged once, everything else is untouched. */
  ghost predicate ChargedAlong(caps: Rows, ids: seq<CapabilityId>, units: int, caps': Rows) {
    && caps'.Keys == caps.Keys
    && forall x {:trigger caps'[x]} :: x in caps ==> caps'[x] == if x in ids then Charged(caps[x], units) else caps[x]
  }

  /** Active rows whose counters cover a charge. */
  ghost predicate Chargeable(caps: Rows, ids: seq<CapabilityId>, units: int) {
    forall x :: x in ids ==> x in caps && caps[x].status == Active && CountersNonnegative(Charged(caps[x], units))
  }

  /**
   The charging loop over distinct chargeable rows succeeds unless the clock reads earlier than some member's issue,
   and then it has charged the whole chain.
   */
  lemma {:induction false} ConsumeAllCharges(caps: Rows, ids: seq<CapabilityId>, loaded: Rows, units: int, now: int)
    requires Distinct(ids) && Chargeable(caps, ids, units)
    requires forall x :: x in ids ==> x in loaded && caps[x] == loaded[x]
    ensures ConsumeAll(caps, ids, loaded, units, now).Ok? <==> forall x :: x in ids ==> caps[x].issuedAt <= now
    ensures ConsumeAll(caps, ids, loaded, units, now).Ok? ==>
      ChargedAlong(caps, ids, units, ConsumeAll(caps, ids, loaded, units, now).value)
    ensures ConsumeAll(caps, ids, loaded, units, now).Err? ==>
        ConsumeAll(caps, ids, loaded, units, now).error == Database
    decreases |ids|
  {
    if ids != [] {
      var x, rest := ids[0], ids[1..];
      assert ids == [x] + rest;
      if caps[x].issuedAt <= now {
        var caps' := caps[x := Charged(caps[x], units)];
        assert ConsumeCounter(caps, x, loaded[x], units, now) == Ok(caps');
        assert forall y :: y in rest ==> y != x && caps'[y] == caps[y];
        ConsumeAllCharges(caps', rest, loaded, units, now);
      }
    }
  }

  lemma ChargeKeepsAccounts(p: Parents, caps: Rows, log: seq<Authorization>, row: Authorization, caps': Rows)
    requires Conserves(p, caps, log)
    requires ChargedAlong(caps, Chain(p, row.capability), row.budgetUnits, caps')
    ensures Conserves(p, caps', log + [row])
  {
    forall x ensures ConservesRow(p, caps', log + [row], x) {
      assert ConservesRow(p, caps, log, x);
      SpendingAppends(p, log, row, x);
    }
  }

  lemma ChargeKeepsValid(a: Authority, caps': Rows, row: Authorization, d: DecisionRow)
    requires Valid(a) && row.capability in a.capabilities && row.budgetUnits >= 1
    requires Chargeable(a.capabilities, Chain(ParentsOf(a.capabilities), row.capability), row.budgetUnits)
    requires ChargedAlong(a.capabilities, Chain(ParentsOf(a.capabilities), row.capability), row.budgetUnits, caps')
    requires !AlreadyAuthorized(a.authorizations, row.capability, row.requestId)
    requires Granted(d) == [row]
    ensures Valid(a.(capabilities := caps', authorizations := a.authorizations + [row], decisions := a.decisions + [d]))
  {
    assert SameShape(a.capabilities, caps');
    hide AncestryAgrees, Conserves, Narrowing, Logged, Sane, GrantedBy, Chargeable, ChargedAlong, SameShape;
    SameShapeKeeps(a.capabilities, caps');
    ChargeKeepsAccounts(ParentsOf(a.capabilities), a.capabilities, a.authorizations, row, caps');
    LoggedAppends(ParentsOf(a.capabilities), a.authorizations, row);
    GrantedByAppends(a.decisions, d);
    ChargeKeepsSane(a.policies, a.capabilities, Chain(ParentsOf(a.capabilities), row.capability), row.budgetUnits,
      caps');
  }

  lemma LoggedAppends(p: Parents, log: seq<Authorization>, row: Authorization)
    requires Logged(p, log) && row.capability in p && row.budgetUnits >= 1
    requires !AlreadyAuthorized(log, row.capability, row.requestId)
    ensures Logged(p, log + [row])
  {
  }

  lemma ChargeKeepsSane(policies: map<BranchKey, int>, caps: Rows, ids: seq<CapabilityId>, units: int, caps': Rows)
    requires Sane(policies, caps) && Chargeable(caps, ids, units) && ChargedAlong(caps, ids, units, caps')
    ensures Sane(policies, caps')
  {
  }

  lemma GrantedByAppends(log: seq<DecisionRow>, d: DecisionRow)
    ensures GrantedBy(log + [d]) == GrantedBy(log) + Granted(d)
  {
    assert (log + [d])[..|log|] == log;
  }

  lemma RecordKeepsValid(a: Authority, d: DecisionRow)
    requires Valid(a) && Granted(d) == []
    ensures Valid(a.(decisions := a.decisions + [d]))
  {
    GrantedByAppends(a.decisions, d);
  }

  // ---------------------------------------------------------------- evaluating a use

  lemma ClearedChainIsChargeable(policies: map<BranchKey, int>, caps: Rows, chain: seq<CapabilityId>, units: int,
                                 now: int)
    requires Sane(policies, caps) && chain != []
    requires forall x :: x in chain ==> x in caps
    requires Lapse(caps[chain[0]], now).None? && FirstLapsed(caps, chain[1..], now).None?
    requires forall x :: x in chain ==> Affords(caps[x], units)
    ensures forall x :: x in chain ==> Lapse(caps[x], now).None?
    ensures Chargeable(caps, chain, units)
  {
    forall x | x in chain
      ensures Lapse(caps[x], now).None? && CountersNonnegative(Charged(caps[x], units))
    {
      assert x == chain[0] || x in chain[1..];
      assert SaneRow(policies, caps[x]);
    }
  }

  /** In a valid state an allowed use has the whole delegation chain cleared and able to pay. */
  lemma EvaluateAllows(a: Authority, id: CapabilityId, u: CapabilityUse, now: int)
    requires Valid(a) && id in a.capabilities
    requires Evaluate(a, id, u, now).Allow?
    ensures Evaluate(a, id, u, now).chain == Chain(ParentsOf(a.capabilities), id)
    ensures forall x :: x in Evaluate(a, id, u, now).chain ==> Lapse(a.capabilities[x], now).None?
    ensures Chargeable(a.capabilities, Evaluate(a, id, u, now).chain, u.budgetUnits)
    ensures !AlreadyAuthorized(a.authorizations, id, u.requestId)
  {
    hide LoadAncestors, Conserves, Logged, AncestryAgrees, Narrowing, Sane, Chargeable;
    LoadAncestorsIsChain(a, id);
    var chain := Evaluate(a, id, u, now).chain;
    ClearedChainIsChargeable(a.policies, a.capabilities, chain, u.budgetUnits, now);
  }
}
