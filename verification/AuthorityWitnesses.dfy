/** Concrete runs that show which stronger claims about the authority are false. */
module AuthorityWitnesses {
  import opened Wrappers
  import opened Capabilities
  import opened Delegation
  import opened AuthorityInvariant
  import opened AuthorityRuns

  const HOME: BranchKey := BranchKey("s", "b")
  const SCOPE: Scope := Scope(HOME, "u", "a", "r")

  function Grant(budget: nat, expiry: int): IssueRequest {
    IssueRequest(SCOPE, None, Some(budget), Some(expiry), 1)
  }

  function Spend(units: nat, digest: Hash): CapabilityUse {
    CapabilityUse(SCOPE, 1, units, "q", digest)
  }

  /**
   Policy installed; a root (1) with ten units and expiry 100, and below it a child (2) with eight units and expiry 50.
   */
  function Setup(root: Hash, child: Hash): seq<Operation> {
    [ OpSetPolicy(HOME, 1, 0),
      OpIssue(Grant(10, 100), 1, root, 0),
      OpAttenuate(root, Grant(8, 50), 2, child, 0) ]
  }

  lemma RunAppends(a: Authority, ops: seq<Operation>, op: Operation)
    ensures Run(a, ops + [op]) == Commit(Run(a, ops), op)
  {
    assert (ops + [op])[..|ops|] == ops;
  }

  function RootOnly(root: Hash): Authority {
    Authority({HOME}, map[HOME := 1], map[1 := NewCapability(Grant(10, 100), None, 0)], map[root := 1],
              {AncestryRow(1, 1, 0)}, [], [])
  }

  lemma RootIssued(root: Hash, child: Hash)
    requires root != child
    ensures Run(Empty({HOME}), Setup(root, child)[..2]) == RootOnly(root)
    ensures Valid(RootOnly(root))
  {
    var e := Empty({HOME});
    EmptyValid({HOME});
    RunAppends(e, [], Setup(root, child)[0]);
    RunAppends(e, [Setup(root, child)[0]], Setup(root, child)[1]);
    assert Setup(root, child)[..2] == [Setup(root, child)[0]] + [Setup(root, child)[1]];
    assert [] + [Setup(root, child)[0]] == [Setup(root, child)[0]];
    var policy := Run(e, [Setup(root, child)[0]]);
    assert policy == e.(policies := map[HOME := 1]);
    assert ValidateIssue(Grant(10, 100), 0) == Ok(Unit);
    assert Commit(policy, Setup(root, child)[1]) == RootOnly(root);
    RunKeepsValid(e, Setup(root, child)[..2]);
  }

  function RootAndChild(root: Hash, child: Hash): Authority {
    Authority({HOME}, map[HOME := 1],
              map[1 := NewCapability(Grant(10, 100), None, 0), 2 := NewCapability(Grant(8, 50), Some(1), 0)],
              map[root := 1, child := 2],
              {AncestryRow(1, 1, 0), AncestryRow(2, 2, 0), AncestryRow(2, 1, 1)}, [], [])
  }

  lemma DelegationIsValid(root: Hash, child: Hash)
    requires root != child
    ensures ValidateAttenuation(RootOnly(root), 1, Grant(8, 50), 0) == Ok(Unit)
  {
    RootIssued(root, child);
    LoadAncestorsIsChain(RootOnly(root), 1);
    assert Chain(ParentsOf(RootOnly(root).capabilities), 1) == [1];
  }

  lemma ChildInserted(root: Hash, child: Hash)
    requires root != child
    ensures Insert(RootOnly(root), 2, child, NewCapability(Grant(8, 50), Some(1), 0)) == Ok(RootAndChild(root, child))
  {
    var a, b := RootOnly(root), RootAndChild(root, child);
    assert Inherited(a.ancestry, 2, Some(1)) == {AncestryRow(2, 1, 1)};
    assert a.capabilities[2 := NewCapability(Grant(8, 50), Some(1), 0)] == b.capabilities;
    assert a.handles[child := 2] == b.handles;
    assert a.ancestry + {AncestryRow(2, 1, 1)} + {AncestryRow(2, 2, 0)} == b.ancestry;
  }

  lemma ChildCommitted(root: Hash, child: Hash)
    requires root != child
    ensures Commit(RootOnly(root), OpAttenuate(root, Grant(8, 50), 2, child, 0)) == RootAndChild(root, child)
  {
    DelegationIsValid(root, child);
    ChildInserted(root, child);
    assert ValidateIssue(Grant(8, 50), 0) == Ok(Unit);
  }

  lemma SetupReaches(root: Hash, child: Hash)
    requires root != child
    ensures Run(Empty({HOME}), Setup(root, child)) == RootAndChild(root, child)
  {
    RootIssued(root, child);
    ChildCommitted(root, child);
    RunAppends(Empty({HOME}), Setup(root, child)[..2], Setup(root, child)[2]);
    assert Setup(root, child)[..2] + [Setup(root, child)[2]] == Setup(root, child);
  }

  lemma SetupIsValid(root: Hash, child: Hash)
    requires root != child
    ensures Valid(RootAndChild(root, child))
  {
    SetupReaches(root, child);
    EmptyValid({HOME});
    RunKeepsValid(Empty({HOME}), Setup(root, child));
  }

  lemma Chains(root: Hash, child: Hash)
    requires root != child
    ensures Chain(ParentsOf(RootAndChild(root, child).capabilities), 1) == [1]
    ensures Chain(ParentsOf(RootAndChild(root, child).capabilities), 2) == [2, 1]
  {
    var p := ParentsOf(RootAndChild(root, child).capabilities);
    assert p - {2} == map[1 := None];
    assert Chain(p - {2}, 1) == [1];
  }

  lemma SpendIsValid(digest: Hash)
    requires IsDigest(digest)
    ensures ValidUse(Spend(5, digest))
  {
  }

  lemma RootEntitled(root: Hash, child: Hash, digest: Hash)
    requires root != child && IsDigest(digest)
    ensures Entitled(RootAndChild(root, child), 1, Spend(5, digest), 0)
  {
    Chains(root, child);
  }

  lemma RootSpends(root: Hash, child: Hash, digest: Hash)
    requires root != child && IsDigest(digest)
    ensures AuthorizeInTransaction(RootAndChild(root, child), root, Spend(5, digest), 0).Ok?
    ensures var caps :=
        AuthorizeInTransaction(RootAndChild(root, child), root, Spend(5, digest), 0).value.0.capabilities;
      ChargedAlong(RootAndChild(root, child).capabilities, [1], 5, caps)
  {
    SetupIsValid(root, child);
    Chains(root, child);
    RootEntitled(root, child, digest);
    SpendIsValid(digest);
    AllowedExactlyWhenEntitled(RootAndChild(root, child), 1, Spend(5, digest), 0);
    AllowedUse(RootAndChild(root, child), 1, root, Spend(5, digest), 0);
  }

  lemma ChildHasMore(root: Hash, child: Hash, caps: Rows)
    requires ChargedAlong(RootAndChild(root, child).capabilities, [1], 5, caps)
    ensures 1 in caps && 2 in caps && caps[2].parent == Some(1)
    ensures caps[2].remainingBudget == Some(8) && caps[1].remainingBudget == Some(5)
  {
  }

  /** Spending five units of the root leaves the child with more than its parent has. */
  lemma SiblingSpends(root: Hash, child: Hash, digest: Hash)
    requires root != child && IsDigest(digest)
    ensures var caps := Run(Empty({HOME}), Setup(root, child) + [OpUse(root, Spend(5, digest), 0)]).capabilities;
      && 1 in caps && 2 in caps && caps[2].parent == Some(1)
      && caps[2].remainingBudget == Some(8) && caps[1].remainingBudget == Some(5)
  {
    hide AuthorizeInTransaction, Run, RootAndChild, Setup, Spend, Empty;
    SetupReaches(root, child);
    RunAppends(Empty({HOME}), Setup(root, child), OpUse(root, Spend(5, digest), 0));
    RootSpends(root, child, digest);
    ChildHasMore(root, child, Run(Empty({HOME}), Setup(root, child) + [OpUse(root, Spend(5, digest), 0)]).capabilities);
  }

  function RootExpired(root: Hash, child: Hash, digest: Hash): Authority {
    var b := RootAndChild(root, child);
    b.(capabilities := b.capabilities[1 := b.capabilities[1].(status := Expired)],
       decisions := [DecisionRow(Some(1), root, Spend(5, digest), ExpiredHandle, 100)])
  }

  lemma RootExpires(root: Hash, child: Hash, digest: Hash)
    requires root != child && IsDigest(digest)
    ensures AuthorizeInTransaction(RootAndChild(root, child), root, Spend(5, digest), 100).Ok?
    ensures AuthorizeInTransaction(RootAndChild(root, child), root, Spend(5, digest), 100).value.0
        == RootExpired(root, child, digest)
  {
    SpendIsValid(digest);
    hide ValidUse, LoadAncestors, EvaluateChain;
    assert Evaluate(RootAndChild(root, child), 1, Spend(5, digest), 100) == Deny(ExpiredHandle, Some(1));
    hide Evaluate;
  }

  lemma RootExpiredIsValid(root: Hash, child: Hash, digest: Hash)
    requires root != child && IsDigest(digest)
    ensures Valid(RootExpired(root, child, digest))
  {
    hide Valid, AuthorizeInTransaction;
    SetupIsValid(root, child);
    RootExpires(root, child, digest);
    UseKeepsValid(RootAndChild(root, child), root, Spend(5, digest), 100);
  }

  lemma ChildMeetsExpiredRoot(root: Hash, child: Hash, digest: Hash)
    requires root != child && IsDigest(digest)
    ensures Evaluate(RootExpired(root, child, digest), 2, Spend(5, digest), 20) == Deny(AncestorExpired, Some(1))
  {
    hide LoadAncestors, Conserves, Logged, AncestryAgrees, Narrowing, Sane, Linked;
    var a := RootExpired(root, child, digest);
    RootExpiredIsValid(root, child, digest);
    Chains(root, child);
    assert ParentsOf(a.capabilities) == ParentsOf(RootAndChild(root, child).capabilities);
    LoadAncestorsIsChain(a, 2);
    assert [2, 1][1..] == [1];
    assert FirstLapsed(a.capabilities, [1], 20) == Some(1);
  }

  lemma ChildIsRefused(root: Hash, child: Hash, digest: Hash)
    requires root != child && IsDigest(digest)
    ensures AuthorizeInTransaction(RootExpired(root, child, digest), child, Spend(5, digest), 20).Ok?
    ensures AuthorizeInTransaction(RootExpired(root, child, digest), child, Spend(5, digest), 20).value.1.reason
        == AncestorExpired
  {
    var a := RootExpired(root, child, digest);
    assert child in a.handles && a.handles[child] == 2 && 1 in a.capabilities && 2 in a.capabilities;
    assert a.capabilities[1].status == Expired;
    SpendIsValid(digest);
    ChildMeetsExpiredRoot(root, child, digest);
    hide ValidUse, Evaluate, RootExpired, RootAndChild, Spend, LoadAncestors;
    assert Mark(a, 1, Expired, 20) == Ok(a);
  }

  /** The root is seen expired at time 100; a later use of the child whose clock reads 20 meets an expired ancestor. */
  lemma ClockRegressionMeetsExpiredAncestor(root: Hash, child: Hash, digest: Hash)
    requires root != child && IsDigest(digest)
    ensures var r := Transact(Run(Empty({HOME}), Setup(root, child) + [OpUse(root, Spend(5, digest), 100)]),
                              OpUse(child, Spend(5, digest), 20));
      r.Ok? && r.value.1.decision.reason == AncestorExpired
  {
    hide AuthorizeInTransaction, Run, RootAndChild, RootExpired, Setup, Spend, Empty;
    SetupReaches(root, child);
    RunAppends(Empty({HOME}), Setup(root, child), OpUse(root, Spend(5, digest), 100));
    RootExpires(root, child, digest);
    ChildIsRefused(root, child, digest);
  }

  // ---------------------------------------------------------------- a policy and an unlimited grant in any branch

  function GrantAt(at: BranchKey): IssueRequest {
    IssueRequest(Scope(at, "u", "a", "r"), None, None, None, 1)
  }

  lemma PolicyAt(a: Authority, at: BranchKey)
    requires at in a.branches && at !in a.policies
    ensures Commit(a, OpSetPolicy(at, 1, 0)) == a.(policies := a.policies[at := 1])
  {
  }

  lemma GrantIsValid(at: BranchKey)
    ensures ValidateIssue(GrantAt(at), 0) == Ok(Unit)
  {
  }

  lemma IssueAt(a: Authority, at: BranchKey, id: CapabilityId, hash: Hash)
    requires at in a.branches && at in a.policies && a.policies[at] == 1
    requires id !in a.capabilities && hash !in a.handles
    ensures Commit(a, OpIssue(GrantAt(at), id, hash, 0))
         == a.(capabilities := a.capabilities[id := NewCapability(GrantAt(at), None, 0)],
               handles := a.handles[hash := id], ancestry := a.ancestry + {AncestryRow(id, id, 0)})
  {
    GrantIsValid(at);
    hide ValidateIssue;
    assert a.ancestry + {} == a.ancestry;
  }

  /** One capability in branch `at`, of an authority over the given branches. */
  function SoleGrant(branches: set<BranchKey>, at: BranchKey, id: CapabilityId, hash: Hash): Authority {
    Authority(branches, map[at := 1], map[id := NewCapability(GrantAt(at), None, 0)], map[hash := id],
              {AncestryRow(id, id, 0)}, [], [])
  }

  lemma SoleGrantReached(branches: set<BranchKey>, at: BranchKey, id: CapabilityId, hash: Hash)
    requires at in branches
    ensures Run(Empty(branches), [OpSetPolicy(at, 1, 0), OpIssue(GrantAt(at), id, hash, 0)])
        == SoleGrant(branches, at, id, hash)
    ensures Valid(SoleGrant(branches, at, id, hash))
  {
    var e, set_, issue := Empty(branches), OpSetPolicy(at, 1, 0), OpIssue(GrantAt(at), id, hash, 0);
    var policy := e.(policies := map[at := 1]);
    hide Commit, Valid;
    PolicyAt(e, at);
    assert e.policies[at := 1] == map[at := 1];
    IssueAt(policy, at, id, hash);
    RunAppends(e, [], set_);
    RunAppends(e, [set_], issue);
    assert [] + [set_] == [set_] && [set_] + [issue] == [set_, issue];
    assert {} + {AncestryRow(id, id, 0)} == {AncestryRow(id, id, 0)};
    EmptyValid(branches);
    RunKeepsValid(e, [set_, issue]);
  }
}
