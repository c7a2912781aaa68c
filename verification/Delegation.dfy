/** Delegation chains: what the parent pointers alone say, independently of the ancestry table. */
module Delegation {
  import opened Wrappers
  import opened Capabilities

  type Parents = map<CapabilityId, Option<CapabilityId>>

  function ParentsOf(caps: map<CapabilityId, Capability>): (p: Parents)
    ensures p.Keys == caps.Keys
  {
    map id | id in caps :: caps[id].parent
  }

  /** Self, parent, grandparent and so on, never visiting a capability twice. */
  function Chain(p: Parents, id: CapabilityId): (s: seq<CapabilityId>)
    ensures forall x :: x in s ==> x in p
    ensures id in p ==> s != [] && s[0] == id
    decreases |p|
  {
    if id !in p then []
    else if p[id].None? then [id]
    else [id] + Chain(p - {id}, p[id].value)
  }

  ghost predicate Distinct<T>(s: seq<T>) {
    forall i, j :: 0 <= i < j < |s| ==> s[i] != s[j]
  }

  lemma {:induction false} ChainDistinct(p: Parents, id: CapabilityId)
    ensures Distinct(Chain(p, id))
    decreases |p|
  {
    if id in p && p[id].Some? {
      var rest := Chain(p - {id}, p[id].value);
      ChainDistinct(p - {id}, p[id].value);
      assert id !in rest;
    }
  }

  /** The parent exists, and the chain continues with the whole chain of the parent. */
  ghost predicate Continues(p: Parents, x: CapabilityId) {
    x in p && p[x].Some? ==> p[x].value in p && Chain(p, x) == [x] + Chain(p, p[x].value)
  }

  /** Every chain continues up to a root. */
  ghost predicate Rooted(p: Parents) {
    forall x {:trigger Continues(p, x)} :: Continues(p, x)
  }

  /** A capability nobody names as parent does not change other chains. */
  lemma {:induction false} ChainIgnoresLeaf(p: Parents, id: CapabilityId, parent: Option<CapabilityId>, x: CapabilityId)
    requires id !in p && x != id
    requires forall y :: y in p ==> p[y] != Some(id)
    ensures Chain(p[id := parent], x) == Chain(p, x)
    decreases |p|
  {
    if x in p && p[x].Some? {
      assert p[id := parent] - {x} == (p - {x})[id := parent];
      ChainIgnoresLeaf(p - {x}, id, parent, p[x].value);
    }
  }

  lemma FreshIsNobodysParent(p: Parents, id: CapabilityId)
    requires Rooted(p) && id !in p
    ensures forall y :: y in p ==> p[y] != Some(id)
  {
    forall y | y in p ensures p[y] != Some(id) {
      assert Continues(p, y);
    }
  }

  lemma RootedExtends(p: Parents, id: CapabilityId, parent: Option<CapabilityId>)
    requires Rooted(p) && id !in p
    requires parent.Some? ==> parent.value in p
    ensures Rooted(p[id := parent])
    ensures Chain(p[id := parent], id) == [id] + (if parent.Some? then Chain(p, parent.value) else [])
    ensures forall x :: x in p ==> Chain(p[id := parent], x) == Chain(p, x)
  {
    var q := p[id := parent];
    FreshIsNobodysParent(p, id);
    forall x | x in p ensures Chain(q, x) == Chain(p, x) {
      ChainIgnoresLeaf(p, id, parent, x);
    }
    assert q - {id} == p;
    forall x ensures Continues(q, x) {
      assert Continues(p, x);
    }
  }

  /**
   What the chain of a rooted forest is, in terms of single parent pointers only: it starts at the capability,
   each step is a parent pointer, it stops at a root, and nothing repeats.
   */
  ghost predicate IsParentPath(p: Parents, id: CapabilityId, s: seq<CapabilityId>) {
    && s != [] && s[0] == id
    && (forall i :: 0 <= i < |s| ==> s[i] in p)
    && (forall i :: 0 <= i < |s| - 1 ==> p[s[i]] == Some(s[i + 1]))
    && p[s[|s| - 1]].None?
    && Distinct(s)
  }

  lemma {:induction false} ChainIsParentPath(p: Parents, id: CapabilityId)
    requires Rooted(p) && id in p
    ensures IsParentPath(p, id, Chain(p, id))
    decreases |Chain(p, id)|
  {
    ChainDistinct(p, id);
    assert Continues(p, id);
    if p[id].Some? {
      ChainIsParentPath(p, p[id].value);
    }
  }

  /** A parent path determines the chain, so the two descriptions agree. */
  lemma {:induction false} ParentPathIsChain(p: Parents, id: CapabilityId, s: seq<CapabilityId>)
    requires Rooted(p) && IsParentPath(p, id, s)
    ensures s == Chain(p, id)
    decreases |s|
  {
    assert Continues(p, id);
    if |s| > 1 {
      assert IsParentPath(p, s[1], s[1..]);
      ParentPathIsChain(p, s[1], s[1..]);
    }
  }

  lemma {:induction false} ChainSuffix(p: Parents, id: CapabilityId, x: CapabilityId)
    requires Rooted(p) && id in p && x in Chain(p, id)
    ensures forall y :: y in Chain(p, x) ==> y in Chain(p, id)
    decreases |Chain(p, id)|
  {
    assert Continues(p, id);
    if x != id {
      ChainSuffix(p, p[id].value, x);
    }
  }

  // ---------------------------------------------------------------- spending below a capability

  /** Authorized uses of `x` and of all its descendants. */
  ghost function UsesBelow(p: Parents, rows: seq<Authorization>, x: CapabilityId): nat {
    if rows == [] then 0
    else
      var last := rows[|rows| - 1];
      UsesBelow(p, rows[..|rows| - 1], x) + (if x in Chain(p, last.capability) then 1 else 0)
  }

  /** Budget units authorized to `x` and to all its descendants. */
  ghost function SpentBelow(p: Parents, rows: seq<Authorization>, x: CapabilityId): int {
    if rows == [] then 0
    else
      var last := rows[|rows| - 1];
      SpentBelow(p, rows[..|rows| - 1], x) + (if x in Chain(p, last.capability) then last.budgetUnits else 0)
  }

  /** A new leaf has spent nothing and changes no other account. */
  lemma {:induction false} SpendingExtends(p: Parents, id: CapabilityId, parent: Option<CapabilityId>,
                                           rows: seq<Authorization>, x: CapabilityId)
    requires Rooted(p) && id !in p
    requires parent.Some? ==> parent.value in p
    requires forall r :: r in rows ==> r.capability in p
    ensures UsesBelow(p[id := parent], rows, x) == UsesBelow(p, rows, x)
    ensures SpentBelow(p[id := parent], rows, x) == SpentBelow(p, rows, x)
    ensures x !in p ==> UsesBelow(p, rows, x) == 0 && SpentBelow(p, rows, x) == 0
    decreases |rows|
  {
    if rows != [] {
      var last := rows[|rows| - 1];
      FreshIsNobodysParent(p, id);
      ChainIgnoresLeaf(p, id, parent, last.capability);
      SpendingExtends(p, id, parent, rows[..|rows| - 1], x);
    }
  }

  lemma SpendingAppends(p: Parents, rows: seq<Authorization>, row: Authorization, x: CapabilityId)
    ensures UsesBelow(p, rows + [row], x) == UsesBelow(p, rows, x) + (if x in Chain(p, row.capability) then 1 else 0)
    ensures SpentBelow(p, rows + [row], x)
         == SpentBelow(p, rows, x) + (if x in Chain(p, row.capability) then row.budgetUnits else 0)
  {
    assert (rows + [row])[..|rows|] == rows;
  }
}
