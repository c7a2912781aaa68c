/** Comparing epochs of two branches: what the `changed_between_epochs` flag then says, and when it can be trusted. */
module EpochWitnesses {
  import opened Wrappers
  import opened Capabilities
  import opened AuthorityInvariant
  import opened AuthorityRuns
  import opened AuthorityWitnesses
  import opened Effects
  import opened EffectProtocol
  import opened EffectInvariant
  import opened Frontiers
  import opened Epochs

  // ---------------------------------------------------------------- two branches, one of them with a capability

  function TwoPolicies(x: BranchKey, y: BranchKey): Authority {
    Empty({x, y}).(policies := map[x := 1, y := 1])
  }

  /** Policies in both branches, and capability 1 in the first. */
  function OneSided(x: BranchKey, y: BranchKey): Authority {
    TwoPolicies(x, y).(capabilities := map[1 := NewCapability(GrantAt(x), None, 0)], handles := map["h" := 1],
                       ancestry := {AncestryRow(1, 1, 0)})
  }

  lemma OneSidedReached(x: BranchKey, y: BranchKey)
    requires x != y
    ensures Run(Empty({x, y}), [OpSetPolicy(x, 1, 0), OpSetPolicy(y, 1, 0), OpIssue(GrantAt(x), 1, "h", 0)])
        == OneSided(x, y)
    ensures Valid(OneSided(x, y))
  {
    var e, first, second, issue :=
        Empty({x, y}), OpSetPolicy(x, 1, 0), OpSetPolicy(y, 1, 0), OpIssue(GrantAt(x), 1, "h", 0);
    hide Commit, Valid, GrantAt;
    PolicyAt(e, x);
    PolicyAt(e.(policies := map[x := 1]), y);
    assert e.policies[x := 1] == map[x := 1] && map[x := 1][y := 1] == map[x := 1, y := 1];
    IssueAt(TwoPolicies(x, y), x, 1, "h");
    assert {} + {AncestryRow(1, 1, 0)} == {AncestryRow(1, 1, 0)};
    RunAppends(e, [], first);
    RunAppends(e, [first], second);
    RunAppends(e, [first, second], issue);
    assert [] + [first] == [first] && [first] + [second] == [first, second];
    assert [first, second] + [issue] == [first, second, issue];
    EmptyValid({x, y});
    RunKeepsValid(e, [first, second, issue]);
  }

  /** A second capability, in the other branch. */
  lemma TwoSided(x: BranchKey, y: BranchKey)
    requires x != y
    ensures var b := Commit(OneSided(x, y), OpIssue(GrantAt(y), 2, "i", 0));
      && b.capabilities == map[1 := NewCapability(GrantAt(x), None, 0), 2 := NewCapability(GrantAt(y), None, 0)]
      && b.decisions == []
  {
    var i, h := "i", "h";
    assert i[0] != h[0];
    hide Commit, GrantAt;
    IssueAt(OneSided(x, y), y, 2, i);
  }

  function States(x: BranchKey, y: BranchKey): map<BranchKey, BranchState> {
    map[x := Completed, y := Completed]
  }

  function Start1(x: BranchKey, y: BranchKey): World {
    Genesis(OneSided(x, y), States(x, y))
  }

  /** The counts of capabilities, in the world where only the first branch has one. */
  lemma OneSidedCounts(x: BranchKey, y: BranchKey)
    requires x != y
    ensures var l := Start1(x, y).system.ledger;
      Current(l, x).capabilities == 1 && Current(l, y).capabilities == 0
  {
    var a := OneSided(x, y);
    assert CapabilitiesAt(a, x) == {1} && CapabilitiesAt(a, y) == {};
    assert DecisionsAt([], x) == 0 && DecisionsAt([], y) == 0;
  }

  lemma TwoSidedCounts(x: BranchKey, y: BranchKey, l: Ledger)
    requires x != y && l.authority == Commit(OneSided(x, y), OpIssue(GrantAt(y), 2, "i", 0))
    ensures Current(l, x).capabilities == 1 && Current(l, y).capabilities == 1
  {
    TwoSided(x, y);
    hide Commit;
    assert CapabilitiesAt(l.authority, x) == {1} && CapabilitiesAt(l.authority, y) == {2};
    assert DecisionsAt([], x) == 0 && DecisionsAt([], y) == 0;
  }

  // ---------------------------------------------------------------- the two checkpoints

  function Take(at: BranchKey, id: EpochId): Capture {
    Capture(at, id, true, true)
  }

  function RowAt(at: BranchKey, id: EpochId, f: Frontier): Epoch {
    Epoch(id, at, None, 0, Committed, f)
  }

  lemma FirstCheckpoint(l: Ledger, x: BranchKey, id: EpochId)
    requires x in l.branchStates && l.branchStates[x] == Completed
    ensures PersistCheckpoint([], l, Take(x, id)) == Ok([RowAt(x, id, Current(l, x))])
  {
    hide Current;
    var row := RowAt(x, id, Current(l, x));
    assert [] + [row] == [row] && row.(status := Creating).(status := Committed) == row;
  }

  lemma SecondCheckpoint(row: Epoch, l: Ledger, y: BranchKey, id: EpochId)
    requires y in l.branchStates && l.branchStates[y] == Completed && row.at != y && row.id != id
    ensures PersistCheckpoint([row], l, Take(y, id)) == Ok([row, RowAt(y, id, Current(l, y))])
  {
    hide Current;
    assert [row][..0] == [];
    assert Latest([row], y).None?;
    var next := RowAt(y, id, Current(l, y));
    assert [row] + [next] == [row, next] && next.(status := Creating).(status := Committed) == next;
  }

  /** Checkpoints of the two branches with nothing, or an issue in the second branch, in between. */
  function Direct(x: BranchKey, y: BranchKey): seq<WorldEvent> {
    [Checkpoint(Take(x, "e")), Checkpoint(Take(y, "f"))]
  }

  function WithIssue(x: BranchKey, y: BranchKey): seq<WorldEvent> {
    [Checkpoint(Take(x, "e")), Live(Outside(OpIssue(GrantAt(y), 2, "i", 0))), Checkpoint(Take(y, "f"))]
  }

  lemma RunTwo(digest: Bytes -> Hash, w: World, x: WorldEvent, y: WorldEvent)
    ensures RunWorld(digest, w, [x]) == StepWorld(digest, w, x)
    ensures RunWorld(digest, w, [x, y]) == StepWorld(digest, StepWorld(digest, w, x), y)
  {
    hide StepWorld;
    assert [x, y][..1] == [x] && [x][..0] == [];
    assert RunWorld(digest, w, []) == w;
  }

  lemma DifferentIds()
    ensures "e" != "f"
  {
    var e, f := "e", "f";
    assert e[0] != f[0];
  }

  /** Taken back to back: the flag is set although no table changed in between. */
  lemma ChangedWithNothingRecorded(digest: Bytes -> Hash, x: BranchKey, y: BranchKey)
    requires x != y
    ensures var t := RunWorld(digest, Start1(x, y), Direct(x, y));
      && TakenAt(digest, Start1(x, y), Direct(x, y), 0, 0) && TakenAt(digest, Start1(x, y), Direct(x, y), 1, 1)
      && |t.epochs| == 2 && t.epochs[0].at == x && t.epochs[1].at == y
      && CompareRows(t, 0, 1).capabilities.changedBetweenEpochs
      && Epochs.Before(digest, Start1(x, y), Direct(x, y), 0).system.ledger
         == Epochs.Before(digest, Start1(x, y), Direct(x, y), 1).system.ledger
  {
    var w, events := Start1(x, y), Direct(x, y);
    var l := w.system.ledger;
    OneSidedCounts(x, y);
    DifferentIds();
    RunTwo(digest, w, events[0], events[1]);
    assert events[..0] == [] && events[..1] == [events[0]] && events[..2] == events;
    assert RunWorld(digest, w, []) == w;
    hide RunWorld, Current, PersistCheckpoint, OneSided;
    FirstCheckpoint(l, x, "e");
    SecondCheckpoint(RowAt(x, "e", Current(l, x)), l, y, "f");
  }

  lemma StepCheckpoint(digest: Bytes -> Hash, w: World, c: Capture, rows: seq<Epoch>)
    requires PersistCheckpoint(w.epochs, w.system.ledger, c) == Ok(rows)
    ensures StepWorld(digest, w, Checkpoint(c)) == w.(epochs := rows) && Records(w, c, w.(epochs := rows))
  {
    hide PersistCheckpoint;
  }

  lemma StepOutside(digest: Bytes -> Hash, w: World, op: Operation)
    ensures StepWorld(digest, w, Live(Outside(op)))
         == w.(system := w.system.(ledger := w.system.ledger.(authority := Commit(w.system.ledger.authority, op))))
  {
    hide Commit, Advance;
  }

  /** The worlds of that run. */
  lemma IssueRun(digest: Bytes -> Hash, x: BranchKey, y: BranchKey)
    requires x != y
    ensures var g, events := Start1(x, y), WithIssue(x, y);
      var l := g.system.ledger;
      var m := l.(authority := Commit(l.authority, OpIssue(GrantAt(y), 2, "i", 0)));
      var first, second := RowAt(x, "e", Current(l, x)), RowAt(y, "f", Current(m, y));
      && Epochs.Before(digest, g, events, 0) == g && Epochs.Before(digest, g, events, 1) == g.(epochs := [first])
      && Epochs.Before(digest, g, events, 2) == World(g.system.(ledger := m), [first])
      && Epochs.Before(digest, g, events, 3) == World(g.system.(ledger := m), [first, second])
      && Records(Epochs.Before(digest, g, events, 0), Take(x, "e"), Epochs.Before(digest, g, events, 1))
      && Records(Epochs.Before(digest, g, events, 2), Take(y, "f"), Epochs.Before(digest, g, events, 3))
  {
    var w, events := Start1(x, y), WithIssue(x, y);
    var l := w.system.ledger;
    var m := l.(authority := Commit(l.authority, OpIssue(GrantAt(y), 2, "i", 0)));
    DifferentIds();
    BeforeNext(digest, w, events, 0);
    BeforeNext(digest, w, events, 1);
    BeforeNext(digest, w, events, 2);
    assert events[..0] == [] && RunWorld(digest, w, []) == w;
    assert Epochs.Before(digest, w, events, 0) == w;
    assert w.epochs == [] && l.branchStates == States(x, y);
    hide RunWorld, Epochs.Before, Current, PersistCheckpoint, OneSided, Commit, StepWorld, Start1, Records, GrantAt;
    var first, second := RowAt(x, "e", Current(l, x)), RowAt(y, "f", Current(m, y));
    FirstCheckpoint(l, x, "e");
    StepCheckpoint(digest, w, Take(x, "e"), [first]);
    StepOutside(digest, w.(epochs := [first]), OpIssue(GrantAt(y), 2, "i", 0));
    SecondCheckpoint(first, m, y, "f");
    StepCheckpoint(digest, World(w.system.(ledger := m), [first]), Take(y, "f"), [first, second]);
  }

  /** With an issue in the second branch in between: the flag is not set although a record was made in its scope. */
  lemma UnchangedWithRecords(digest: Bytes -> Hash, x: BranchKey, y: BranchKey)
    requires x != y
    ensures var g, events := Start1(x, y), WithIssue(x, y);
      var t := RunWorld(digest, g, events);
      && TakenAt(digest, g, events, 0, 0) && TakenAt(digest, g, events, 1, 2)
      && |t.epochs| == 2 && t.epochs[0].at == x && t.epochs[1].at == y
      && !CompareRows(t, 0, 1).capabilities.changedBetweenEpochs
      && AuthorityRecorded(Epochs.Before(digest, g, events, 0).system.ledger.authority,
                           Epochs.Before(digest, g, events, 2).system.ledger.authority, y)
  {
    var w, events := Start1(x, y), WithIssue(x, y);
    var l := w.system.ledger;
    assert events[..3] == events;
    assert Epochs.Before(digest, w, events, 3) == RunWorld(digest, w, events);
    hide RunWorld, Epochs.Before, Current, Commit, AuthorityRecorded, Records;
    IssueRun(digest, x, y);
    OneSidedCounts(x, y);
    TwoSidedCounts(x, y, l.(authority := Commit(l.authority, OpIssue(GrantAt(y), 2, "i", 0))));
    IssueIsRecorded(x, y);
  }

  lemma IssueIsRecorded(x: BranchKey, y: BranchKey)
    requires x != y
    ensures AuthorityRecorded(OneSided(x, y), Commit(OneSided(x, y), OpIssue(GrantAt(y), 2, "i", 0)), y)
  {
    TwoSided(x, y);
    hide Commit;
    assert 2 in CapabilitiesAt(Commit(OneSided(x, y), OpIssue(GrantAt(y), 2, "i", 0)), y);
  }

  // ---------------------------------------------------------------- the exact condition

  /**
   In one run, for two of its rows taken in this order: the flag says whether either scope was recorded in between.
   */
  ghost predicate TellsIn(digest: Bytes -> Hash, a: Authority, branches: map<BranchKey, BranchState>,
                          events: seq<WorldEvent>,
                          i: nat, j: nat, m: nat, n: nat, x: BranchKey, y: BranchKey) {
    var g := Genesis(a, branches);
    var t := RunWorld(digest, g, events);
    Valid(a) && m <= n && TakenAt(digest, g, events, i, m) && TakenAt(digest, g, events, j, n)
    && i < |t.epochs| && j < |t.epochs| && t.epochs[i].at == x && t.epochs[j].at == y ==>
      var early, late :=
          Epochs.Before(digest, g, events, m).system.ledger, Epochs.Before(digest, g, events, n).system.ledger;
      CompareRows(t, i, j).capabilities.changedBetweenEpochs <==>
        (AuthorityRecorded(early.authority, late.authority, x) || AuthorityRecorded(early.authority, late.authority, y))
  }

  ghost predicate ChangeTells(digest: Bytes -> Hash, x: BranchKey, y: BranchKey) {
    forall a, branches, events, i, j, m, n {:trigger TellsIn(digest, a, branches, events, i, j, m, n, x, y)} ::
      TellsIn(digest, a, branches, events, i, j, m, n, x, y)
  }

  /**
   `changed_between_epochs` says that something was recorded in between, in every run, exactly for rows of one branch.
   */
  lemma ChangeTellsExactlyWhenSameBranch(digest: Bytes -> Hash, x: BranchKey, y: BranchKey)
    ensures ChangeTells(digest, x, y) <==> x == y
  {
    if x == y {
      forall a, branches, events, i, j, m, n ensures TellsIn(digest, a, branches, events, i, j, m, n, x, y) {
        SameBranchTells(digest, a, branches, events, i, j, m, n, x);
      }
    } else {
      DifferentBranchesMislead(digest, x, y);
      hide TellsIn;
    }
  }

  lemma SameBranchTells(digest: Bytes -> Hash, a: Authority, branches: map<BranchKey, BranchState>,
                        events: seq<WorldEvent>,
                        i: nat, j: nat, m: nat, n: nat, x: BranchKey)
    ensures TellsIn(digest, a, branches, events, i, j, m, n, x, x)
  {
    hide Valid, RunWorld, Epochs.Before, TakenAt, CompareRows, Genesis, AuthorityRecorded, EffectRecorded;
    if Valid(a) && TakenAt(digest, Genesis(a, branches), events, i, m)
        && TakenAt(digest, Genesis(a, branches), events, j, n) {
      FlagsAreExact(digest, a, branches, events, i, j, m, n);
    }
  }

  lemma DifferentBranchesMislead(digest: Bytes -> Hash, x: BranchKey, y: BranchKey)
    requires x != y
    ensures !TellsIn(digest, OneSided(x, y), States(x, y), Direct(x, y), 0, 1, 0, 1, x, y)
  {
    OneSidedReached(x, y);
    ChangedWithNothingRecorded(digest, x, y);
    var w, events := Start1(x, y), Direct(x, y);
    NothingRecorded(Epochs.Before(digest, w, events, 0).system.ledger.authority, x);
    NothingRecorded(Epochs.Before(digest, w, events, 0).system.ledger.authority, y);
    hide Valid, RunWorld, Epochs.Before, TakenAt, CompareRows, Genesis, AuthorityRecorded, OneSided, States, Direct;
  }

  lemma NothingRecorded(a: Authority, at: BranchKey)
    ensures !AuthorityRecorded(a, a, at)
  {
  }
}
