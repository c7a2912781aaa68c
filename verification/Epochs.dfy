/** Committed epochs (crates/epoch-supervisor/src/recovery.rs): their numbering, links and recorded frontiers. */
module Epochs {
  import opened Wrappers
  import opened Capabilities
  import opened AuthorityInvariant
  import opened Effects
  import opened EffectProtocol
  import opened EffectInvariant
  import opened EffectSteps
  import opened Frontiers


  type EpochId = string

  datatype EpochStatus = Creating | Committed | Spoiled

  /** One row of `epochs`; a branch identifier determines its session. */
  datatype Epoch = Epoch(
    id: EpochId, at: BranchKey, parent: Option<EpochId>, sequence: nat, status: EpochStatus, frontier: Frontier)

  datatype World = World(system: System, epochs: seq<Epoch>)

  datatype RecoveryCode = NotFound | InvalidCapture | MetadataMismatch | Persistence

  // ---------------------------------------------------------------- persist_checkpoint

  /** `ORDER BY sequence DESC LIMIT 1` over the committed epochs of a branch. */
  function Latest(epochs: seq<Epoch>, at: BranchKey): Option<Epoch> {
    if epochs == [] then None
    else
      var (best, last) := (Latest(epochs[..|epochs| - 1], at), epochs[|epochs| - 1]);
      if last.at == at && last.status.Committed? && (best.None? || best.value.sequence <= last.sequence) then Some(last)
          else best
  }

  /** `next_epoch` */
  function NextEpoch(epochs: seq<Epoch>, at: BranchKey): Result<(nat, Option<EpochId>), RecoveryCode> {
    var latest := Latest(epochs, at);
    if latest.None? then Ok((0, None))
    else if latest.value.sequence >= MAX_I64 then Err(Persistence)
    else Ok((latest.value.sequence + 1, Some(latest.value.id)))
  }

  /** PRIMARY KEY (id) and UNIQUE (branch_id, sequence) */
  predicate Insertable(epochs: seq<Epoch>, e: Epoch) {
    forall i :: 0 <= i < |epochs| ==>
        epochs[i].id != e.id && !(epochs[i].at == e.at && epochs[i].sequence == e.sequence)
  }

  /** What the caller captured, and whether the session row is completed and the blob rows agree. */
  datatype Capture = Capture(at: BranchKey, id: EpochId, sessionCompleted: bool, blobsAgree: bool)

  /** `persist_checkpoint`: the row is inserted as creating and committed in the same transaction. */
  function PersistCheckpoint(epochs: seq<Epoch>, l: Ledger, c: Capture): Result<seq<Epoch>, RecoveryCode> {
    if c.at !in l.branchStates then Err(NotFound)
    else if !c.sessionCompleted || !l.branchStates[c.at].Completed? then Err(InvalidCapture)
    else if !c.blobsAgree then Err(MetadataMismatch)
    else
      var (sequence, parent) :- NextEpoch(epochs, c.at);
      var e := Epoch(c.id, c.at, parent, sequence, Creating, Current(l, c.at));
      if !Insertable(epochs, e) then Err(Persistence) else Ok(epochs + [e.(status := Committed)])
  }

  datatype WorldEvent = Live(event: Event) | Checkpoint(capture: Capture)

  ghost function StepWorld(digest: Bytes -> Hash, w: World, event: WorldEvent): World {
    match event
    case Live(e) => w.(system := Step(digest, w.system, e))
    case Checkpoint(c) =>
      var r := PersistCheckpoint(w.epochs, w.system.ledger, c);
      if r.Ok? then w.(epochs := r.value) else w
  }

  ghost function RunWorld(digest: Bytes -> Hash, w: World, events: seq<WorldEvent>): World {
    if events == [] then w else StepWorld(digest, RunWorld(digest, w, events[..|events| - 1]), events[|events| - 1])
  }

  /** No effect and no epoch yet. */
  function Genesis(a: Authority, branches: map<BranchKey, BranchState>): World {
    World(Start(a, branches), [])
  }

  // ---------------------------------------------------------------- the chain of each branch

  function CountAt(epochs: seq<Epoch>, at: BranchKey): nat {
    if epochs == [] then 0
    else CountAt(epochs[..|epochs| - 1], at) + (if epochs[|epochs| - 1].at == at then 1 else 0)
  }

  /** Epoch `j` is the predecessor of epoch `i`. */
  ghost predicate Links(epochs: seq<Epoch>, j: int, i: int) {
    && 0 <= j < i < |epochs|
    && epochs[j].at == epochs[i].at && epochs[j].sequence + 1 == epochs[i].sequence
    && epochs[i].parent == Some(epochs[j].id)
  }

  /** An epoch is committed, numbered by the epochs of its branch before it, and linked to the last of those. */
  ghost predicate EpochSound(epochs: seq<Epoch>, i: int) {
    0 <= i < |epochs| ==>
      && epochs[i].status == Committed
      && epochs[i].sequence == CountAt(epochs[..i], epochs[i].at)
      && (if epochs[i].sequence == 0 then epochs[i].parent == None else exists j :: Links(epochs, j, i))
  }

  ghost predicate Chained(epochs: seq<Epoch>) {
    forall i {:trigger EpochSound(epochs, i)} :: EpochSound(epochs, i)
  }

  ghost predicate AtMost(x: Frontier, y: Frontier) {
    x.capabilities <= y.capabilities && x.effects <= y.effects
  }

  ghost predicate FrontiersOrdered(epochs: seq<Epoch>, l: Ledger) {
    && (forall i, j :: 0 <= i < j < |epochs| && epochs[i].at == epochs[j].at ==>
       AtMost(epochs[i].frontier, epochs[j].frontier))
    && (forall i :: 0 <= i < |epochs| ==> AtMost(epochs[i].frontier, Current(l, epochs[i].at)))
  }

  ghost predicate Sound(digest: Bytes -> Hash, w: World) {
    Inv(digest, w.system) && Chained(w.epochs) && FrontiersOrdered(w.epochs, w.system.ledger)
  }

  // ---------------------------------------------------------------- one checkpoint

  lemma SoundPrefix(epochs: seq<Epoch>)
    requires Chained(epochs) && epochs != []
    ensures Chained(epochs[..|epochs| - 1])
  {
    var before := epochs[..|epochs| - 1];
    forall i ensures EpochSound(before, i) {
      assert EpochSound(epochs, i);
      if 0 <= i < |before| {
        assert before[..i] == epochs[..i];
        if epochs[i].sequence != 0 {
          var j :| Links(epochs, j, i);
          assert Links(before, j, i);
        }
      }
    }
  }

  ghost predicate LatestFits(epochs: seq<Epoch>, at: BranchKey) {
    var latest := Latest(epochs, at);
    if CountAt(epochs, at) == 0 then latest.None?
    else
      && latest.Some? && latest.value.sequence == CountAt(epochs, at) - 1
      && exists j :: 0 <= j < |epochs| && epochs[j] == latest.value && epochs[j].at == at
  }

  /** The latest committed epoch of a branch is the last one, and it carries the number of epochs before it. */
  lemma {:induction false} LatestIsLast(epochs: seq<Epoch>, at: BranchKey)
    requires Chained(epochs)
    ensures LatestFits(epochs, at)
  {
    if epochs != [] {
      var n := |epochs| - 1;
      SoundPrefix(epochs);
      LatestIsLast(epochs[..n], at);
      assert EpochSound(epochs, n);
      assert epochs[n].at == at ==> epochs[n].sequence == CountAt(epochs[..n], at);
      hide EpochSound, Chained, Links;
    }
  }

  lemma AppendChains(epochs: seq<Epoch>, e: Epoch)
    requires Chained(epochs) && NextEpoch(epochs, e.at).Ok? && e.status == Committed
    requires (e.sequence, e.parent) == NextEpoch(epochs, e.at).value
    ensures Chained(epochs + [e])
  {
    var all := epochs + [e];
    LatestIsLast(epochs, e.at);
    forall i ensures EpochSound(all, i) {
      assert EpochSound(epochs, i);
      if 0 <= i < |epochs| {
        assert all[..i] == epochs[..i];
        if epochs[i].sequence != 0 {
          var j :| Links(epochs, j, i);
          assert Links(all, j, i);
        }
      }
      if i == |epochs| {
        AppendedSound(epochs, e);
      }
    }
  }

  lemma AppendedSound(epochs: seq<Epoch>, e: Epoch)
    requires NextEpoch(epochs, e.at).Ok? && e.status == Committed
    requires (e.sequence, e.parent) == NextEpoch(epochs, e.at).value
    requires LatestFits(epochs, e.at)
    ensures EpochSound(epochs + [e], |epochs|)
  {
    var all, n := epochs + [e], |epochs|;
    assert all[..n] == epochs;
    if CountAt(epochs, e.at) > 0 {
      var j :| 0 <= j < n && epochs[j] == Latest(epochs, e.at).value && epochs[j].at == e.at;
      assert Links(all, j, n);
    }
  }

  /**
   A checkpoint is taken exactly when the branch and its session are completed, the blob rows agree, there is a number
   left and the identifier is new. The new row is committed, numbered by the epochs before it, and carries the current
   counts.
   */
  lemma TakenExactlyWhen(epochs: seq<Epoch>, l: Ledger, c: Capture)
    requires Chained(epochs)
    ensures var r, n := PersistCheckpoint(epochs, l, c), CountAt(epochs, c.at);
      && (r.Ok? <==>
            && c.at in l.branchStates && l.branchStates[c.at] == Completed && c.sessionCompleted && c.blobsAgree
            && n <= 0x7FFF_FFFF_FFFF_FFFF && forall i :: 0 <= i < |epochs| ==> epochs[i].id != c.id)
      && (r.Ok? ==>
            && |r.value| == |epochs| + 1 && r.value[..|epochs|] == epochs
            && var e := r.value[|epochs|];
            e.id == c.id && e.at == c.at && e.sequence == n && e.status == Committed && e.frontier == Current(l, c.at))
      && (r == Err(NotFound) <==> c.at !in l.branchStates)
      && (r == Err(InvalidCapture) <==>
            c.at in l.branchStates && (!c.sessionCompleted || l.branchStates[c.at] != Completed))
      && (r == Err(MetadataMismatch) <==>
            c.at in l.branchStates && c.sessionCompleted && l.branchStates[c.at] == Completed && !c.blobsAgree)
  {
    LatestIsLast(epochs, c.at);
    forall i | 0 <= i < |epochs| && epochs[i].at == c.at ensures epochs[i].sequence < CountAt(epochs, c.at) {
      assert EpochSound(epochs, i);
      CountGrows(epochs, c.at, i);
    }
    hide Chained, Latest, CountAt, Current;
  }

  lemma CheckpointKeepsSound(digest: Bytes -> Hash, w: World, c: Capture)
    requires Sound(digest, w)
    ensures Sound(digest, StepWorld(digest, w, Checkpoint(c)))
  {
    var r := PersistCheckpoint(w.epochs, w.system.ledger, c);
    hide Inv, Chained, Current;
    if r.Ok? {
      var e := r.value[|r.value| - 1];
      AppendChains(w.epochs, e);
      hide NextEpoch;
    }
  }

  lemma LiveKeepsSound(digest: Bytes -> Hash, w: World, e: Event)
    requires Sound(digest, w)
    ensures Sound(digest, StepWorld(digest, w, Live(e)))
    ensures Grows(w.system.ledger, StepWorld(digest, w, Live(e)).system.ledger)
  {
    var l, m := w.system.ledger, Step(digest, w.system, e).ledger;
    hide Inv, Chained, Current, Step, Grows;
    StepKeepsInv(digest, w.system, e);
    StepGrows(digest, w.system, e);
    forall i | 0 <= i < |w.epochs| ensures AtMost(w.epochs[i].frontier, Current(m, w.epochs[i].at)) {
      FrontierIsExact(l, m, w.epochs[i].at);
    }
  }

  lemma StepKeepsSound(digest: Bytes -> Hash, w: World, event: WorldEvent)
    requires Sound(digest, w)
    ensures Sound(digest, StepWorld(digest, w, event))
    ensures Grows(w.system.ledger, StepWorld(digest, w, event).system.ledger)
    ensures w.epochs <= StepWorld(digest, w, event).epochs
  {
    match event
    case Live(e) =>
      LiveKeepsSound(digest, w, e);
      hide Step, Grows;
    case Checkpoint(c) =>
      CheckpointKeepsSound(digest, w, c);
      SelfGrows(w.system.ledger);
      hide Grows;
  }

  lemma {:induction false} RunKeepsSound(digest: Bytes -> Hash, w: World, events: seq<WorldEvent>)
    requires Sound(digest, w)
    ensures Sound(digest, RunWorld(digest, w, events))
    ensures Grows(w.system.ledger, RunWorld(digest, w, events).system.ledger)
    ensures w.epochs <= RunWorld(digest, w, events).epochs
  {
    SelfGrows(w.system.ledger);
    if events != [] {
      var n := |events| - 1;
      RunKeepsSound(digest, w, events[..n]);
      var v := RunWorld(digest, w, events[..n]);
      hide Sound, StepWorld, Grows;
      StepKeepsSound(digest, v, events[n]);
      GrowsTransitive(w.system.ledger, v.system.ledger, StepWorld(digest, v, events[n]).system.ledger);
    }
  }

  lemma GenesisSound(digest: Bytes -> Hash, a: Authority, branches: map<BranchKey, BranchState>)
    requires Valid(a)
    ensures Sound(digest, Genesis(a, branches))
  {
    StartInv(digest, a, branches);
    forall i ensures EpochSound([], i) { }
    hide Inv;
  }

  // ---------------------------------------------------------------- the theorems

  ghost predicate Numbered(epochs: seq<Epoch>, at: BranchKey, k: nat) {
    exists i :: 0 <= i < |epochs| && epochs[i].at == at && epochs[i].sequence == k
  }

  lemma {:induction false} NumberedDensely(epochs: seq<Epoch>, at: BranchKey, k: nat)
    requires Chained(epochs) && k < CountAt(epochs, at)
    ensures Numbered(epochs, at, k)
  {
    var n := |epochs| - 1;
    SoundPrefix(epochs);
    if k < CountAt(epochs[..n], at) {
      NumberedDensely(epochs[..n], at, k);
      var i :| 0 <= i < n && epochs[..n][i].at == at && epochs[..n][i].sequence == k;
      assert epochs[i].at == at && epochs[i].sequence == k;
    } else {
      assert EpochSound(epochs, n);
      assert epochs[n].at == at && epochs[n].sequence == k;
    }
  }

  lemma {:induction false} CountGrows(epochs: seq<Epoch>, at: BranchKey, i: nat)
    requires i < |epochs| && epochs[i].at == at
    ensures CountAt(epochs[..i], at) < CountAt(epochs, at)
  {
    var n := |epochs| - 1;
    if i < n {
      assert epochs[..n][..i] == epochs[..i];
      CountGrows(epochs[..n], at, i);
    }
  }

  lemma NumberedInOrder(epochs: seq<Epoch>, i: nat, j: nat)
    requires Chained(epochs) && i < j < |epochs| && epochs[i].at == epochs[j].at
    ensures epochs[i].sequence < epochs[j].sequence
  {
    assert EpochSound(epochs, i) && EpochSound(epochs, j);
    assert epochs[..j][..i] == epochs[..i];
    CountGrows(epochs[..j], epochs[j].at, i);
  }

  /**
   After any run, the epochs of a branch are committed and numbered 0 to n-1 without repetition, each linked to its
   predecessor; their recorded frontiers never decrease along the chain and never exceed the current counts.
   */
  lemma EpochsFormChains(digest: Bytes -> Hash, a: Authority, branches: map<BranchKey, BranchState>,
                         events: seq<WorldEvent>, at: BranchKey)
    requires Valid(a)
    ensures var w := RunWorld(digest, Genesis(a, branches), events);
      && Chained(w.epochs)
      && FrontiersOrdered(w.epochs, w.system.ledger)
      && (forall k: nat :: k < CountAt(w.epochs, at) ==> Numbered(w.epochs, at, k))
      && (forall i, j :: 0 <= i < j < |w.epochs| && w.epochs[i].at == w.epochs[j].at ==>
         w.epochs[i].sequence < w.epochs[j].sequence)
  {
    GenesisSound(digest, a, branches);
    RunKeepsSound(digest, Genesis(a, branches), events);
    var w := RunWorld(digest, Genesis(a, branches), events);
    hide RunWorld, Genesis, Inv, Chained, CountAt, Numbered;
    forall k: nat | k < CountAt(w.epochs, at) ensures Numbered(w.epochs, at, k) {
      NumberedDensely(w.epochs, at, k);
    }
    forall i, j | 0 <= i < j < |w.epochs| && w.epochs[i].at == w.epochs[j].at
        ensures w.epochs[i].sequence < w.epochs[j].sequence {
      NumberedInOrder(w.epochs, i, j);
    }
  }

  /** `frontier_diff`, for one of the two counts */
  datatype FrontierDiff = FrontierDiff(changedBetweenEpochs: bool, advancedSinceBefore: bool, advancedSinceAfter: bool)

  function DiffFrontiers(before: nat, after: nat, currentBefore: nat, currentAfter: nat): FrontierDiff {
    FrontierDiff(before != after, currentBefore > before, currentAfter > after)
  }

  /** A successful checkpoint leaves the ledger alone and appends a row with the current counts. */
  ghost predicate Records(w: World, c: Capture, v: World) {
    PersistCheckpoint(w.epochs, w.system.ledger, c).Ok?
      && v == w.(epochs := PersistCheckpoint(w.epochs, w.system.ledger, c).value)
  }

  lemma RecordsCurrent(digest: Bytes -> Hash, w: World, c: Capture, v: World)
    requires Sound(digest, w) && Records(w, c, v)
    ensures v.system == w.system && |v.epochs| == |w.epochs| + 1
    ensures v.epochs[|w.epochs|].frontier == Current(w.system.ledger, c.at) && v.epochs[|w.epochs|].at == c.at
    ensures Sound(digest, v)
  {
    CheckpointKeepsSound(digest, w, c);
    hide Sound, Current, NextEpoch, Insertable;
  }

  /**
   One checkpoint, after any later run: its `advanced_since` flags are true exactly when a capability was issued or a
   decision recorded, or an effect transition recorded, in its scope since it was taken.
   */
  lemma AdvancedExactlyWhenRecorded(digest: Bytes -> Hash, w: World, c: Capture, v: World, later: seq<WorldEvent>)
    requires Sound(digest, w) && Records(w, c, v)
    ensures var t, i := RunWorld(digest, v, later), |w.epochs|;
      && i < |t.epochs| && t.epochs[i].at == c.at && t.epochs[i].frontier == Current(w.system.ledger, c.at)
      && (Current(t.system.ledger, c.at).capabilities > t.epochs[i].frontier.capabilities
          <==> AuthorityRecorded(w.system.ledger.authority, t.system.ledger.authority, c.at))
      && (Current(t.system.ledger, c.at).effects > t.epochs[i].frontier.effects
          <==> EffectRecorded(w.system.ledger, t.system.ledger, c.at))
  {
    hide Sound, RunWorld, Records, Grows, Current, AuthorityRecorded, EffectRecorded;
    RecordsCurrent(digest, w, c, v);
    RunKeepsSound(digest, v, later);
    FrontierIsExact(w.system.ledger, RunWorld(digest, v, later).system.ledger, c.at);
  }

  // ---------------------------------------------------------------- when a row was taken

  /** The world before event `n` of a run. */
  ghost function Before(digest: Bytes -> Hash, w: World, events: seq<WorldEvent>, n: nat): World
    requires n <= |events|
  {
    RunWorld(digest, w, events[..n])
  }

  /** Row `i` was appended by event `n`. */
  ghost predicate TakenAt(digest: Bytes -> Hash, w: World, events: seq<WorldEvent>, i: nat, n: nat) {
    && n < |events| && events[n].Checkpoint? && |Before(digest, w, events, n).epochs| == i
    && Records(Before(digest, w, events, n), events[n].capture, Before(digest, w, events, n + 1))
  }

  lemma BeforeNext(digest: Bytes -> Hash, w: World, events: seq<WorldEvent>, n: nat)
    requires n < |events|
    ensures Before(digest, w, events, n + 1) == StepWorld(digest, Before(digest, w, events, n), events[n])
  {
    hide StepWorld;
    assert events[..n + 1][..n] == events[..n];
  }

  lemma {:induction false} RunSplits(digest: Bytes -> Hash, w: World, events: seq<WorldEvent>, n: nat)
    requires n <= |events|
    ensures RunWorld(digest, w, events) == RunWorld(digest, Before(digest, w, events, n), events[n..])
    decreases |events|
  {
    hide StepWorld;
    if n == |events| {
      assert events[..n] == events && events[n..] == [];
    } else {
      var m := |events| - 1;
      RunSplits(digest, w, events[..m], n);
      assert events[..m][..n] == events[..n] && events[..m][n..] == events[n..][..m - n];
      assert events[n..][|events[n..]| - 1] == events[m];
    }
  }

  /** Only a successful checkpoint appends, and it appends one row. */
  lemma StepAppends(digest: Bytes -> Hash, w: World, event: WorldEvent)
    ensures var v := StepWorld(digest, w, event);
      |v.epochs| > |w.epochs| ==> event.Checkpoint? && Records(w, event.capture, v) && |v.epochs| == |w.epochs| + 1
  {
    hide Step, NextEpoch, Current, Insertable;
  }

  lemma TakenExtends(digest: Bytes -> Hash, w: World, events: seq<WorldEvent>, m: nat, i: nat, n: nat)
    requires m <= |events| && TakenAt(digest, w, events[..m], i, n)
    ensures TakenAt(digest, w, events, i, n)
  {
    hide RunWorld, Records;
    assert events[..m][..n] == events[..n] && events[..m][..n + 1] == events[..n + 1];
  }

  lemma LastTaken(digest: Bytes -> Hash, w: World, events: seq<WorldEvent>)
    requires events != []
    requires |RunWorld(digest, w, events).epochs| > |RunWorld(digest, w, events[..|events| - 1]).epochs|
    ensures var i := |RunWorld(digest, w, events[..|events| - 1]).epochs|;
      |RunWorld(digest, w, events).epochs| == i + 1 && TakenAt(digest, w, events, i, |events| - 1)
  {
    var m := |events| - 1;
    BeforeNext(digest, w, events, m);
    assert events[..m + 1] == events;
    StepAppends(digest, RunWorld(digest, w, events[..m]), events[m]);
    hide RunWorld, StepWorld, Records;
  }

  /** Every row of the table was appended by some checkpoint of the run. */
  lemma {:induction false} EveryRowWasTaken(digest: Bytes -> Hash, w: World, events: seq<WorldEvent>, i: nat)
    requires |w.epochs| <= i < |RunWorld(digest, w, events).epochs|
    ensures exists n :: TakenAt(digest, w, events, i, n)
    decreases |events|
  {
    assert events != [];
    hide RunWorld, StepWorld, Records, TakenAt;
    var m := |events| - 1;
    if i < |RunWorld(digest, w, events[..m]).epochs| {
      EveryRowWasTaken(digest, w, events[..m], i);
      var n: nat :| TakenAt(digest, w, events[..m], i, n);
      TakenExtends(digest, w, events, m, i, n);
    } else {
      LastTaken(digest, w, events);
    }
  }

  // ---------------------------------------------------------------- comparing two rows

  datatype Comparison = Comparison(capabilities: FrontierDiff, effects: FrontierDiff)

  /** `diff_application_epochs`, the part about frontiers: any two rows, each against the counts of its own scope. */
  function CompareRows(w: World, i: nat, j: nat): Comparison
    requires i < |w.epochs| && j < |w.epochs|
  {
    var (x, y) := (w.epochs[i], w.epochs[j]);
    var (nowX, nowY) := (Current(w.system.ledger, x.at), Current(w.system.ledger, y.at));
    Comparison(DiffFrontiers(x.frontier.capabilities, y.frontier.capabilities, nowX.capabilities, nowY.capabilities),
               DiffFrontiers(x.frontier.effects, y.frontier.effects, nowX.effects, nowY.effects))
  }

  lemma RowAdvances(digest: Bytes -> Hash, w: World, events: seq<WorldEvent>, i: nat, n: nat)
    requires Sound(digest, w) && TakenAt(digest, w, events, i, n)
    ensures var t, l := RunWorld(digest, w, events), Before(digest, w, events, n).system.ledger;
      && i < |t.epochs| && t.epochs[i].frontier == Current(l, t.epochs[i].at)
      && (Current(t.system.ledger, t.epochs[i].at).capabilities > t.epochs[i].frontier.capabilities
          <==> AuthorityRecorded(l.authority, t.system.ledger.authority, t.epochs[i].at))
      && (Current(t.system.ledger, t.epochs[i].at).effects > t.epochs[i].frontier.effects
          <==> EffectRecorded(l, t.system.ledger, t.epochs[i].at))
  {
    hide Sound, RunWorld, Records, Current, AuthorityRecorded, EffectRecorded;
    RunKeepsSound(digest, w, events[..n]);
    RunSplits(digest, w, events, n + 1);
    AdvancedExactlyWhenRecorded(digest, Before(digest, w, events, n), events[n].capture,
                                Before(digest, w, events, n + 1), events[n + 1..]);
  }

  lemma EarlierGrows(digest: Bytes -> Hash, w: World, events: seq<WorldEvent>, m: nat, n: nat)
    requires Sound(digest, w) && m <= n <= |events|
    ensures Grows(Before(digest, w, events, m).system.ledger, Before(digest, w, events, n).system.ledger)
  {
    hide Sound, RunWorld, Grows;
    RunKeepsSound(digest, w, events[..m]);
    RunSplits(digest, w, events[..n], m);
    assert events[..n][..m] == events[..m];
    RunKeepsSound(digest, Before(digest, w, events, m), events[..n][m..]);
  }

  /**
   Rows of one branch, in either order of time: their frontiers differ exactly when something was recorded in between.
   */
  lemma RowsDiffer(digest: Bytes -> Hash, w: World, events: seq<WorldEvent>, i: nat, j: nat, m: nat, n: nat)
    requires Sound(digest, w) && TakenAt(digest, w, events, i, m) && TakenAt(digest, w, events, j, n)
    requires var t := RunWorld(digest, w, events); i < |t.epochs| && j < |t.epochs| && t.epochs[i].at == t.epochs[j].at
    ensures var t := RunWorld(digest, w, events);
      var early := Before(digest, w, events, if m <= n then m else n).system.ledger;
      var late := Before(digest, w, events, if m <= n then n else m).system.ledger;
      && (t.epochs[i].frontier.capabilities != t.epochs[j].frontier.capabilities
          <==> AuthorityRecorded(early.authority, late.authority, t.epochs[i].at))
      && (t.epochs[i].frontier.effects != t.epochs[j].frontier.effects <==> EffectRecorded(early, late, t.epochs[i].at))
  {
    hide Sound, RunWorld, TakenAt, Before, Grows, Current, AuthorityRecorded, EffectRecorded;
    RowAdvances(digest, w, events, i, m);
    RowAdvances(digest, w, events, j, n);
    TakenBefore(digest, w, events, i, m);
    TakenBefore(digest, w, events, j, n);
    var x, y := if m <= n then m else n, if m <= n then n else m;
    EarlierGrows(digest, w, events, x, y);
    FrontierIsExact(Before(digest, w, events, x).system.ledger, Before(digest, w, events, y).system.ledger,
                    RunWorld(digest, w, events).epochs[i].at);
  }

  lemma TakenBefore(digest: Bytes -> Hash, w: World, events: seq<WorldEvent>, i: nat, n: nat)
    requires TakenAt(digest, w, events, i, n)
    ensures n < |events|
  {
  }

  /** Something was recorded in a scope between two states, of the kind that each count is about. */
  ghost predicate FlagsTell(d: Comparison, early: Ledger, late: Ledger, first: Ledger, second: Ledger, now: Ledger,
                            x: BranchKey, y: BranchKey) {
    && (d.capabilities.advancedSinceBefore <==> AuthorityRecorded(first.authority, now.authority, x))
    && (d.capabilities.advancedSinceAfter <==> AuthorityRecorded(second.authority, now.authority, y))
    && (d.effects.advancedSinceBefore <==> EffectRecorded(first, now, x))
    && (d.effects.advancedSinceAfter <==> EffectRecorded(second, now, y))
    && (x == y ==> (d.capabilities.changedBetweenEpochs <==> AuthorityRecorded(early.authority, late.authority, x)))
    && (x == y ==> (d.effects.changedBetweenEpochs <==> EffectRecorded(early, late, x)))
  }

  lemma ComparisonTells(digest: Bytes -> Hash, g: World, events: seq<WorldEvent>, i: nat, j: nat, m: nat, n: nat)
    requires Sound(digest, g) && TakenAt(digest, g, events, i, m) && TakenAt(digest, g, events, j, n)
    ensures var t := RunWorld(digest, g, events);
      && m < |events| && n < |events| && i < |t.epochs| && j < |t.epochs|
      && var first, second := Before(digest, g, events, m).system.ledger, Before(digest, g, events, n).system.ledger;
      FlagsTell(CompareRows(t, i, j), if m <= n then first else second, if m <= n then second else first,
                first, second, t.system.ledger, t.epochs[i].at, t.epochs[j].at)
  {
    hide Sound, RunWorld, Before, TakenAt, Current, AuthorityRecorded, EffectRecorded;
    TakenBefore(digest, g, events, i, m);
    TakenBefore(digest, g, events, j, n);
    RowAdvances(digest, g, events, i, m);
    RowAdvances(digest, g, events, j, n);
    var t := RunWorld(digest, g, events);
    if t.epochs[i].at == t.epochs[j].at { RowsDiffer(digest, g, events, i, j, m, n); }
  }

  /**
   Comparing any two rows of a reachable table, of one branch or two, in either order: each `advanced_since` flag is
   true exactly when something was recorded in that row's scope after it was taken; and for rows of one branch the
   `changed_between_epochs` flag is true exactly when something was recorded in that scope between the two.
   */
  lemma FlagsAreExact(digest: Bytes -> Hash, a: Authority, branches: map<BranchKey, BranchState>,
                      events: seq<WorldEvent>,
                      i: nat, j: nat, m: nat, n: nat)
    requires Valid(a)
    requires TakenAt(digest, Genesis(a, branches), events, i, m) && TakenAt(digest, Genesis(a, branches), events, j, n)
    ensures var g := Genesis(a, branches);
      var t := RunWorld(digest, g, events);
      && m < |events| && n < |events| && i < |t.epochs| && j < |t.epochs|
      && var first, second := Before(digest, g, events, m).system.ledger, Before(digest, g, events, n).system.ledger;
      FlagsTell(CompareRows(t, i, j), if m <= n then first else second, if m <= n then second else first,
                first, second, t.system.ledger, t.epochs[i].at, t.epochs[j].at)
  {
    hide Sound, RunWorld, Before, TakenAt, Genesis, Valid, CompareRows, FlagsTell;
    GenesisSound(digest, a, branches);
    ComparisonTells(digest, Genesis(a, branches), events, i, j, m, n);
  }
}
