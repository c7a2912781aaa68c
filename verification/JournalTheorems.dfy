/** Laws of the journal: sequences above everything recorded, and pages that add up while others append. */
module JournalTheorems {
  import opened Wrappers
  import opened Ordering
  import opened Journal

  // ---------------------------------------------------------------- one append

  ghost predicate UniqueIds(events: seq<Event>) {
    forall i, j :: 0 <= i < j < |events| ==> events[i].id != events[j].id
  }

  ghost predicate UniqueSequences(events: seq<Event>) {
    forall i, j :: 0 <= i < j < |events| ==>
      events[i].branch != events[j].branch || events[i].sequence != events[j].sequence
  }

  /** FOREIGN KEY (branch_id, session_id) of an event, and that of its branch. */
  ghost predicate Homed(t: Tables, e: Event) {
    e.branch in t.branches && t.branches[e.branch].session == e.session && e.session in t.sessions
  }

  /** The constraints of the schema; nothing is assumed about the stored counters. */
  ghost predicate Schema(t: Tables) {
    UniqueIds(t.events) && UniqueSequences(t.events) && (forall e :: e in t.events ==> Homed(t, e))
    && (forall b :: b in t.branches ==> t.branches[b].session in t.sessions)
  }

  /** The counter of a branch is past every recorded sequence. */
  ghost predicate CounterCurrent(t: Tables, branch: BranchId) {
    branch in t.branches && forall e :: e in t.events && e.branch == branch ==>
      e.sequence < t.branches[branch].nextSequence
  }

  /**
   Whatever the stored counter says, an appended event is numbered above all events of its branch, after its causal
   parent, nothing recorded changes, and the counter is current afterwards.
   */
  lemma AppendIsAbove(t: Tables, e: NewEvent, id: EventId, fault: bool)
    requires Append(t, e, id, fault).Ok?
    ensures var (u, row) := Append(t, e, id, fault).value;
      && u.events == t.events + [row]
      && row.id == id && row.branch == e.branch && row.session == e.session && row.parent == e.parent
         && row.kind == e.kind
      && (forall x :: x in t.events && x.branch == row.branch ==> x.sequence < row.sequence)
      && (row.parent.Some? ==> exists x :: x in t.events && x.id == row.parent.value && x.branch == row.branch
                                        && x.session == row.session && x.sequence < row.sequence)
      && CounterCurrent(u, e.branch)
      && !HasEvent(t.events, id)
  {
    if e.parent.Some? {
      assert FindEvent(t.events, e.parent.value).value in t.events;
    }
  }

  /** An append changes no branch's session, and its own branch is of its session. */
  lemma AppendKeepsBranches(t: Tables, e: NewEvent, id: EventId, fault: bool)
    requires Append(t, e, id, fault).Ok?
    ensures var (u, row) := Append(t, e, id, fault).value;
      && u.sessions == t.sessions && u.branches.Keys == t.branches.Keys
      && (forall b :: b in t.branches ==> u.branches[b].session == t.branches[b].session)
      && row.branch in t.branches && t.branches[row.branch].session == row.session
  {
    hide FirstFree, FindEvent, CheckParent;
  }

  lemma AppendKeepsSchema(t: Tables, e: NewEvent, id: EventId, fault: bool)
    requires Schema(t) && Append(t, e, id, fault).Ok?
    ensures Schema(Append(t, e, id, fault).value.0)
  {
    hide Append;
    AppendIsAbove(t, e, id, fault);
    AppendKeepsBranches(t, e, id, fault);
    var (u, row) := Append(t, e, id, fault).value;
    forall i | 0 <= i < |t.events|
      ensures t.events[i].id != row.id && (t.events[i].branch != row.branch || t.events[i].sequence != row.sequence)
    {
      assert t.events[i] in t.events;
    }
  }

  ghost predicate ParentThere(t: Tables, e: NewEvent) {
    e.parent.Some? ==>
      exists x :: x in t.events && x.id == e.parent.value && x.session == e.session && x.branch == e.branch
  }

  lemma ParentMeans(t: Tables, e: NewEvent)
    requires UniqueIds(t.events)
    ensures CheckParent(t, e).Ok? <==> ParentThere(t, e)
  {
    if e.parent.Some? {
      var row := FindEvent(t.events, e.parent.value);
      if row.Some? {
        forall x | x in t.events && x.id == e.parent.value ensures x == row.value { SameId(t.events, x, row.value); }
      }
    }
  }

  lemma SameId(events: seq<Event>, x: Event, y: Event)
    requires UniqueIds(events) && x in events && y in events && x.id == y.id
    ensures x == y
  {
    var i :| 0 <= i < |events| && events[i] == x;
    var j :| 0 <= j < |events| && events[j] == y;
  }

  /**
   An event is appended exactly when its times and references hold, its branch is one of its session, its causal
   parent is in the same scope, its identifier is new, and there is a number left; a fault undoes it.
   */
  lemma AppendedExactlyWhen(t: Tables, e: NewEvent, id: EventId, fault: bool)
    requires UniqueIds(t.events)
    ensures Append(t, e, id, fault).Ok? <==>
      && 0 <= e.wallTime && e.monotonic <= 0x7FFF_FFFF_FFFF_FFFF && e.blobsReadable && e.referencesHold && !fault
      && e.branch in t.branches && t.branches[e.branch].session == e.session && ParentThere(t, e)
      && t.branches[e.branch].nextSequence < 0x7FFF_FFFF_FFFF_FFFF
      && FirstFree(t.events, e.branch) < 0x7FFF_FFFF_FFFF_FFFF
      && !HasEvent(t.events, id)
  {
    ParentMeans(t, e);
    hide FirstFree, CheckParent, ParentThere, UniqueIds;
    assert FindEvent(t.events, id).Some? <==> HasEvent(t.events, id);
    hide FindEvent, HasEvent;
  }

  /** What each failure of an append says about the request and the tables. */
  ghost predicate AppendFailsAs(t: Tables, e: NewEvent, id: EventId, fault: bool, error: JournalError) {
    var timely := 0 <= e.wallTime && e.monotonic <= 0x7FFF_FFFF_FFFF_FFFF;
    var homed := timely && e.blobsReadable && e.branch in t.branches && t.branches[e.branch].session == e.session;
    var scoped := homed && ParentThere(t, e) && e.referencesHold;
    var full := scoped && (t.branches[e.branch].nextSequence >= 0x7FFF_FFFF_FFFF_FFFF
      || FirstFree(t.events, e.branch) >= 0x7FFF_FFFF_FFFF_FFFF);
    match error
    case InvalidWallTime => e.wallTime < 0
    case IntegerOutOfRange => 0 <= e.wallTime && e.monotonic > 0x7FFF_FFFF_FFFF_FFFF
    case ReferenceNotFound => timely && (!e.blobsReadable || (homed && ParentThere(t, e) && !e.referencesHold))
    case BranchNotFound => timely && e.blobsReadable && e.branch !in t.branches
    case BranchSessionMismatch =>
      timely && e.blobsReadable && e.branch in t.branches && t.branches[e.branch].session != e.session
    case CausalParentNotFound => homed && e.parent.Some? && !HasEvent(t.events, e.parent.value)
    case CausalParentScopeMismatch =>
      homed && e.parent.Some? && HasEvent(t.events, e.parent.value) && !ParentThere(t, e)
    case FaultInjected => scoped && !full && fault
    case Database => full || (scoped && !fault && HasEvent(t.events, id))
    case _ => false
  }

  lemma ParentFailsAs(t: Tables, e: NewEvent)
    requires UniqueIds(t.events)
    ensures CheckParent(t, e) == Err(CausalParentNotFound) <==>
      e.parent.Some? && !HasEvent(t.events, e.parent.value)
    ensures CheckParent(t, e) == Err(CausalParentScopeMismatch) <==>
      e.parent.Some? && HasEvent(t.events, e.parent.value) && !ParentThere(t, e)
    ensures CheckParent(t, e).Ok? <==> ParentThere(t, e)
  {
    ParentMeans(t, e);
    hide UniqueIds, ParentThere;
    if e.parent.Some? {
      assert FindEvent(t.events, e.parent.value).Some? <==> HasEvent(t.events, e.parent.value);
      hide FindEvent, HasEvent;
    }
  }

  /** Every failing append says why. */
  lemma AppendErrorsTellWhy(t: Tables, e: NewEvent, id: EventId, fault: bool, error: JournalError)
    requires UniqueIds(t.events)
    ensures Append(t, e, id, fault) == Err(error) <==> AppendFailsAs(t, e, id, fault, error)
  {
    ParentFailsAs(t, e);
    hide FirstFree, CheckParent, ParentThere, UniqueIds;
    assert FindEvent(t.events, id).Some? <==> HasEvent(t.events, id);
    hide FindEvent, HasEvent;
  }

  /** What the counter of the branch and the sequence of the row are after an append. */
  lemma AppendNumbers(t: Tables, e: NewEvent, id: EventId, fault: bool)
    requires Append(t, e, id, fault).Ok?
    ensures var (u, row) := Append(t, e, id, fault).value;
      && e.branch in t.branches && e.branch in u.branches && row.branch == e.branch && u.events == t.events + [row]
      && u.branches[e.branch].nextSequence == row.sequence + 1 && row.sequence < MAX_I64
      && row.sequence == Larger(t.branches[e.branch].nextSequence, FirstFree(t.events, e.branch))
  {
    hide FirstFree, FindEvent, CheckParent;
  }

  function Larger(x: nat, y: nat): nat {
    if x >= y then x else y
  }

  lemma FirstFreeAppends(events: seq<Event>, row: Event)
    requires row.sequence >= FirstFree(events, row.branch)
    ensures FirstFree(events + [row], row.branch) == row.sequence + 1
  {
    assert (events + [row])[..|events|] == events;
  }

  /** With a counter that is exactly one past the last event, the next event gets the next number: no gaps. */
  lemma AppendIsDense(t: Tables, e: NewEvent, id: EventId, fault: bool)
    requires Append(t, e, id, fault).Ok? && t.branches[e.branch].nextSequence == FirstFree(t.events, e.branch)
    ensures var (u, row) := Append(t, e, id, fault).value;
      && row.sequence == FirstFree(t.events, e.branch)
      && u.branches[e.branch].nextSequence == FirstFree(u.events, e.branch)
  {
    AppendNumbers(t, e, id, fault);
    hide Append, FirstFree;
    FirstFreeAppends(t.events, Append(t, e, id, fault).value.1);
  }

  /** An event that is refused needs no repair: the tables are only replaced on success. */
  function After(t: Tables, e: NewEvent, id: EventId, fault: bool): Tables {
    var r := Append(t, e, id, fault);
    if r.Ok? then r.value.0 else t
  }

  // ---------------------------------------------------------------- queries of one branch

  /** A query returns exactly the rows of its session, and of its branch, kind and range where it names them. */
  lemma SelectMeans(events: seq<Event>, q: Query, x: Event)
    ensures x in Select(events, q) <==>
      && x in events && x.session == q.session
      && (q.branch == None || q.branch == Some(x.branch)) && (q.kind == None || q.kind == Some(x.kind))
      && q.first <= x.sequence && x.sequence <= q.last
  {
    SelectHolds(events, q);
    hide Select;
  }

  lemma {:induction false} SelectHolds(events: seq<Event>, q: Query)
    ensures forall x :: x in Select(events, q) <==> x in events && Matches(q, x)
  {
    if events != [] {
      var before, last := events[..|events| - 1], events[|events| - 1];
      SelectHolds(before, q);
      InsertHolds(Select(before, q), last, MayPrecede);
      assert events == before + [last];
    }
  }

  /** Appending a row that is numbered above its branch extends every query of one branch at the end. */
  lemma SelectExtends(events: seq<Event>, row: Event, q: Query)
    requires q.branch.Some?
    requires forall x :: x in events && x.branch == row.branch ==> x.sequence < row.sequence
    ensures Select(events + [row], q) == Select(events, q) + (if Matches(q, row) then [row] else [])
  {
    assert (events + [row])[..|events|] == events;
    SelectHolds(events, q);
    var before := Select(events, q);
    if Matches(q, row) && before != [] {
      assert before[|before| - 1] in before;
      SameStringIsNotBefore(row.branch);
    }
  }

  lemma SameStringIsNotBefore(s: string)
    ensures !Before(s, s)
  {
    if Before(s, s) { BeforeIsAsymmetric(s, s); }
  }

  /** A query to which appends only ever add at the end: of one branch, or past every number that is handed out. */
  predicate Appendable(q: Query) {
    q.branch.Some? || q.first >= MAX_I64
  }

  lemma AppendExtendsQuery(t: Tables, e: NewEvent, id: EventId, fault: bool, q: Query)
    requires Appendable(q)
    ensures Select(t.events, q) <= Select(After(t, e, id, fault).events, q)
  {
    if Append(t, e, id, fault).Ok? {
      var row := Append(t, e, id, fault).value.1;
      AppendIsAbove(t, e, id, fault);
      AppendNumbers(t, e, id, fault);
      hide Append, Select;
      if q.branch.Some? { SelectExtends(t.events, row, q); } else { SelectIgnores(t.events, row, q); }
    }
  }

  lemma SelectIgnores(events: seq<Event>, row: Event, q: Query)
    requires !Matches(q, row)
    ensures Select(events + [row], q) == Select(events, q)
  {
    assert (events + [row])[..|events|] == events;
  }

  predicate BySequence(s: seq<Event>) {
    forall i, j :: 0 <= i < j < |s| ==> s[i].sequence < s[j].sequence
  }

  lemma PrecedesInBranch(x: Event, y: Event)
    requires x.branch == y.branch && x.sequence != y.sequence
    ensures Precedes(x, y) <==> x.sequence < y.sequence
  {
    SameStringIsNotBefore(x.branch);
    hide Before;
  }

  predicate SequenceBefore(x: Event, y: Event) {
    x.sequence < y.sequence
  }

  lemma InsertSorts(s: seq<Event>, e: Event)
    requires BySequence(s) && forall x :: x in s ==> x.branch == e.branch && x.sequence != e.sequence
    ensures BySequence(Insert(s, e, MayPrecede))
  {
    hide Precedes;
    forall x | x in s ensures if MayPrecede(x, e) then SequenceBefore(x, e) else SequenceBefore(e, x) {
      PrecedesInBranch(e, x);
    }
    assert Increasing(s, SequenceBefore);
    InsertIncreases(s, e, MayPrecede, SequenceBefore);
    hide Insert;
    var r := Insert(s, e, MayPrecede);
    assert forall i, j :: 0 <= i < j < |r| ==> SequenceBefore(r[i], r[j]);
  }

  // ---------------------------------------------------------------- nothing is selected twice

  ghost predicate Repeats(s: seq<Event>) {
    exists i, j :: 0 <= i < j < |s| && s[i] == s[j]
  }

  lemma AppendRepeats(s: seq<Event>, e: Event)
    requires !Repeats(s) && e !in s
    ensures !Repeats(s + [e])
  {
    var t := s + [e];
    forall i, j | 0 <= i < j < |t| ensures t[i] != t[j] {
      if j == |s| { assert s[i] in s; }
    }
  }

  lemma {:induction false} InsertRepeats(s: seq<Event>, e: Event)
    requires !Repeats(s) && e !in s
    ensures !Repeats(Insert(s, e, MayPrecede))
  {
    hide Precedes;
    if s != [] && !MayPrecede(s[|s| - 1], e) {
      var before, last := s[..|s| - 1], s[|s| - 1];
      assert !Repeats(before) && last !in before && e != last;
      InsertRepeats(before, e);
      InsertHolds(before, e, MayPrecede);
      AppendRepeats(Insert(before, e, MayPrecede), last);
    } else {
      AppendRepeats(s, e);
    }
  }

  lemma {:induction false} SelectRepeatsNothing(events: seq<Event>, q: Query)
    requires UniqueIds(events)
    ensures !Repeats(Select(events, q))
  {
    if events != [] {
      var before, last := events[..|events| - 1], events[|events| - 1];
      SelectRepeatsNothing(before, q);
      SelectHolds(before, q);
      assert last !in before;
      hide Insert;
      if Matches(q, last) { InsertRepeats(Select(before, q), last); }
    }
  }

  // ---------------------------------------------------------------- queries of one branch are sorted

  /** Within a branch a query is strictly increasing by sequence, so it repeats nothing. */
  lemma {:induction false} SelectIsSorted(events: seq<Event>, q: Query)
    requires q.branch.Some? && UniqueSequences(events)
    ensures BySequence(Select(events, q))
  {
    if events != [] {
      var before, last := events[..|events| - 1], events[|events| - 1];
      SelectIsSorted(before, q);
      SelectHolds(before, q);
      if Matches(q, last) {
        InsertSorts(Select(before, q), last);
      }
    }
  }

  /** By branch, then by sequence, then by identifier. */
  ghost predicate InOrder(x: Event, y: Event) {
    if x.branch != y.branch then Before(x.branch, y.branch)
    else if x.sequence != y.sequence then x.sequence < y.sequence
    else Before(x.id, y.id)
  }

  lemma PrecedesMeans(x: Event, y: Event)
    ensures Precedes(x, y) <==> InOrder(x, y)
    ensures x.id != y.id ==> Precedes(x, y) || Precedes(y, x)
  {
    if Before(x.branch, y.branch) { BeforeIsAsymmetric(x.branch, y.branch); }
    BeforeIsTotal(x.branch, y.branch);
    BeforeIsTotal(x.id, y.id);
    hide Before;
  }

  lemma PrecedesIsTransitive()
    ensures Transitive(Precedes)
  {
    forall x, y, z | Precedes(x, y) && Precedes(y, z) ensures Precedes(x, z) {
      if Before(x.branch, y.branch) && Before(y.branch, z.branch) { BeforeIsTransitive(x.branch, y.branch, z.branch); }
      if Before(x.id, y.id) && Before(y.id, z.id) { BeforeIsTransitive(x.id, y.id, z.id); }
      hide Before;
    }
  }

  ghost predicate Ordered(s: seq<Event>) {
    forall i, j :: 0 <= i < j < |s| ==> InOrder(s[i], s[j])
  }

  lemma InsertKeepsOrder(s: seq<Event>, x: Event)
    requires Ordered(s) && forall y :: y in s ==> y.id != x.id
    ensures Ordered(Insert(s, x, MayPrecede))
  {
    PrecedesIsTransitive();
    forall y, z ensures Precedes(y, z) <==> InOrder(y, z) { PrecedesMeans(y, z); }
    forall y | y in s ensures if MayPrecede(y, x) then Precedes(y, x) else Precedes(x, y) { PrecedesMeans(y, x); }
    hide Precedes, InOrder;
    InsertIncreases(s, x, MayPrecede, Precedes);
    var t := Insert(s, x, MayPrecede);
    forall i, j | 0 <= i < j < |t| ensures InOrder(t[i], t[j]) { assert Precedes(t[i], t[j]); }
  }

  /** Any query, over one branch or a whole session, comes in the order of branch, sequence and identifier. */
  lemma {:induction false} SelectIsInOrder(events: seq<Event>, q: Query)
    requires UniqueIds(events)
    ensures Ordered(Select(events, q))
  {
    if events != [] {
      var before, last := events[..|events| - 1], events[|events| - 1];
      SelectIsInOrder(before, q);
      SelectHolds(before, q);
      hide Ordered;
      if Matches(q, last) { InsertKeepsOrder(Select(before, q), last); }
    }
  }

  // ---------------------------------------------------------------- a reader among writers

  /** Appends by anybody, and the reader's requests for its next page. */
  datatype Action = Write(event: NewEvent, id: EventId, fault: bool) | Read(limit: nat)

  /** The journal and what the reader has collected; the next offset is how much that is. */
  datatype Reading = Reading(tables: Tables, seen: seq<Event>)

  function Act(r: Reading, q: Query, action: Action): Reading {
    match action
    case Write(e, id, fault) => r.(tables := After(r.tables, e, id, fault))
    case Read(limit) =>
      var page := SelectPage(r.tables, q, |r.seen|, limit);
      if page.Ok? then r.(seen := r.seen + page.value.events) else r
  }

  function Acts(r: Reading, q: Query, actions: seq<Action>): Reading {
    if actions == [] then r else Act(Acts(r, q, actions[..|actions| - 1]), q, actions[|actions| - 1])
  }

  lemma PageContinues(s: seq<Event>, n: nat, limit: nat)
    requires n <= |s|
    ensures var fetched := Slice(s, n, limit + 1);
      var page := if |fetched| > limit then fetched[..limit] else fetched;
      && s[..n] + page <= s
      && (|fetched| <= limit ==> s[..n] + page == s)
  {
    var fetched := Slice(s, n, limit + 1);
    var page := if |fetched| > limit then fetched[..limit] else fetched;
    assert fetched <= s[n..];
    assert page <= s[n..];
    assert s == s[..n] + s[n..];
  }

  /** A page holds the next rows up to its limit, and says there are more exactly when more rows match. */
  lemma PageTells(t: Tables, q: Query, offset: nat, limit: nat)
    ensures var r, s := SelectPage(t, q, offset, limit), Select(t.events, q);
      && (r.Ok? <==>
            && 1 <= limit <= 1_000 && Readable(q) && offset <= 0x7FFF_FFFF_FFFF_FFFF && q.session in t.sessions
            && (q.branch.Some? ==> q.branch.value in t.branches && t.branches[q.branch.value].session == q.session))
      && (r.Ok? ==>
            && (r.value.hasMore <==> |s| > offset + limit)
            && r.value.events == s[Smaller(offset, |s|)..Smaller(offset + limit, |s|)])
      && (r == Err(InvalidPageLimit) <==> limit == 0 || limit > 1_000)
      && (r == Err(InvalidSequenceRange) <==> 1 <= limit <= 1_000 && q.last < q.first)
      && (r.Err? && 1 <= limit <= 1_000 && Readable(q) && offset <= 0x7FFF_FFFF_FFFF_FFFF ==>
            r.error == (if q.session !in t.sessions then SessionNotFound
                        else if q.branch.value !in t.branches then BranchNotFound else BranchSessionMismatch))
      && (r == Err(IntegerOutOfRange) <==>
            && 1 <= limit <= 1_000 && q.first <= q.last
            && (q.last > 0x7FFF_FFFF_FFFF_FFFF || offset > 0x7FFF_FFFF_FFFF_FFFF))
  {
    hide Select;
  }

  function Smaller(x: nat, y: nat): nat {
    if x <= y then x else y
  }

  lemma ReadContinues(r: Reading, q: Query, limit: nat)
    requires r.seen <= Select(r.tables.events, q)
    ensures Act(r, q, Read(limit)).seen <= Select(r.tables.events, q)
    ensures var page := SelectPage(r.tables, q, |r.seen|, limit);
      page.Ok? && !page.value.hasMore ==> Act(r, q, Read(limit)).seen == Select(r.tables.events, q)
  {
    var s := Select(r.tables.events, q);
    assert s[..|r.seen|] == r.seen;
    PageContinues(s, |r.seen|, limit);
    hide Select, Slice;
  }

  /** A query that a page can be read of: its bounds are ordered and fit the column. */
  predicate Readable(q: Query) {
    q.first <= q.last <= MAX_I64
  }

  /** A readable query over a whole session that appended events can match. */
  predicate Overtakable(q: Query) {
    Readable(q) && q.branch.None? && q.first < MAX_I64
  }

  /**
   Pages of a query on one branch, read one after the other while anybody appends: together they are a prefix of what
   the query returns at the end. The same holds of every query but those over a session that appends can match.
   */
  lemma {:induction false} PagesAddUp(t: Tables, q: Query, actions: seq<Action>)
    requires !Overtakable(q)
    ensures var r := Acts(Reading(t, []), q, actions);
      r.seen <= Select(r.tables.events, q) && (r.seen == [] || Readable(q))
  {
    if actions != [] {
      var n := |actions| - 1;
      PagesAddUp(t, q, actions[..n]);
      var r := Acts(Reading(t, []), q, actions[..n]);
      match actions[n]
      case Write(e, id, fault) =>
        hide Select, Append;
        if Readable(q) { AppendExtendsQuery(r.tables, e, id, fault, q); }
      case Read(limit) =>
        ReadContinues(r, q, limit);
        hide Select, Slice;
    }
  }

  lemma {:induction false} ActsKeepSchema(t: Tables, q: Query, actions: seq<Action>)
    requires Schema(t)
    ensures Schema(Acts(Reading(t, []), q, actions).tables)
  {
    if actions != [] {
      var n := |actions| - 1;
      ActsKeepSchema(t, q, actions[..n]);
      var r := Acts(Reading(t, []), q, actions[..n]);
      hide Append, Schema;
      if actions[n].Write? && Append(r.tables, actions[n].event, actions[n].id, actions[n].fault).Ok? {
        AppendKeepsSchema(r.tables, actions[n].event, actions[n].id, actions[n].fault);
      }
    }
  }

  /** And no event is ever delivered twice; those of one branch come strictly increasing. */
  lemma PagesRepeatNothing(t: Tables, q: Query, actions: seq<Action>)
    requires !Overtakable(q) && Schema(t)
    ensures !Repeats(Acts(Reading(t, []), q, actions).seen)
    ensures q.branch.Some? ==> BySequence(Acts(Reading(t, []), q, actions).seen)
  {
    var r := Acts(Reading(t, []), q, actions);
    PagesAddUp(t, q, actions);
    ActsKeepSchema(t, q, actions);
    hide Acts, Select, UniqueIds, UniqueSequences, Homed;
    var s := Select(r.tables.events, q);
    SelectRepeatsNothing(r.tables.events, q);
    assert forall i :: 0 <= i < |r.seen| ==> r.seen[i] == s[i];
    if q.branch.Some? { SelectIsSorted(r.tables.events, q); }
  }

  // ---------------------------------------------------------------- why the branch matters

  function KindFor(q: Query): string {
    if q.kind.Some? then q.kind.value else "any"
  }

  /** An event that the query matches, and its row. */
  function NewIn(q: Query, branch: BranchId): NewEvent {
    NewEvent(q.session, branch, None, KindFor(q), 0, 0, true, true)
  }

  function RowIn(q: Query, branch: BranchId, id: EventId): Event {
    Event(id, q.session, branch, q.first, None, KindFor(q))
  }

  /** A session with two branches and no event yet, the counters standing at the first number the query asks for. */
  function Untouched(q: Query, lower: BranchId, upper: BranchId): Tables {
    Tables({q.session}, map[lower := Branch(q.session, q.first), upper := Branch(q.session, q.first)], [])
  }

  /** An event in the upper branch, a page, an event in the lower branch, and the next page. */
  function Overtaking(q: Query, lower: BranchId, upper: BranchId, x: EventId, y: EventId): seq<Action> {
    [Write(NewIn(q, upper), x, false), Read(1), Write(NewIn(q, lower), y, false), Read(1)]
  }

  lemma ActsFour(r: Reading, q: Query, w: Action, x: Action, y: Action, z: Action)
    ensures Acts(r, q, [w, x, y, z]) == Act(Act(Act(Act(r, q, w), q, x), q, y), q, z)
  {
    var four, three, two, one := [w, x, y, z], [w, x, y], [w, x], [w];
    assert four[..3] == three && three[..2] == two && two[..1] == one && one[..0] == [];
    hide Act;
    assert Acts(r, q, []) == r;
    assert Acts(r, q, one) == Act(r, q, w);
    assert Acts(r, q, two) == Act(Act(r, q, w), q, x);
    assert Acts(r, q, three) == Act(Act(Act(r, q, w), q, x), q, y);
  }

  /** The first event of a branch takes the number its counter stands at. */
  lemma FirstAppend(t: Tables, q: Query, branch: BranchId, id: EventId)
    requires q.first < MAX_I64 && branch in t.branches && t.branches[branch] == Branch(q.session, q.first)
    requires forall e :: e in t.events ==> e.branch != branch && e.id != id
    ensures var u := After(t, NewIn(q, branch), id, false);
      && u.events == t.events + [RowIn(q, branch, id)] && u.sessions == t.sessions
      && forall b :: b in t.branches && b != branch ==> b in u.branches && u.branches[b] == t.branches[b]
  {
    assert FirstFree(t.events, branch) == 0;
    assert FindEvent(t.events, id).None?;
    hide FirstFree, FindEvent;
  }

  /** Reading one event of what the query returns now. */
  lemma ReadOne(r: Reading, q: Query, s: seq<Event>)
    requires Readable(q) && q.branch.None? && q.session in r.tables.sessions
    requires Select(r.tables.events, q) == s && |r.seen| < |s| && |r.seen| <= MAX_I64
    ensures Act(r, q, Read(1)) == r.(seen := r.seen + [s[|r.seen|]])
  {
    hide Select;
    var n := |r.seen|;
    var fetched := Slice(s, n, 2);
    assert fetched[0] == s[n];
    assert (if |fetched| > 1 then fetched[..1] else fetched) == [s[n]];
  }

  lemma SelectOne(q: Query, row: Event)
    requires Matches(q, row)
    ensures Select([row], q) == [row]
  {
    assert [row][..0] == [] && Select([], q) == [];
  }

  lemma SelectTwo(q: Query, row: Event, added: Event)
    requires Matches(q, row) && Matches(q, added) && Precedes(added, row)
    ensures Select([row, added], q) == [added, row]
  {
    assert [row, added][..1] == [row];
    SelectOne(q, row);
    assert [row][..0] == [];
    assert Insert([], added, MayPrecede) == [added];
    assert Insert([row], added, MayPrecede) == Insert([], added, MayPrecede) + [row];
  }

  lemma UntouchedSchema(q: Query, lower: BranchId, upper: BranchId)
    ensures Schema(Untouched(q, lower, upper))
  {
  }

  /** The tables after the two appends. */
  lemma OvertakingTables(q: Query, lower: BranchId, upper: BranchId, x: EventId, y: EventId)
    requires q.first < MAX_I64 && lower != upper && x != y
    ensures var u := After(Untouched(q, lower, upper), NewIn(q, upper), x, false);
      var v := After(u, NewIn(q, lower), y, false);
      && u.events == [RowIn(q, upper, x)] && u.sessions == {q.session}
      && v.events == [RowIn(q, upper, x), RowIn(q, lower, y)] && v.sessions == {q.session}
  {
    var t := Untouched(q, lower, upper);
    hide After;
    FirstAppend(t, q, upper, x);
    FirstAppend(After(t, NewIn(q, upper), x, false), q, lower, y);
  }

  lemma OvertakingSelects(q: Query, lower: BranchId, upper: BranchId, x: EventId, y: EventId)
    requires Overtakable(q) && Before(lower, upper)
    ensures Select([RowIn(q, upper, x)], q) == [RowIn(q, upper, x)]
    ensures Select([RowIn(q, upper, x), RowIn(q, lower, y)], q) == [RowIn(q, lower, y), RowIn(q, upper, x)]
  {
    hide Before, Select;
    SelectOne(q, RowIn(q, upper, x));
    SelectTwo(q, RowIn(q, upper, x), RowIn(q, lower, y));
  }

  /**
   Over a session the claim fails: when an append lands in a branch that sorts earlier, the reader is handed an event
   it already has. A query without a sequence range meets this in a session that starts empty.
   */
  lemma SessionPagesCanRepeat(q: Query, lower: BranchId, upper: BranchId, x: EventId, y: EventId)
    requires Overtakable(q) && Before(lower, upper) && x != y
    ensures Schema(Untouched(q, lower, upper))
    ensures Acts(Reading(Untouched(q, lower, upper), []), q, Overtaking(q, lower, upper, x, y)).seen
         == [RowIn(q, upper, x), RowIn(q, upper, x)]
  {
    var t, row, added := Untouched(q, lower, upper), RowIn(q, upper, x), RowIn(q, lower, y);
    var write, overtake := Write(NewIn(q, upper), x, false), Write(NewIn(q, lower), y, false);
    var u, v := After(t, write.event, x, false), After(After(t, write.event, x, false), overtake.event, y, false);
    UntouchedSchema(q, lower, upper);
    BeforeIsAsymmetric(lower, upper);
    OvertakingTables(q, lower, upper, x, y);
    OvertakingSelects(q, lower, upper, x, y);
    ActsFour(Reading(t, []), q, write, Read(1), overtake, Read(1));
    assert Act(Reading(t, []), q, write) == Reading(u, []);
    assert Act(Reading(u, [row]), q, overtake) == Reading(v, [row]);
    hide Select, After, Acts, Act, Before, Untouched, RowIn, NewIn, Schema;
    ReadOne(Reading(u, []), q, [row]);
    ReadOne(Reading(v, [row]), q, [added, row]);
  }

  ghost predicate SomeRunRepeats(q: Query) {
    exists t, actions :: Schema(t) && Repeats(Acts(Reading(t, []), q, actions).seen)
  }

  /**
   Some run delivers an event twice if and only if the query is readable, names no branch, and appends can match it.
   */
  lemma PagesRepeatExactlyWhen(q: Query)
    ensures SomeRunRepeats(q) <==> Overtakable(q)
  {
    hide Schema, Acts;
    if Overtakable(q) {
      var x, y := "x", "y";
      assert x != y && Before("a", "b");
      SessionPagesCanRepeat(q, "a", "b", x, y);
      var seen := [RowIn(q, "b", x), RowIn(q, "b", x)];
      assert seen[0] == seen[1];
    } else {
      forall t, actions | Schema(t) ensures !Repeats(Acts(Reading(t, []), q, actions).seen) {
        PagesRepeatNothing(t, q, actions);
      }
    }
  }
}
