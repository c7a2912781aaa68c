/** The append-only event journal (crates/epoch-events): sequence allocation and offset paging. */
module Journal {
  import opened Wrappers
  import opened Ordering

  const MAX_EVENT_PAGE_SIZE: nat := 1_000

  type EventId = string
  type BranchId = string
  type SessionId = string

  /** One row of `events`. */
  datatype Event = Event(id: EventId, session: SessionId, branch: BranchId, sequence: nat, parent: Option<EventId>,
                         kind: string)

  /** The columns of `branches` that the journal uses. */
  datatype Branch = Branch(session: SessionId, nextSequence: nat)

  datatype Tables = Tables(sessions: set<SessionId>, branches: map<BranchId, Branch>, events: seq<Event>)

  /** A request; whether its blobs can be read, and whether its epoch and its blobs have rows that agree. */
  datatype NewEvent = NewEvent(
    session: SessionId, branch: BranchId, parent: Option<EventId>, kind: string,
    wallTime: int, monotonic: nat, blobsReadable: bool, referencesHold: bool)

  datatype JournalError =
    | InvalidWallTime | IntegerOutOfRange | BranchNotFound | BranchSessionMismatch
    | CausalParentNotFound | CausalParentScopeMismatch | ReferenceNotFound | FaultInjected | Database
    | SessionNotFound | InvalidPageLimit | InvalidSequenceRange

  // ---------------------------------------------------------------- append

  /** `COALESCE(MAX(sequence) + 1, 0)` over the events of a branch. */
  function FirstFree(events: seq<Event>, branch: BranchId): (n: nat)
    ensures forall e :: e in events && e.branch == branch ==> e.sequence < n
    ensures n == 0 || exists e :: e in events && e.branch == branch && e.sequence == n - 1
  {
    if events == [] then 0
    else
      var (n, last) := (FirstFree(events[..|events| - 1], branch), events[|events| - 1]);
      assert events == events[..|events| - 1] + [last];
      if last.branch == branch && last.sequence >= n then last.sequence + 1 else n
  }

  ghost predicate HasEvent(events: seq<Event>, id: EventId) {
    exists e :: e in events && e.id == id
  }

  /** `ensure_branch_scope` */
  function CheckBranch(t: Tables, session: SessionId, branch: BranchId): Result<Unit, JournalError> {
    if branch !in t.branches then Err(BranchNotFound)
    else if t.branches[branch].session != session then Err(BranchSessionMismatch)
    else Ok(Unit)
  }

  /** The row with an identifier, if any. */
  function FindEvent(events: seq<Event>, id: EventId): (r: Option<Event>)
    ensures r.Some? ==> r.value in events && r.value.id == id
    ensures r.None? ==> !HasEvent(events, id)
  {
    if events == [] then None
    else if events[0].id == id then Some(events[0])
    else
      var r := FindEvent(events[1..], id);
      assert events == [events[0]] + events[1..];
      r
  }

  /** `ensure_causal_parent_scope` */
  function CheckParent(t: Tables, e: NewEvent): Result<Unit, JournalError> {
    if e.parent.None? then Ok(Unit)
    else
      var row := FindEvent(t.events, e.parent.value);
      if row.None? then Err(CausalParentNotFound)
      else if row.value.session != e.session || row.value.branch != e.branch then Err(CausalParentScopeMismatch)
      else Ok(Unit)
  }

  /** `allocate_sequence`: repair the counter, hand out its value and bump it. */
  function Allocate(t: Tables, branch: BranchId): Result<(Tables, nat), JournalError>
    requires branch in t.branches
  {
    var row := t.branches[branch];
    var free := FirstFree(t.events, branch);
    var next := if row.nextSequence >= free then row.nextSequence else free;
    if next >= MAX_I64 then Err(Database)
    else Ok((t.(branches := t.branches[branch := row.(nextSequence := next + 1)]), next))
  }

  /** `append_inner`: one transaction, so an error leaves the tables as they were. */
  function Append(t: Tables, e: NewEvent, id: EventId, fault: bool): Result<(Tables, Event), JournalError> {
    if e.wallTime < 0 then Err(InvalidWallTime)
    else if e.monotonic > MAX_I64 then Err(IntegerOutOfRange)
    else if !e.blobsReadable then Err(ReferenceNotFound)
    else
      var _ :- CheckBranch(t, e.session, e.branch);
      var _ :- CheckParent(t, e);
      if !e.referencesHold then Err(ReferenceNotFound)
      else
        var (u, sequence) :- Allocate(t, e.branch);
        if fault then Err(FaultInjected)
        else if FindEvent(t.events, id).Some? then Err(Database)
        else
          var row := Event(id, e.session, e.branch, sequence, e.parent, e.kind);
          Ok((u.(events := u.events + [row]), row))
  }

  // ---------------------------------------------------------------- query

  datatype Query = Query(session: SessionId, branch: Option<BranchId>, kind: Option<string>, first: nat, last: nat)

  predicate Matches(q: Query, e: Event) {
    && e.session == q.session
    && (q.branch.Some? ==> e.branch == q.branch.value)
    && (q.kind.Some? ==> e.kind == q.kind.value)
    && q.first <= e.sequence <= q.last
  }

  /** ORDER BY branch_id, sequence, id */
  predicate Precedes(x: Event, y: Event) {
    || Before(x.branch, y.branch)
    || (x.branch == y.branch && x.sequence < y.sequence)
    || (x.branch == y.branch && x.sequence == y.sequence && Before(x.id, y.id))
  }

  predicate MayPrecede(x: Event, y: Event) {
    !Precedes(y, x)
  }

  /** `query`: the matching rows in order. */
  function Select(events: seq<Event>, q: Query): seq<Event> {
    if events == [] then []
    else
      var before := Select(events[..|events| - 1], q);
      if Matches(q, events[|events| - 1]) then Insert(before, events[|events| - 1], MayPrecede) else before
  }

  /** LIMIT and OFFSET */
  function Slice(s: seq<Event>, offset: nat, limit: nat): seq<Event> {
    if offset >= |s| then [] else if offset + limit >= |s| then s[offset..] else s[offset..offset + limit]
  }

  datatype Page = Page(events: seq<Event>, hasMore: bool)

  function CheckScope(t: Tables, q: Query): Result<Unit, JournalError> {
    if q.session !in t.sessions then Err(SessionNotFound)
    else if q.branch.Some? then CheckBranch(t, q.session, q.branch.value)
    else Ok(Unit)
  }

  /** `query_page`: fetch one row more than asked for, to know whether there are more. */
  function SelectPage(t: Tables, q: Query, offset: nat, limit: nat): Result<Page, JournalError> {
    if !(1 <= limit <= MAX_EVENT_PAGE_SIZE) then Err(InvalidPageLimit)
    else if q.first > q.last then Err(InvalidSequenceRange)
    else if q.last > MAX_I64 || offset > MAX_I64 then Err(IntegerOutOfRange)
    else
      var _ :- CheckScope(t, q);
      var fetched := Slice(Select(t.events, q), offset, limit + 1);
      Ok(Page(if |fetched| > limit then fetched[..limit] else fetched, |fetched| > limit))
  }
}
