/** The journal as an object whose rows and counters change in place. */
module EventJournals {
  import opened Wrappers
  import opened Ordering
  import opened Journal
  import opened JournalTheorems

  class EventJournal {
    var sessions: set<SessionId>
    var branches: map<BranchId, Branch>
    var events: seq<Event>

    ghost function State(): Tables
      reads this
    {
      Tables(sessions, branches, events)
    }

    /** The largest sequence of a branch plus one, or zero. */
    method NextFree(branch: BranchId) returns (n: nat)
      ensures n == FirstFree(events, branch)
    {
      n := 0;
      for i := 0 to |events|
        invariant n == FirstFree(events[..i], branch)
      {
        assert events[..i + 1][..i] == events[..i];
        if events[i].branch == branch && events[i].sequence >= n {
          n := events[i].sequence + 1;
        }
      }
      assert events[..|events|] == events;
    }

    /** `allocate_sequence`: two updates of the branch row. */
    method AllocateSequence(branch: BranchId) returns (r: Result<nat, JournalError>)
      requires branch in branches
      modifies this`branches
      ensures var spec := Allocate(old(State()), branch);
        if spec.Ok? then r == Ok(spec.value.1) && State() == spec.value.0
        else r == Err(spec.error) && events == old(events) && sessions == old(sessions)
    {
      var free := NextFree(branch);
      if branches[branch].nextSequence < free {
        branches := branches[branch := branches[branch].(nextSequence := free)];
      }
      if branches[branch].nextSequence >= MAX_I64 {
        return Err(Database);
      }
      var sequence := branches[branch].nextSequence;
      branches := branches[branch := branches[branch].(nextSequence := sequence + 1)];
      return Ok(sequence);
    }

    /** `append_inner`: an error drops the transaction, which restores the counters. */
    method Append(e: NewEvent, id: EventId, fault: bool) returns (r: Result<Event, JournalError>)
      modifies this`branches, this`events
      ensures State() == After(old(State()), e, id, fault)
      ensures var spec := Journal.Append(old(State()), e, id, fault);
        r == if spec.Ok? then Ok(spec.value.1) else Err(spec.error)
    {
      if e.wallTime < 0 {
        return Err(InvalidWallTime);
      }
      if e.monotonic > MAX_I64 {
        return Err(IntegerOutOfRange);
      }
      if !e.blobsReadable {
        return Err(ReferenceNotFound);
      }
      var before := branches;
      var scope := CheckBranch(Tables(sessions, branches, events), e.session, e.branch);
      if scope.Err? {
        return Err(scope.error);
      }
      var parent := CheckParent(Tables(sessions, branches, events), e);
      if parent.Err? {
        return Err(parent.error);
      }
      if !e.referencesHold {
        return Err(ReferenceNotFound);
      }
      var numbered := AllocateSequence(e.branch);
      if numbered.Err? {
        branches := before;
        return Err(numbered.error);
      }
      if fault {
        branches := before;
        return Err(FaultInjected);
      }
      if FindEvent(events, id).Some? {
        branches := before;
        return Err(Database);
      }
      var row := Event(id, e.session, e.branch, numbered.value, e.parent, e.kind);
      events := events + [row];
      return Ok(row);
    }

    /** `query` without its scope checks. */
    method Rows(q: Query) returns (s: seq<Event>)
      ensures s == Select(events, q)
    {
      s := [];
      for i := 0 to |events|
        invariant s == Select(events[..i], q)
      {
        assert events[..i + 1][..i] == events[..i];
        if Matches(q, events[i]) {
          s := Insert(s, events[i], MayPrecede);
        }
      }
      assert events[..|events|] == events;
    }

    /** `query_page` */
    method QueryPage(q: Query, offset: nat, limit: nat) returns (r: Result<Page, JournalError>)
      ensures r == SelectPage(State(), q, offset, limit)
    {
      hide Select;
      if limit < 1 || limit > MAX_EVENT_PAGE_SIZE {
        return Err(InvalidPageLimit);
      }
      if q.first > q.last {
        return Err(InvalidSequenceRange);
      }
      if q.last > MAX_I64 || offset > MAX_I64 {
        return Err(IntegerOutOfRange);
      }
      var scope := CheckScope(Tables(sessions, branches, events), q);
      if scope.Err? {
        return Err(scope.error);
      }
      var rows := Rows(q);
      var fetched := Slice(rows, offset, limit + 1);
      var hasMore := |fetched| > limit;
      return Ok(Page(if hasMore then fetched[..limit] else fetched, hasMore));
    }
  }
}
