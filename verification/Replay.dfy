/** Replay reports (crates/epoch-supervisor/src/fork.rs): the recorded results before a safe point. */
module Replay {
  import opened Wrappers
  import opened Protocol
  import opened Traces
  import opened Ordering
  import ValidatorRefinement

  /** A recorded model or tool result; hashes are unverified claims. */
  datatype Recorded =
    | RecordedModel(sequence: nat, id: string, outputHash: Hash)
    | RecordedTool(sequence: nat, id: string, outcome: ToolOutcome, resultHash: Option<Hash>)

  /** `Message::kind`, and the kinds of the supervisor's own events. */
  datatype EventKind =
    | AgentStartKind | ContextUpdateKind | ModelRequestKind | ModelResponseKind
    | ToolCallKind | ToolResultKind | SafePointKind | CompletionKind
    | OtherKind(name: string)

  function KindOf(m: Message): EventKind {
    match m
    case AgentStart(_, _, _, _) => AgentStartKind
    case ContextUpdate(_, _, _) => ContextUpdateKind
    case ModelRequest(_, _, _, _) => ModelRequestKind
    case ModelResponse(_, _, _) => ModelResponseKind
    case ToolCall(_, _, _, _) => ToolCallKind
    case ToolResult(_, _, _, _) => ToolResultKind
    case SafePoint(_, _, _) => SafePointKind
    case Completion(_, _, _) => CompletionKind
  }

  /** Each message is journalled under the kind of its own constructor. */
  lemma KindsTell(m: Message)
    ensures (KindOf(m) == AgentStartKind <==> m.AgentStart?) && (KindOf(m) == ContextUpdateKind <==> m.ContextUpdate?)
    ensures KindOf(m) == ModelRequestKind <==> m.ModelRequest?
    ensures KindOf(m) == ModelResponseKind <==> m.ModelResponse?
    ensures (KindOf(m) == ToolCallKind <==> m.ToolCall?) && (KindOf(m) == ToolResultKind <==> m.ToolResult?)
    ensures (KindOf(m) == SafePointKind <==> m.SafePoint?) && (KindOf(m) == CompletionKind <==> m.Completion?)
  {
  }

  /** A journal row; `record` is what its payload decodes to, if it is a protocol record at all. */
  datatype JournalEvent = JournalEvent(branch: string, kind: EventKind, record: Option<Envelope>)

  /** The recorded result that an envelope carries, by kind. */
  function ResultIn(e: Envelope, k: Kind): Option<Recorded> {
    match e.message
    case ModelResponse(id, hash, _) => if k.Model? then Some(RecordedModel(e.sequence, id, hash)) else None
    case ToolResult(id, outcome, hash, _) => if k.Tool? then Some(RecordedTool(e.sequence, id, outcome, hash)) else None
    case _ => None
  }

  // ---------------------------------------------------------------- sorting

  predicate SortedBySequence(s: seq<Recorded>) {
    forall i, j :: 0 <= i < j < |s| ==> s[i].sequence < s[j].sequence
  }

  predicate NotLater(x: Recorded, y: Recorded) {
    x.sequence <= y.sequence
  }

  /** `sort_by_key` on the protocol sequence */
  function SortBySequence(s: seq<Recorded>): seq<Recorded> {
    Sort(s, NotLater)
  }

  // ---------------------------------------------------------------- the report

  /** The loop looks at an event of the branch that has a result kind. */
  predicate Examined(event: JournalEvent, branch: string) {
    event.branch == branch && (event.kind.ModelResponseKind? || event.kind.ToolResultKind?)
  }

  /** An examined event that the report refuses: not a record, or a record up to the boundary that is no result. */
  predicate Refused(event: JournalEvent, branch: string, boundary: nat) {
    Examined(event, branch) &&
    (event.record.None? || (event.record.value.sequence <= boundary && !IsResult(event.record.value.message)))
  }

  predicate IsResult(m: Message) {
    m.ModelResponse? || m.ToolResult?
  }

  /** What one event adds to the list of a kind. */
  function Adds(event: JournalEvent, branch: string, boundary: nat, k: Kind): seq<Recorded> {
    if Examined(event, branch) && event.record.Some? && event.record.value.sequence <= boundary
    then ListOf(ResultIn(event.record.value, k)) else []
  }

  /** What the events add, in journal order. */
  function Collected(events: seq<JournalEvent>, branch: string, boundary: nat, k: Kind): seq<Recorded> {
    if events == [] then []
    else Collected(events[..|events| - 1], branch, boundary, k) + Adds(events[|events| - 1], branch, boundary, k)
  }

  function Report(events: seq<JournalEvent>, branch: string, boundary: nat, k: Kind): seq<Recorded> {
    SortBySequence(Collected(events, branch, boundary, k))
  }

  lemma CollectedNext(events: seq<JournalEvent>, i: nat, branch: string, boundary: nat, k: Kind)
    requires i < |events|
    ensures Collected(events[..i + 1], branch, boundary, k)
         == Collected(events[..i], branch, boundary, k) + Adds(events[i], branch, boundary, k)
  {
    assert events[..i + 1][..i] == events[..i];
  }

  datatype RecoveryError = MetadataMismatch

  /** One turn of the loop: what an event adds to the two lists, or why the report fails. */
  method ReadEvent(event: JournalEvent, branch: string, boundary: nat)
    returns (r: Result<(seq<Recorded>, seq<Recorded>), RecoveryError>)
    ensures r.Err? <==> Refused(event, branch, boundary)
    ensures r.Ok? ==> r.value == (Adds(event, branch, boundary, Model), Adds(event, branch, boundary, Tool))
  {
    if !Examined(event, branch) {
      return Ok(([], []));
    }
    if event.record.None? {
      return Err(MetadataMismatch);
    }
    var envelope := event.record.value;
    if envelope.sequence > boundary {
      return Ok(([], []));
    }
    if !IsResult(envelope.message) {
      return Err(MetadataMismatch);
    }
    return Ok((ListOf(ResultIn(envelope, Model)), ListOf(ResultIn(envelope, Tool))));
  }

  /** `replay_report` */
  method ReplayReport(events: seq<JournalEvent>, branch: string, boundary: nat)
    returns (r: Result<(seq<Recorded>, seq<Recorded>), RecoveryError>)
    ensures r.Err? <==> exists i :: 0 <= i < |events| && Refused(events[i], branch, boundary)
    ensures r.Ok? ==> r.value == (Report(events, branch, boundary, Model), Report(events, branch, boundary, Tool))
  {
    var model, tool := [], [];
    assert Collected(events[..0], branch, boundary, Model) == []
        && Collected(events[..0], branch, boundary, Tool) == [];
    hide Collected, Sort, Refused, Adds;
    for i := 0 to |events|
      invariant forall j :: 0 <= j < i ==> !Refused(events[j], branch, boundary)
      invariant model == Collected(events[..i], branch, boundary, Model)
      invariant tool == Collected(events[..i], branch, boundary, Tool)
    {
      CollectedNext(events, i, branch, boundary, Model);
      CollectedNext(events, i, branch, boundary, Tool);
      var added := ReadEvent(events[i], branch, boundary);
      if added.Err? {
        return Err(added.error);
      }
      model, tool := model + added.value.0, tool + added.value.1;
    }
    assert events[..|events|] == events;
    return Ok((SortBySequence(model), SortBySequence(tool)));
  }

  /** An event of the branch, of a result kind, at or before the boundary, whose record has every field of the entry. */
  ghost predicate Lists(event: JournalEvent, branch: string, boundary: nat, k: Kind, r: Recorded) {
    && event.branch == branch && (event.kind == ModelResponseKind || event.kind == ToolResultKind)
    && event.record.Some? && event.record.value.sequence == r.sequence && r.sequence <= boundary
    && match r
       case RecordedModel(_, id, hash) =>
         k.Model? && exists ext :: event.record.value.message == ModelResponse(id, hash, ext)
       case RecordedTool(_, id, outcome, hash) =>
         k.Tool? && exists ext :: event.record.value.message == ToolResult(id, outcome, hash, ext)
  }

  lemma AddsMeans(event: JournalEvent, branch: string, boundary: nat, k: Kind, r: Recorded)
    ensures r in Adds(event, branch, boundary, k) <==> Lists(event, branch, boundary, k, r)
  {
    if Examined(event, branch) && event.record.Some? {
      var m := event.record.value.message;
      if m.ModelResponse? { assert m == ModelResponse(m.requestId, m.outputHash, m.ext); }
      if m.ToolResult? { assert m == ToolResult(m.callId, m.outcome, m.resultHash, m.ext); }
    }
  }

  lemma {:induction false} CollectedMeans(events: seq<JournalEvent>, branch: string, boundary: nat, k: Kind,
                                          r: Recorded)
    ensures r in Collected(events, branch, boundary, k) <==>
        exists event :: event in events && Lists(event, branch, boundary, k, r)
  {
    if events != [] {
      var before, last := events[..|events| - 1], events[|events| - 1];
      CollectedMeans(before, branch, boundary, k, r);
      AddsMeans(last, branch, boundary, k, r);
      hide Adds, Lists;
      assert events == before + [last];
    }
  }

  /** For any journal, the report is in the order of the recorded sequences, and sorting lost and repeated nothing. */
  lemma ReportIsSorted(events: seq<JournalEvent>, branch: string, boundary: nat, k: Kind)
    ensures var r := Report(events, branch, boundary, k);
      forall i, j :: 0 <= i < j < |r| ==> r[i].sequence <= r[j].sequence
    ensures multiset(Report(events, branch, boundary, k)) == multiset(Collected(events, branch, boundary, k))
  {
    var all := Collected(events, branch, boundary, k);
    SortPermutes(all, NotLater);
    assert Transitive(NotLater);
    SortIncreases(all, NotLater, NotLater);
    assert Increasing(Sort(all, NotLater), NotLater);
  }

  /** For any journal, the report lists exactly the results of the branch up to the boundary, with their own fields. */
  lemma ReportMeans(events: seq<JournalEvent>, branch: string, boundary: nat, k: Kind, r: Recorded)
    ensures r in Report(events, branch, boundary, k) <==>
        exists event :: event in events && Lists(event, branch, boundary, k, r)
  {
    CollectedMeans(events, branch, boundary, k, r);
    SortPermutes(Collected(events, branch, boundary, k), NotLater);
    hide Collected, Sort, Lists;
  }

  // ---------------------------------------------------------------- journals of accepted streams

  predicate IsProtocolEvent(event: JournalEvent, branch: string) {
    event.branch == branch && !event.kind.OtherKind?
  }

  /** The protocol records that a journal holds for a branch, in order. */
  function RecordsOf(events: seq<JournalEvent>, branch: string): seq<Envelope> {
    if events == [] then []
    else
      var last := events[|events| - 1];
      RecordsOf(events[..|events| - 1], branch)
        + (if IsProtocolEvent(last, branch) && last.record.Some? then [last.record.value] else [])
  }

  /** Records are stored under their own kind, and nothing else uses those kinds. */
  predicate KindsAgree(events: seq<JournalEvent>, branch: string) {
    forall i :: 0 <= i < |events| && IsProtocolEvent(events[i], branch) ==>
      events[i].record.Some? && KindOf(events[i].record.value.message) == events[i].kind
  }

  /** Accepted records were journalled verbatim, in order, each under its own kind. */
  predicate Journalled(events: seq<JournalEvent>, branch: string, t: seq<Envelope>) {
    RecordsOf(events, branch) == t && KindsAgree(events, branch)
  }

  /** What a record adds to the list of a kind. */
  function RecordAdds(e: Envelope, boundary: nat, k: Kind): seq<Recorded> {
    if e.sequence <= boundary then ListOf(ResultIn(e, k)) else []
  }

  /** The results of a trace at or before a boundary. */
  function ResultsUpTo(t: seq<Envelope>, boundary: nat, k: Kind): seq<Recorded> {
    if t == [] then []
    else ResultsUpTo(t[..|t| - 1], boundary, k) + RecordAdds(t[|t| - 1], boundary, k)
  }

  lemma EventAddsRecord(event: JournalEvent, branch: string, boundary: nat, k: Kind)
    requires IsProtocolEvent(event, branch) ==> event.record.Some? && KindOf(event.record.value.message) == event.kind
    ensures IsProtocolEvent(event, branch) ==>
        Adds(event, branch, boundary, k) == RecordAdds(event.record.value, boundary, k)
    ensures !IsProtocolEvent(event, branch) ==> Adds(event, branch, boundary, k) == []
  {
  }

  lemma {:induction false} CollectedIsResults(events: seq<JournalEvent>, branch: string, boundary: nat, k: Kind)
    requires KindsAgree(events, branch)
    ensures Collected(events, branch, boundary, k) == ResultsUpTo(RecordsOf(events, branch), boundary, k)
  {
    if events != [] {
      var before, last := events[..|events| - 1], events[|events| - 1];
      CollectedIsResults(before, branch, boundary, k);
      EventAddsRecord(last, branch, boundary, k);
      hide Adds, RecordAdds, KindOf;
      var u := RecordsOf(before, branch);
      if IsProtocolEvent(last, branch) {
        assert (u + [last.record.value])[..|u|] == u;
      } else {
        assert u + [] == u;
      }
    }
  }

  // ---------------------------------------------------------------- completeness at a safe point

  /** Record `j` of the trace is the result that entry `r` lists: every field of the entry is a field of the record. */
  ghost predicate Carries(t: seq<Envelope>, k: Kind, r: Recorded, j: int) {
    && 0 <= j < |t| && r.sequence == t[j].sequence
    && match r
       case RecordedModel(_, id, hash) =>
         k.Model? && t[j].message.ModelResponse? && t[j].message.requestId == id && t[j].message.outputHash == hash
       case RecordedTool(_, id, outcome, hash) =>
         && k.Tool? && t[j].message.ToolResult?
         && t[j].message.callId == id && t[j].message.outcome == outcome && t[j].message.resultHash == hash
  }

  lemma CarriesAnswers(t: seq<Envelope>, k: Kind, r: Recorded, j: int)
    requires Carries(t, k, r, j)
    ensures AnsweredAt(t, k, r.id, j) && r.sequence == t[j].sequence
  {
  }

  /** The collected results are exactly those carried up to the boundary, in increasing protocol order. */
  lemma {:induction false} ResultsAreCarried(t: seq<Envelope>, boundary: nat, k: Kind)
    requires SequencesIncrease(t)
    ensures SortedBySequence(ResultsUpTo(t, boundary, k))
    ensures forall r: Recorded :: r in ResultsUpTo(t, boundary, k) ==>
        r.sequence <= boundary && exists j :: Carries(t, k, r, j)
    ensures forall r: Recorded, j :: Carries(t, k, r, j) && r.sequence <= boundary ==> r in ResultsUpTo(t, boundary, k)
  {
    if t != [] {
      var before, last := t[..|t| - 1], t[|t| - 1];
      ResultsAreCarried(before, boundary, k);
      var results, more := ResultsUpTo(before, boundary, k), RecordAdds(last, boundary, k);
      forall r: Recorded | r in results + more ensures r.sequence <= boundary && exists j :: Carries(t, k, r, j) {
        if r in results {
          var j: int :| Carries(before, k, r, j);
          assert Carries(t, k, r, j);
        } else {
          assert Carries(t, k, r, |t| - 1);
        }
      }
      forall r: Recorded, j | Carries(t, k, r, j) && r.sequence <= boundary ensures r in results + more {
        if j < |t| - 1 {
          assert Carries(before, k, r, j);
        } else {
          assert more == [r];
        }
      }
      AppendSorted(before, last, k, results, more);
    }
  }

  lemma AppendSorted(before: seq<Envelope>, last: Envelope, k: Kind, results: seq<Recorded>, more: seq<Recorded>)
    requires forall i :: 0 <= i < |before| ==> before[i].sequence < last.sequence
    requires SortedBySequence(results) && (more == [] || (|more| == 1 && more[0].sequence == last.sequence))
    requires forall r: Recorded :: r in results ==> exists j :: Carries(before, k, r, j)
    ensures SortedBySequence(results + more)
  {
    forall i | 0 <= i < |results| ensures results[i].sequence < last.sequence {
      assert results[i] in results;
      var j :| Carries(before, k, results[i], j);
      CarriesAnswers(before, k, results[i], j);
    }
  }

  /** Position `i` of a report answers question `id`, and no other position does. */
  ghost predicate SoleAnswer(report: seq<Recorded>, id: string, i: nat) {
    && i < |report| && report[i].id == id
    && forall j :: 0 <= j < |report| && report[j].id == id ==> j == i
  }

  /** Every question asked before record `n` has exactly one result in the report. */
  ghost predicate AnswersAll(t: seq<Envelope>, n: nat, k: Kind, report: seq<Recorded>) {
    forall id, q :: AskedAt(t, k, id, q) && q < n ==> exists i :: SoleAnswer(report, id, i)
  }

  /** The report holds exactly the results carried before record `n`. */
  ghost predicate HoldsResultsBefore(t: seq<Envelope>, n: nat, k: Kind, report: seq<Recorded>) {
    && (forall r :: r in report ==> exists j :: Carries(t, k, r, j) && j < n)
    && (forall r: Recorded, j :: Carries(t, k, r, j) && j < n ==> r in report)
  }

  ghost predicate CompleteReport(t: seq<Envelope>, n: nat, k: Kind, report: seq<Recorded>) {
    SortedBySequence(report) && AnswersAll(t, n, k, report) && HoldsResultsBefore(t, n, k, report)
  }

  lemma ResultsBefore(t: seq<Envelope>, n: nat, k: Kind)
    requires SequencesIncrease(t) && n < |t| && !IsResult(t[n].message)
    ensures SortedBySequence(ResultsUpTo(t, t[n].sequence, k))
        && HoldsResultsBefore(t, n, k, ResultsUpTo(t, t[n].sequence, k))
  {
    var report := ResultsUpTo(t, t[n].sequence, k);
    ResultsAreCarried(t, t[n].sequence, k);
    hide ResultsUpTo;
    forall r | r in report ensures exists j :: Carries(t, k, r, j) && j < n {
      var j :| Carries(t, k, r, j);
      CarriesAnswers(t, k, r, j);
    }
    forall r: Recorded, j | Carries(t, k, r, j) && j < n ensures r in report {
      CarriesAnswers(t, k, r, j);
    }
  }

  lemma AnswerCarried(t: seq<Envelope>, k: Kind, id: string, j: int)
    requires AnsweredAt(t, k, id, j)
    ensures exists r :: Carries(t, k, r, j) && r.id == id
  {
    assert Carries(t, k, ResultIn(t[j], k).value, j);
  }

  lemma SoleAnswerOf(t: seq<Envelope>, n: nat, k: Kind, report: seq<Recorded>, id: string, q: int)
    requires Paired(t, k) && QuietBefore(t, k, n) && SortedBySequence(report) && HoldsResultsBefore(t, n, k, report)
    requires AskedAt(t, k, id, q) && q < n
    ensures exists i :: SoleAnswer(report, id, i)
  {
    var j :| AnsweredAt(t, k, id, j) && j < n;
    AnswerCarried(t, k, id, j);
    var r :| Carries(t, k, r, j) && r.id == id;
    var i :| 0 <= i < |report| && report[i] == r;
    forall i' | 0 <= i' < |report| && report[i'].id == id ensures i' == i {
      assert report[i'] in report;
      var j' :| Carries(t, k, report[i'], j') && j' < n;
      CarriesAnswers(t, k, report[i'], j');
      CarriesAnswers(t, k, r, j);
    }
    assert SoleAnswer(report, id, i);
  }

  lemma ReportIsComplete(t: seq<Envelope>, n: nat, k: Kind)
    requires SequencesIncrease(t) && Paired(t, k) && QuietBefore(t, k, n) && n < |t| && !IsResult(t[n].message)
    ensures CompleteReport(t, n, k, ResultsUpTo(t, t[n].sequence, k))
  {
    var report := ResultsUpTo(t, t[n].sequence, k);
    ResultsBefore(t, n, k);
    hide Paired, QuietBefore, HoldsResultsBefore, SortedBySequence, SequencesIncrease, SoleAnswer, ResultsUpTo;
    forall id, q | AskedAt(t, k, id, q) && q < n ensures exists i :: SoleAnswer(report, id, i) {
      SoleAnswerOf(t, n, k, report, id, q);
    }
  }

  /**
   For a valid, journalled stream the report taken at a safe point lists exactly one result for every model request
   and tool call before the boundary, in strictly increasing protocol order, and nothing from after it.
   */
  lemma ReplayIsComplete(b: Binding, events: seq<JournalEvent>, branch: string, t: seq<Envelope>, n: nat, k: Kind)
    requires ValidTrace(b, t) && Journalled(events, branch, t)
    requires n < |t| && t[n].message.SafePoint?
    ensures forall i :: 0 <= i < |events| ==> !Refused(events[i], branch, t[n].sequence)
    ensures CompleteReport(t, n, k, Report(events, branch, t[n].sequence, k))
  {
    SafePointIsQuiet(b, t, n, k);
    NothingRefused(events, branch, t[n].sequence);
    CollectedIsResults(events, branch, t[n].sequence, k);
    hide ValidTrace, QuietBefore, Paired, SequencesIncrease, Collected, RecordsOf, ResultsUpTo, KindsAgree, Refused;
    ReportIsComplete(t, n, k);
    SortKeepsSorted(ResultsUpTo(t, t[n].sequence, k), NotLater);
    hide SortBySequence, AnswersAll, HoldsResultsBefore, SortedBySequence;
  }

  lemma SafePointIsQuiet(b: Binding, t: seq<Envelope>, n: nat, k: Kind)
    requires ValidTrace(b, t) && n < |t| && t[n].message.SafePoint?
    ensures SequencesIncrease(t) && Paired(t, k) && QuietBefore(t, k, n)
  {
    hide CompleteAt, QuietBefore, Paired, RevisionsIncrease, OneBoundStart, AllWellFormed, LastContextBefore;
    hide SequencesIncrease;
    assert SafeAt(t, n);
  }

  lemma NothingRefused(events: seq<JournalEvent>, branch: string, boundary: nat)
    requires KindsAgree(events, branch)
    ensures forall i :: 0 <= i < |events| ==> !Refused(events[i], branch, boundary)
  {
    forall i | 0 <= i < |events| ensures !Refused(events[i], branch, boundary) {
      assert IsProtocolEvent(events[i], branch) ==> KindOf(events[i].record.value.message) == events[i].kind;
    }
  }

  /** The same for the running validator: any stream it accepts can be replayed at any of its safe points. */
  lemma AcceptedStreamReplays(b: Binding, events: seq<JournalEvent>, branch: string, t: seq<Envelope>, n: nat, k: Kind)
    requires AcceptAll(b, t).Ok? && Journalled(events, branch, t)
    requires n < |t| && t[n].message.SafePoint?
    ensures CompleteReport(t, n, k, Report(events, branch, t[n].sequence, k))
  {
    ValidatorRefinement.ValidatorDecidesValidTraces(b, t);
    hide ValidTrace, AcceptAll, Mirrors, CompleteReport, Journalled;
    ReplayIsComplete(b, events, branch, t, n, k);
  }
}
