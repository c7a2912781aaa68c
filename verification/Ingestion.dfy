/** The supervisor's ingestion loop (crates/epoch-supervisor): validate a record, then journal it under its own kind. */
module Ingestion {
  import opened Wrappers
  import opened Protocol
  import opened Traces
  import opened ValidatorRefinement
  import opened Replay
  import opened StreamValidators

  /**
   What happens while an agent runs: a record arrives and its append succeeds or fails, or something else is journalled
   (the supervisor's own events, or anything in another branch).
   */
  datatype Arrival = Record(envelope: Envelope, stored: bool) | Other(event: JournalEvent)

  /** The validator, the journal, the records journalled so far, and whether the loop has ended with an error. */
  datatype Feed = Feed(progress: Progress, events: seq<JournalEvent>, records: seq<Envelope>, stopped: bool)

  function Journal(branch: string, e: Envelope): JournalEvent {
    JournalEvent(branch, KindOf(e.message), Some(e))
  }

  /** One turn of `monitor_messages`. Nothing but the loop writes a protocol kind into the agent's branch. */
  function Turn(b: Binding, branch: string, f: Feed, x: Arrival): Feed {
    match x
    case Other(event) => if IsProtocolEvent(event, branch) then f else f.(events := f.events + [event])
    case Record(e, stored) =>
      if f.stopped then f
      else
        var r := AcceptClaims(b, f.progress, e);
        if r.Err? then f.(stopped := true)
        else if !stored then f.(progress := r.value, stopped := true)
        else f.(progress := r.value, events := f.events + [Journal(branch, e)], records := f.records + [e])
  }

  function Ingest(b: Binding, branch: string, arrivals: seq<Arrival>): Feed {
    if arrivals == [] then Feed(FRESH, [], [], false)
    else Turn(b, branch, Ingest(b, branch, arrivals[..|arrivals| - 1]), arrivals[|arrivals| - 1])
  }

  /** What holds of the loop at every moment. */
  ghost predicate InStep(b: Binding, branch: string, f: Feed) {
    && Journalled(f.events, branch, f.records)
    && AcceptAll(b, f.records).Ok?
    && (!f.stopped ==> AcceptAll(b, f.records) == Ok(f.progress))
  }

  lemma JournalledAppends(events: seq<JournalEvent>, branch: string, t: seq<Envelope>, event: JournalEvent)
    requires Journalled(events, branch, t)
    requires IsProtocolEvent(event, branch) ==> event.record.Some? && KindOf(event.record.value.message) == event.kind
    ensures Journalled(events + [event], branch, if IsProtocolEvent(event, branch) then t + [event.record.value] else t)
  {
    assert (events + [event])[..|events|] == events;
    hide KindOf;
  }

  lemma TurnKeepsStep(b: Binding, branch: string, f: Feed, x: Arrival)
    requires InStep(b, branch, f)
    ensures InStep(b, branch, Turn(b, branch, f, x))
  {
    hide Journalled, AcceptClaims;
    if x.Other? {
      if !IsProtocolEvent(x.event, branch) { JournalledAppends(f.events, branch, f.records, x.event); }
    } else if !f.stopped {
      assert (f.records + [x.envelope])[..|f.records|] == f.records;
      JournalledAppends(f.events, branch, f.records, Journal(branch, x.envelope));
      assert IsProtocolEvent(Journal(branch, x.envelope), branch);
    }
  }

  /** The loop journals exactly the records it accepted, in order, each under its own kind. */
  lemma {:induction false} IngestionJournals(b: Binding, branch: string, arrivals: seq<Arrival>)
    ensures InStep(b, branch, Ingest(b, branch, arrivals))
  {
    if arrivals != [] {
      IngestionJournals(b, branch, arrivals[..|arrivals| - 1]);
      hide InStep, Turn;
      TurnKeepsStep(b, branch, Ingest(b, branch, arrivals[..|arrivals| - 1]), arrivals[|arrivals| - 1]);
    }
  }

  /** The records among the arrivals. */
  function RecordsIn(arrivals: seq<Arrival>): seq<Envelope> {
    if arrivals == [] then []
    else
      var last := arrivals[|arrivals| - 1];
      RecordsIn(arrivals[..|arrivals| - 1]) + (if last.Record? then [last.envelope] else [])
  }

  predicate AllStored(arrivals: seq<Arrival>) {
    forall i :: 0 <= i < |arrivals| && arrivals[i].Record? ==> arrivals[i].stored
  }

  lemma ValidPrefix(b: Binding, t: seq<Envelope>, e: Envelope)
    requires AcceptAll(b, t + [e]).Ok?
    ensures AcceptAll(b, t).Ok? && AcceptClaims(b, AcceptAll(b, t).value, e).Ok?
  {
    assert (t + [e])[..|t|] == t;
    hide AcceptClaims;
  }

  /** A valid stream whose appends all succeed is journalled to its last record. */
  lemma {:induction false} ValidStreamsAreKept(b: Binding, branch: string, arrivals: seq<Arrival>)
    requires AllStored(arrivals) && AcceptAll(b, RecordsIn(arrivals)).Ok?
    ensures Ingest(b, branch, arrivals).records == RecordsIn(arrivals) && !Ingest(b, branch, arrivals).stopped
  {
    if arrivals != [] {
      var before, last := arrivals[..|arrivals| - 1], arrivals[|arrivals| - 1];
      if last.Record? { ValidPrefix(b, RecordsIn(before), last.envelope); }
      else { assert RecordsIn(before) + [] == RecordsIn(before); }
      ValidStreamsAreKept(b, branch, before);
      IngestionJournals(b, branch, before);
      hide AcceptClaims, AcceptAll, Journalled;
    }
  }

  /** Record `n` of what was journalled is a safe point. */
  predicate SafePointAt(f: Feed, n: nat) {
    n < |f.records| && f.records[n].message.SafePoint?
  }

  /** Whatever arrives, what was journalled is a valid trace whose replay report is complete at every safe point. */
  lemma IngestedStreamReplays(b: Binding, branch: string, arrivals: seq<Arrival>, n: nat, k: Kind)
    ensures var f := Ingest(b, branch, arrivals);
      && ValidTrace(b, f.records)
      && (SafePointAt(f, n) ==>
            CompleteReport(f.records, n, k, Report(f.events, branch, f.records[n].sequence, k)))
  {
    var f := Ingest(b, branch, arrivals);
    IngestionJournals(b, branch, arrivals);
    hide Ingest, Journalled, AcceptAll, CompleteReport, ValidTrace, Mirrors;
    ValidatorDecidesValidTraces(b, f.records);
    if SafePointAt(f, n) {
      AcceptedStreamReplays(b, f.events, branch, f.records, n, k);
    }
  }

  /** `monitor_messages`, with the validator updated in place. */
  method MonitorMessages(v: StreamValidator, branch: string, arrivals: seq<Arrival>)
    returns (events: seq<JournalEvent>, stopped: bool)
    requires v.State() == FRESH
    modifies v
    ensures events == Ingest(v.binding, branch, arrivals).events
        && stopped == Ingest(v.binding, branch, arrivals).stopped
    ensures !stopped ==> v.State() == Ingest(v.binding, branch, arrivals).progress
  {
    hide AcceptClaims, KindOf;
    events, stopped := [], false;
    for i := 0 to |arrivals|
      invariant events == Ingest(v.binding, branch, arrivals[..i]).events
      invariant stopped == Ingest(v.binding, branch, arrivals[..i]).stopped
      invariant !stopped ==> v.State() == Ingest(v.binding, branch, arrivals[..i]).progress
    {
      assert arrivals[..i + 1][..i] == arrivals[..i];
      match arrivals[i] {
        case Other(event) =>
          if !IsProtocolEvent(event, branch) {
            events := events + [event];
          }
        case Record(e, stored) =>
          if !stopped {
            var accepted := v.AcceptClaims(e);
            if accepted.Ok? && stored {
              events := events + [Journal(branch, e)];
            } else {
              stopped := true;
            }
          }
      }
    }
    assert arrivals[..|arrivals|] == arrivals;
  }
}
