/** What an accepted agent stream is, said about the whole trace, and the proof that the online validator decides it. */
module Traces {
  import opened Wrappers
  import opened Protocol

  // ---------------------------------------------------------------- the declarative predicate

  /** The two kinds of question an agent asks. */
  datatype Kind = Model | Tool

  /** The question that a message asks, by kind. */
  function Asks(m: Message, k: Kind): Option<string> {
    if k.Model? && m.ModelRequest? then Some(m.requestId)
    else if k.Tool? && m.ToolCall? then Some(m.callId)
    else None
  }

  /** The question that a message answers, by kind. */
  function Answers(m: Message, k: Kind): Option<string> {
    if k.Model? && m.ModelResponse? then Some(m.requestId)
    else if k.Tool? && m.ToolResult? then Some(m.callId)
    else None
  }

  ghost predicate BoundStart(b: Binding, m: Message) {
    m.AgentStart? && m.sessionId == b.sessionId && m.branchId == b.branchId
  }

  /** The stream begins with the one start record, bound to the assigned session and branch. */
  ghost predicate OneBoundStart(b: Binding, t: seq<Envelope>) {
    && (t != [] ==> BoundStart(b, t[0].message))
    && forall i :: 1 <= i < |t| ==> !t[i].message.AgentStart?
  }

  ghost predicate SequencesIncrease(t: seq<Envelope>) {
    forall i, j :: 0 <= i < j < |t| ==> t[i].sequence < t[j].sequence
  }

  ghost predicate RevisionsIncrease(t: seq<Envelope>) {
    forall i, j :: 0 <= i < j < |t| && t[i].message.ContextUpdate? && t[j].message.ContextUpdate? ==>
      t[i].message.revision < t[j].message.revision
  }

  ghost predicate AskedAt(t: seq<Envelope>, k: Kind, id: string, i: int) {
    0 <= i < |t| && Asks(t[i].message, k) == Some(id)
  }

  ghost predicate AnsweredAt(t: seq<Envelope>, k: Kind, id: string, i: int) {
    0 <= i < |t| && Answers(t[i].message, k) == Some(id)
  }

  /** No question is asked twice, none is answered twice, and every answer follows its question. */
  ghost predicate Paired(t: seq<Envelope>, k: Kind) {
    && (forall id, i, j :: AskedAt(t, k, id, i) && AskedAt(t, k, id, j) ==> i == j)
    && (forall id, i, j :: AnsweredAt(t, k, id, i) && AnsweredAt(t, k, id, j) ==> i == j)
    && (forall id, j :: AnsweredAt(t, k, id, j) ==> exists i :: AskedAt(t, k, id, i) && i < j)
  }

  /** Every question asked before position `n` is answered before it. */
  ghost predicate QuietBefore(t: seq<Envelope>, k: Kind, n: int) {
    forall id, i :: AskedAt(t, k, id, i) && i < n ==> exists j :: AnsweredAt(t, k, id, j) && j < n
  }

  ghost predicate LastContextBefore(t: seq<Envelope>, i: int, n: int) {
    && 0 <= i < n <= |t| && t[i].message.ContextUpdate?
    && forall j :: i < j < n ==> !t[j].message.ContextUpdate?
  }

  /** A safe point: nothing is pending and its hash is that of the last context. */
  ghost predicate SafeAt(t: seq<Envelope>, n: int) {
    0 <= n < |t| && t[n].message.SafePoint? ==>
      && (exists i :: LastContextBefore(t, i, n) && t[i].message.contextHash == t[n].message.contextHash)
      && QuietBefore(t, Model, n) && QuietBefore(t, Tool, n)
  }

  /** A completion: nothing is pending and nothing follows. */
  ghost predicate CompleteAt(t: seq<Envelope>, n: int) {
    0 <= n < |t| && t[n].message.Completion? ==>
      n == |t| - 1 && QuietBefore(t, Model, n) && QuietBefore(t, Tool, n)
  }

  ghost predicate AllWellFormed(t: seq<Envelope>) {
    forall i :: 0 <= i < |t| ==> WellFormed(t[i])
  }

  ghost predicate ValidTrace(b: Binding, t: seq<Envelope>) {
    && AllWellFormed(t)
    && OneBoundStart(b, t)
    && SequencesIncrease(t)
    && RevisionsIncrease(t)
    && Paired(t, Model) && Paired(t, Tool)
    && (forall n {:trigger SafeAt(t, n)} :: SafeAt(t, n))
    && (forall n {:trigger CompleteAt(t, n)} :: CompleteAt(t, n))
  }

  // ---------------------------------------------------------------- the validator's fields mirror the trace

  function Seen(p: Progress, k: Kind): set<string> {
    if k.Model? then p.seenRequests else p.seenCalls
  }

  function Pending(p: Progress, k: Kind): set<string> {
    if k.Model? then p.pendingRequests else p.pendingCalls
  }

  ghost predicate Asked(t: seq<Envelope>, k: Kind, id: string) {
    exists i :: AskedAt(t, k, id, i)
  }

  ghost predicate Answered(t: seq<Envelope>, k: Kind, id: string) {
    exists i :: AnsweredAt(t, k, id, i)
  }

  ghost predicate MirrorsQuestions(p: Progress, t: seq<Envelope>, k: Kind) {
    && (forall id :: id in Seen(p, k) <==> Asked(t, k, id))
    && (forall id :: id in Pending(p, k) <==> Asked(t, k, id) && !Answered(t, k, id))
  }

  ghost predicate MirrorsContext(p: Progress, t: seq<Envelope>) {
    && (p.context.Some? <==> p.lastRevision.Some?)
    && (p.context.Some? <==> exists i :: 0 <= i < |t| && t[i].message.ContextUpdate?)
    && (p.context.Some? ==> exists i :: LastContextBefore(t, i, |t|)
                                     && p.context == Some(t[i].message.contextHash)
                                     && p.lastRevision == Some(t[i].message.revision))
  }

  ghost predicate MirrorsPosition(p: Progress, t: seq<Envelope>) {
    && (p.started <==> t != [])
    && p.lastSequence == (if t == [] then None else Some(t[|t| - 1].sequence))
    && (p.completed <==> t != [] && t[|t| - 1].message.Completion?)
  }

  ghost predicate Mirrors(p: Progress, t: seq<Envelope>) {
    MirrorsPosition(p, t) && MirrorsContext(p, t) && MirrorsQuestions(p, t, Model) && MirrorsQuestions(p, t, Tool)
  }

  // ---------------------------------------------------------------- extending a trace by one record

  ghost predicate PairsWith(t: seq<Envelope>, k: Kind, m: Message) {
    && (Asks(m, k).Some? ==> !Asked(t, k, Asks(m, k).value))
    && (Answers(m, k).Some? ==> Asked(t, k, Answers(m, k).value) && !Answered(t, k, Answers(m, k).value))
  }

  ghost predicate Quiet(t: seq<Envelope>, k: Kind) {
    forall id :: Asked(t, k, id) ==> Answered(t, k, id)
  }

  lemma AskedExtends(t: seq<Envelope>, e: Envelope, k: Kind, id: string)
    ensures Asked(t + [e], k, id) <==> Asked(t, k, id) || Asks(e.message, k) == Some(id)
    ensures Answered(t + [e], k, id) <==> Answered(t, k, id) || Answers(e.message, k) == Some(id)
  {
    var u := t + [e];
    if Asked(t, k, id) { var i :| AskedAt(t, k, id, i); assert AskedAt(u, k, id, i); }
    if Answered(t, k, id) { var i :| AnsweredAt(t, k, id, i); assert AnsweredAt(u, k, id, i); }
    if Asks(e.message, k) == Some(id) { assert AskedAt(u, k, id, |t|); }
    if Answers(e.message, k) == Some(id) { assert AnsweredAt(u, k, id, |t|); }
    if Asked(u, k, id) { var i :| AskedAt(u, k, id, i); assert i == |t| || AskedAt(t, k, id, i); }
    if Answered(u, k, id) { var i :| AnsweredAt(u, k, id, i); assert i == |t| || AnsweredAt(t, k, id, i); }
  }

  lemma AtPrefix(t: seq<Envelope>, e: Envelope, k: Kind)
    ensures forall id, i {:trigger AskedAt(t + [e], k, id, i)} {:trigger AskedAt(t, k, id, i)} ::
      AskedAt(t + [e], k, id, i) <==> AskedAt(t, k, id, i) || (i == |t| && Asks(e.message, k) == Some(id))
    ensures forall id, i {:trigger AnsweredAt(t + [e], k, id, i)} {:trigger AnsweredAt(t, k, id, i)} ::
      AnsweredAt(t + [e], k, id, i) <==> AnsweredAt(t, k, id, i) || (i == |t| && Answers(e.message, k) == Some(id))
  {
  }

  lemma PairedExtends(t: seq<Envelope>, e: Envelope, k: Kind)
    ensures Paired(t + [e], k) <==> Paired(t, k) && PairsWith(t, k, e.message)
  {
    var u := t + [e];
    AtPrefix(t, e, k);
    if Paired(u, k) {
      PairedPrefix(t, e, k);
    }
    if Paired(t, k) && PairsWith(t, k, e.message) {
      PairedAppend(t, e, k);
    }
  }

  lemma PairedPrefix(t: seq<Envelope>, e: Envelope, k: Kind)
    requires Paired(t + [e], k)
    ensures Paired(t, k) && PairsWith(t, k, e.message)
  {
    var u := t + [e];
    AtPrefix(t, e, k);
    forall id, j | AnsweredAt(t, k, id, j) ensures exists i :: AskedAt(t, k, id, i) && i < j {
      var i :| AskedAt(u, k, id, i) && i < j;
      assert AskedAt(t, k, id, i);
    }
    if Asks(e.message, k).Some? {
      assert AskedAt(u, k, Asks(e.message, k).value, |t|);
    }
    if Answers(e.message, k).Some? {
      var id := Answers(e.message, k).value;
      assert AnsweredAt(u, k, id, |t|);
      var i :| AskedAt(u, k, id, i) && i < |t|;
      assert AskedAt(t, k, id, i);
    }
  }

  lemma PairedAppend(t: seq<Envelope>, e: Envelope, k: Kind)
    requires Paired(t, k) && PairsWith(t, k, e.message)
    ensures Paired(t + [e], k)
  {
    var u := t + [e];
    AtPrefix(t, e, k);
    forall id, j | AnsweredAt(u, k, id, j) ensures exists i :: AskedAt(u, k, id, i) && i < j {
      if j == |t| {
        var i :| AskedAt(t, k, id, i);
        assert AskedAt(u, k, id, i);
      } else {
        var i :| AskedAt(t, k, id, i) && i < j;
        assert AskedAt(u, k, id, i);
      }
    }
  }

  /** Quietness before a position of the old trace is not affected by what is appended. */
  lemma QuietBeforeStable(t: seq<Envelope>, e: Envelope, k: Kind, n: int)
    requires 0 <= n <= |t|
    ensures QuietBefore(t + [e], k, n) <==> QuietBefore(t, k, n)
    ensures n == |t| ==> (QuietBefore(t, k, n) <==> Quiet(t, k))
  {
    var u := t + [e];
    AtPrefix(t, e, k);
    if QuietBefore(t, k, n) {
      forall id, i | AskedAt(u, k, id, i) && i < n ensures exists j :: AnsweredAt(u, k, id, j) && j < n {
        assert AskedAt(t, k, id, i);
        var j :| AnsweredAt(t, k, id, j) && j < n;
        assert AnsweredAt(u, k, id, j);
      }
    }
    if QuietBefore(u, k, n) {
      forall id, i | AskedAt(t, k, id, i) && i < n ensures exists j :: AnsweredAt(t, k, id, j) && j < n {
        assert AskedAt(u, k, id, i);
        var j :| AnsweredAt(u, k, id, j) && j < n;
        assert AnsweredAt(t, k, id, j);
      }
    }
    if n == |t| {
      QuietIsQuietBefore(t, k);
    }
  }

  lemma QuietIsQuietBefore(t: seq<Envelope>, k: Kind)
    ensures QuietBefore(t, k, |t|) <==> Quiet(t, k)
  {
    if Quiet(t, k) {
      forall id, i | AskedAt(t, k, id, i) && i < |t| ensures exists j :: AnsweredAt(t, k, id, j) && j < |t| {
        assert Asked(t, k, id);
        var j :| AnsweredAt(t, k, id, j);
      }
    }
    if QuietBefore(t, k, |t|) {
      forall id | Asked(t, k, id) ensures Answered(t, k, id) {
        var i :| AskedAt(t, k, id, i);
      }
    }
  }
}
