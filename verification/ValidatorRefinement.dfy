/** The online stream validator accepts exactly the valid traces. */
module ValidatorRefinement {
  import opened Wrappers
  import opened Protocol
  import opened Traces

  /** What a record must satisfy to extend a valid trace. */
  ghost predicate Extends(b: Binding, t: seq<Envelope>, e: Envelope) {
    && WellFormed(e)
    && (t == [] ==> BoundStart(b, e.message))
    && (t != [] ==> !e.message.AgentStart? && t[|t| - 1].sequence < e.sequence && !t[|t| - 1].message.Completion?)
    && NewerContext(t, e.message)
    && PairsWith(t, Model, e.message) && PairsWith(t, Tool, e.message)
    && (e.message.SafePoint? ==> HasContext(t, e.message.contextHash))
    && (e.message.SafePoint? || e.message.Completion? ==> Quiet(t, Model) && Quiet(t, Tool))
  }

  ghost predicate NewerContext(t: seq<Envelope>, m: Message) {
    m.ContextUpdate? ==> forall i :: 0 <= i < |t| && t[i].message.ContextUpdate? ==> t[i].message.revision < m.revision
  }

  ghost predicate HasContext(t: seq<Envelope>, hash: Hash) {
    exists i :: LastContextBefore(t, i, |t|) && t[i].message.contextHash == hash
  }

  // ---------------------------------------------------------------- each clause, one record at a time

  lemma StartExtends(b: Binding, t: seq<Envelope>, e: Envelope)
    ensures OneBoundStart(b, t + [e]) <==>
      OneBoundStart(b, t) && (t == [] ==> BoundStart(b, e.message)) && (t != [] ==> !e.message.AgentStart?)
  {
    var u := t + [e];
    assert u[|t|] == e;
    assert forall i :: 0 <= i < |t| ==> u[i] == t[i];
  }

  lemma SequenceExtends(t: seq<Envelope>, e: Envelope)
    ensures SequencesIncrease(t + [e]) <==> SequencesIncrease(t) && (t != [] ==> t[|t| - 1].sequence < e.sequence)
  {
    var u := t + [e];
    assert u[|t|] == e;
    assert forall i :: 0 <= i < |t| ==> u[i] == t[i];
    if SequencesIncrease(t) && t != [] && t[|t| - 1].sequence < e.sequence {
      forall i, j | 0 <= i < j < |u| ensures u[i].sequence < u[j].sequence {
      }
    }
  }

  lemma RevisionExtends(t: seq<Envelope>, e: Envelope)
    ensures RevisionsIncrease(t + [e]) <==> RevisionsIncrease(t) && NewerContext(t, e.message)
  {
    var u := t + [e];
    assert u[|t|] == e;
    assert forall i :: 0 <= i < |t| ==> u[i] == t[i];
  }

  lemma LastContextStable(t: seq<Envelope>, e: Envelope, i: int, n: int)
    requires n <= |t|
    ensures LastContextBefore(t + [e], i, n) <==> LastContextBefore(t, i, n)
  {
    assert forall j :: 0 <= j < |t| ==> (t + [e])[j] == t[j];
  }

  lemma SafeStable(t: seq<Envelope>, e: Envelope, n: int)
    requires 0 <= n < |t|
    ensures SafeAt(t + [e], n) <==> SafeAt(t, n)
  {
    var u := t + [e];
    QuietBeforeStable(t, e, Model, n);
    QuietBeforeStable(t, e, Tool, n);
    hide QuietBefore;
    assert u[n] == t[n];
    forall i ensures LastContextBefore(u, i, n) <==> LastContextBefore(t, i, n) {
      LastContextStable(t, e, i, n);
    }
    assert forall i :: LastContextBefore(t, i, n) ==> u[i] == t[i];
  }

  lemma SafeAppend(t: seq<Envelope>, e: Envelope)
    ensures SafeAt(t + [e], |t|) <==>
      (e.message.SafePoint? ==> HasContext(t, e.message.contextHash) && Quiet(t, Model) && Quiet(t, Tool))
  {
    var u := t + [e];
    QuietBeforeStable(t, e, Model, |t|);
    QuietBeforeStable(t, e, Tool, |t|);
    hide QuietBefore, Quiet;
    assert u[|t|] == e;
    forall i ensures LastContextBefore(u, i, |t|) <==> LastContextBefore(t, i, |t|) {
      LastContextStable(t, e, i, |t|);
    }
    assert forall i :: LastContextBefore(t, i, |t|) ==> u[i] == t[i];
  }

  ghost predicate AllSafe(t: seq<Envelope>) {
    forall n {:trigger SafeAt(t, n)} :: SafeAt(t, n)
  }

  lemma SafeExtends(t: seq<Envelope>, e: Envelope)
    ensures AllSafe(t + [e]) <==>
      && AllSafe(t)
      && (e.message.SafePoint? ==> HasContext(t, e.message.contextHash) && Quiet(t, Model) && Quiet(t, Tool))
  {
    var u := t + [e];
    SafeAppend(t, e);
    forall n | 0 <= n < |t| ensures SafeAt(u, n) <==> SafeAt(t, n) {
      SafeStable(t, e, n);
    }
    if AllSafe(u) {
      assert SafeAt(u, |t|);
      forall n ensures SafeAt(t, n) {
        assert SafeAt(u, n);
      }
    }
    if AllSafe(t) && SafeAt(u, |t|) {
      forall n ensures SafeAt(u, n) {
        assert SafeAt(t, n);
      }
    }
  }

  ghost predicate AllComplete(t: seq<Envelope>) {
    forall n {:trigger CompleteAt(t, n)} :: CompleteAt(t, n)
  }

  lemma CompleteExtends(t: seq<Envelope>, e: Envelope)
    ensures AllComplete(t + [e]) <==>
      && AllComplete(t)
      && (t != [] ==> !t[|t| - 1].message.Completion?)
      && (e.message.Completion? ==> Quiet(t, Model) && Quiet(t, Tool))
  {
    var u := t + [e];
    QuietBeforeStable(t, e, Model, |t|);
    QuietBeforeStable(t, e, Tool, |t|);
    hide QuietBefore, Quiet;
    assert u[|t|] == e;
    assert forall j :: 0 <= j < |t| ==> u[j] == t[j];
    if AllComplete(u) {
      assert CompleteAt(u, |t|);
      assert CompleteAt(u, |t| - 1);
      forall n ensures CompleteAt(t, n) {
        assert CompleteAt(u, n);
      }
    }
    if AllComplete(t) && (t != [] ==> !t[|t| - 1].message.Completion?)
        && (e.message.Completion? ==> Quiet(t, Model) && Quiet(t, Tool)) {
      forall n ensures CompleteAt(u, n) {
        assert CompleteAt(t, n);
      }
    }
  }

  lemma WellFormedExtends(t: seq<Envelope>, e: Envelope)
    ensures AllWellFormed(t + [e]) <==> AllWellFormed(t) && WellFormed(e)
  {
    hide WellFormed;
    assert (t + [e])[|t|] == e;
    assert forall i :: 0 <= i < |t| ==> (t + [e])[i] == t[i];
  }

  lemma ValidExtends(b: Binding, t: seq<Envelope>, e: Envelope)
    ensures ValidTrace(b, t + [e]) <==> ValidTrace(b, t) && Extends(b, t, e)
  {
    StartExtends(b, t, e);
    SequenceExtends(t, e);
    RevisionExtends(t, e);
    PairedExtends(t, e, Model);
    PairedExtends(t, e, Tool);
    SafeExtends(t, e);
    CompleteExtends(t, e);
    WellFormedExtends(t, e);
    hide AllWellFormed, WellFormed, OneBoundStart, SequencesIncrease, RevisionsIncrease, Paired, SafeAt, CompleteAt;
    hide NewerContext, HasContext, PairsWith, Quiet, BoundStart;
  }

  // ---------------------------------------------------------------- the validator against the clauses

  lemma OutstandingIsNotQuiet(p: Progress, t: seq<Envelope>)
    requires MirrorsQuestions(p, t, Model) && MirrorsQuestions(p, t, Tool)
    ensures !Outstanding(p) <==> Quiet(t, Model) && Quiet(t, Tool)
  {
    if !(Quiet(t, Model) && Quiet(t, Tool)) {
      var k := if Quiet(t, Model) then Tool else Model;
      var id :| Asked(t, k, id) && !Answered(t, k, id);
      assert id in Pending(p, k);
    }
    if Outstanding(p) {
      var k := if p.pendingRequests != {} then Model else Tool;
      var id :| id in Pending(p, k);
      assert Asked(t, k, id) && !Answered(t, k, id);
    }
  }

  lemma ContextAgrees(p: Progress, t: seq<Envelope>, m: Message)
    requires MirrorsContext(p, t) && RevisionsIncrease(t)
    ensures m.ContextUpdate? ==> (NewerContext(t, m) <==> (p.lastRevision.Some? ==> p.lastRevision.value < m.revision))
    ensures m.SafePoint? ==> (HasContext(t, m.contextHash) <==> p.context == Some(m.contextHash))
  {
    if p.context.Some? {
      var i :| LastContextBefore(t, i, |t|) && p.context == Some(t[i].message.contextHash)
               && p.lastRevision == Some(t[i].message.revision);
      if m.SafePoint? && HasContext(t, m.contextHash) {
        var j :| LastContextBefore(t, j, |t|) && t[j].message.contextHash == m.contextHash;
        assert j == i;
      }
    }
  }

  lemma MessageAccepted(p: Progress, t: seq<Envelope>, m: Message)
    requires MirrorsContext(p, t) && MirrorsQuestions(p, t, Model) && MirrorsQuestions(p, t, Tool)
        && RevisionsIncrease(t)
    requires !m.AgentStart?
    ensures AcceptMessage(p, m).Ok? <==>
      && NewerContext(t, m)
      && PairsWith(t, Model, m) && PairsWith(t, Tool, m)
      && (m.SafePoint? ==> HasContext(t, m.contextHash))
      && (m.SafePoint? || m.Completion? ==> Quiet(t, Model) && Quiet(t, Tool))
  {
    OutstandingIsNotQuiet(p, t);
    ContextAgrees(p, t, m);
    hide Quiet, HasContext, LastContextBefore, Outstanding;
    match m
    case ModelRequest(id, _, _, _) => assert id in Seen(p, Model) <==> Asked(t, Model, id);
    case ModelResponse(id, _, _) => assert id in Pending(p, Model) <==> Asked(t, Model, id) && !Answered(t, Model, id);
    case ToolCall(id, _, _, _) => assert id in Seen(p, Tool) <==> Asked(t, Tool, id);
    case ToolResult(id, _, _, _) => assert id in Pending(p, Tool) <==> Asked(t, Tool, id) && !Answered(t, Tool, id);
    case _ =>
  }

  lemma EmptyPairs(m: Message, k: Kind)
    requires m.AgentStart?
    ensures PairsWith([], k, m)
  {
  }

  lemma AcceptedExactlyWhenExtends(b: Binding, p: Progress, t: seq<Envelope>, e: Envelope)
    requires ValidTrace(b, t) && Mirrors(p, t)
    ensures AcceptClaims(b, p, e).Ok? <==> Extends(b, t, e)
  {
    if t != [] && !e.message.AgentStart? {
      MessageAccepted(p, t, e.message);
      hide AcceptMessage, NewerContext, PairsWith, HasContext, Quiet, MirrorsQuestions, MirrorsContext, WellFormed;
    } else {
      hide WellFormed, MirrorsQuestions, MirrorsContext;
      if e.message.AgentStart? && t == [] {
        EmptyPairs(e.message, Model);
        EmptyPairs(e.message, Tool);
      }
    }
  }

  // ---------------------------------------------------------------- the fields keep mirroring

  lemma QuestionsAppend(p: Progress, q: Progress, t: seq<Envelope>, e: Envelope, k: Kind)
    requires MirrorsQuestions(p, t, k) && PairsWith(t, k, e.message) && Paired(t, k)
    requires Seen(q, k) == Seen(p, k) + (if Asks(e.message, k).Some? then {Asks(e.message, k).value} else {})
    requires Pending(q, k) == Pending(p, k) + (if Asks(e.message, k).Some? then {Asks(e.message, k).value} else {})
                                            - (if Answers(e.message, k).Some? then {Answers(e.message, k).value}
                                              else {})
    ensures MirrorsQuestions(q, t + [e], k)
  {
    forall id
      ensures id in Seen(q, k) <==> Asked(t + [e], k, id)
      ensures id in Pending(q, k) <==> Asked(t + [e], k, id) && !Answered(t + [e], k, id)
    {
      AskedExtends(t, e, k, id);
      if Answered(t, k, id) {
        var j :| AnsweredAt(t, k, id, j);
        assert exists i :: AskedAt(t, k, id, i) && i < j;
      }
    }
  }

  lemma ContextAppend(p: Progress, q: Progress, t: seq<Envelope>, e: Envelope)
    requires MirrorsContext(p, t)
    requires e.message.ContextUpdate? ==>
        q.context == Some(e.message.contextHash) && q.lastRevision == Some(e.message.revision)
    requires !e.message.ContextUpdate? ==> q.context == p.context && q.lastRevision == p.lastRevision
    ensures MirrorsContext(q, t + [e])
  {
    var u := t + [e];
    assert u[|t|] == e;
    assert forall j :: 0 <= j < |t| ==> u[j] == t[j];
    if e.message.ContextUpdate? {
      assert LastContextBefore(u, |t|, |u|);
    } else if p.context.Some? {
      var i :| LastContextBefore(t, i, |t|) && p.context == Some(t[i].message.contextHash)
               && p.lastRevision == Some(t[i].message.revision);
      assert LastContextBefore(u, i, |u|);
    }
  }

  /** What an accepted message does to the fields. */
  lemma MessageEffect(p: Progress, m: Message, k: Kind)
    requires AcceptMessage(p, m).Ok?
    ensures var q := AcceptMessage(p, m).value;
      && Seen(q, k) == Seen(p, k) + (if Asks(m, k).Some? then {Asks(m, k).value} else {})
      && Pending(q, k) == Pending(p, k) + (if Asks(m, k).Some? then {Asks(m, k).value} else {})
                                        - (if Answers(m, k).Some? then {Answers(m, k).value} else {})
      && (m.ContextUpdate? ==> q.context == Some(m.contextHash) && q.lastRevision == Some(m.revision))
      && (!m.ContextUpdate? ==> q.context == p.context && q.lastRevision == p.lastRevision)
      && q.started == p.started && (q.completed <==> p.completed || m.Completion?)
  {
  }

  lemma AcceptEffect(b: Binding, p: Progress, e: Envelope, k: Kind)
    requires AcceptClaims(b, p, e).Ok?
    ensures var q, m := AcceptClaims(b, p, e).value, e.message;
      && Seen(q, k) == Seen(p, k) + (if Asks(m, k).Some? then {Asks(m, k).value} else {})
      && Pending(q, k) == Pending(p, k) + (if Asks(m, k).Some? then {Asks(m, k).value} else {})
                                        - (if Answers(m, k).Some? then {Answers(m, k).value} else {})
      && (m.ContextUpdate? ==> q.context == Some(m.contextHash) && q.lastRevision == Some(m.revision))
      && (!m.ContextUpdate? ==> q.context == p.context && q.lastRevision == p.lastRevision)
      && q.started && q.lastSequence == Some(e.sequence) && (q.completed <==> m.Completion?)
  {
    hide WellFormed;
    if p.started {
      MessageEffect(p, e.message, k);
      hide AcceptMessage, Asks, Answers, Seen, Pending;
    }
  }

  lemma MirrorsAppend(b: Binding, p: Progress, t: seq<Envelope>, e: Envelope)
    requires ValidTrace(b, t) && Mirrors(p, t) && Extends(b, t, e) && AcceptClaims(b, p, e).Ok?
    ensures Mirrors(AcceptClaims(b, p, e).value, t + [e])
  {
    var q := AcceptClaims(b, p, e).value;
    AcceptEffect(b, p, e, Model);
    AcceptEffect(b, p, e, Tool);
    assert (t + [e])[|t|] == e;
    hide WellFormed, Paired, PairsWith, Quiet, NewerContext, HasContext, MirrorsQuestions, MirrorsContext;
    hide LastContextBefore;
    hide SequencesIncrease, RevisionsIncrease, SafeAt, CompleteAt, AcceptClaims, OneBoundStart, AllWellFormed;
    hide Seen, Pending, Asks, Answers;
    ContextAppend(p, q, t, e);
    QuestionsAppend(p, q, t, e, Model);
    QuestionsAppend(p, q, t, e, Tool);
  }

  // ---------------------------------------------------------------- the theorem

  /** A fresh validator accepts a whole stream exactly when the trace is valid, and then its fields mirror it. */
  lemma {:induction false} ValidatorDecidesValidTraces(b: Binding, t: seq<Envelope>)
    ensures AcceptAll(b, t).Ok? <==> ValidTrace(b, t)
    ensures AcceptAll(b, t).Ok? ==> Mirrors(AcceptAll(b, t).value, t)
  {
    if t != [] {
      var before, e := t[..|t| - 1], t[|t| - 1];
      assert t == before + [e];
      ValidatorDecidesValidTraces(b, before);
      ValidExtends(b, before, e);
      hide ValidTrace, Mirrors, Extends, AcceptClaims;
      if AcceptAll(b, before).Ok? {
        var p := AcceptAll(b, before).value;
        AcceptedExactlyWhenExtends(b, p, before, e);
        if AcceptClaims(b, p, e).Ok? {
          MirrorsAppend(b, p, before, e);
        }
      }
    } else {
      EmptyTrace(b);
    }
  }

  lemma EmptyTrace(b: Binding)
    ensures ValidTrace(b, []) && Mirrors(FRESH, [])
  {
    forall n ensures SafeAt([], n) { }
    forall n ensures CompleteAt([], n) { }
  }
}
