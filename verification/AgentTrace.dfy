/** The stream of the reference workload (crates/epoch-test-agent): every run of it is accepted to the end. */
module AgentTrace {
  import opened Wrappers
  import opened Protocol
  import opened Traces
  import opened ValidatorRefinement
  import opened Replay

  datatype ToolRun = ToolRun(callId: string, tool: string, inputHash: Hash, outcome: ToolOutcome,
                             resultHash: Option<Hash>)

  /** What one run of the workload does; `tools` depends on the scenario. */
  datatype Workload = Workload(
    agentId: string, promptHash: Hash, requestId: string, model: string, responseHash: Hash,
    tools: seq<ToolRun>, stateHash: Hash, safePointId: string)

  /** `Envelope::new` with the emitter's next sequence */
  function Emit(t: seq<Envelope>, m: Message): seq<Envelope> {
    t + [Envelope(CURRENT_PROTOCOL_VERSION, |t|, m, {})]
  }

  function Opening(b: Binding, w: Workload): seq<Envelope> {
    Emit(Emit(Emit(Emit([],
      AgentStart(w.agentId, b.sessionId, b.branchId, {})),
      ContextUpdate(0, w.promptHash, {})),
      ModelRequest(w.requestId, w.model, w.promptHash, {})),
      ModelResponse(w.requestId, w.responseHash, {}))
  }

  function WithTools(b: Binding, w: Workload, n: nat): seq<Envelope>
    requires n <= |w.tools|
  {
    if n == 0 then Opening(b, w)
    else
      var x := w.tools[n - 1];
      Emit(Emit(WithTools(b, w, n - 1), ToolCall(x.callId, x.tool, x.inputHash, {})),
        ToolResult(x.callId, x.outcome, x.resultHash, {}))
  }

  /** `run_workload` */
  function Stream(b: Binding, w: Workload): seq<Envelope> {
    Emit(Emit(Emit(WithTools(b, w, |w.tools|),
      ContextUpdate(1, w.stateHash, {})),
      SafePoint(w.safePointId, w.stateHash, {})),
      Completion(RunSucceeded, Some(w.stateHash), {}))
  }

  /** The record with a number and a message. */
  predicate Says(e: Envelope, n: nat, m: Message) {
    e.version == 1 && e.sequence == n && e.message == m && e.extensions == {}
  }

  ghost predicate SaysOpening(t: seq<Envelope>, b: Binding, w: Workload) {
    && |t| >= 4
    && Says(t[0], 0, AgentStart(w.agentId, b.sessionId, b.branchId, {}))
    && Says(t[1], 1, ContextUpdate(0, w.promptHash, {}))
    && Says(t[2], 2, ModelRequest(w.requestId, w.model, w.promptHash, {}))
    && Says(t[3], 3, ModelResponse(w.requestId, w.responseHash, {}))
  }

  ghost predicate SaysTool(t: seq<Envelope>, w: Workload, i: nat) {
    && i < |w.tools| && |t| >= 6 + 2 * i
    && var x := w.tools[i];
    && Says(t[4 + 2 * i], 4 + 2 * i, ToolCall(x.callId, x.tool, x.inputHash, {}))
    && Says(t[5 + 2 * i], 5 + 2 * i, ToolResult(x.callId, x.outcome, x.resultHash, {}))
  }

  lemma LaterRecordsSayMore(before: seq<Envelope>, t: seq<Envelope>, b: Binding, w: Workload)
    requires before <= t
    ensures SaysOpening(before, b, w) ==> SaysOpening(t, b, w)
    ensures forall i :: SaysTool(before, w, i) ==> SaysTool(t, w, i)
  {
    hide Says;
    forall i | SaysTool(before, w, i) ensures SaysTool(t, w, i) {
      assert before[4 + 2 * i] == t[4 + 2 * i] && before[5 + 2 * i] == t[5 + 2 * i];
    }
  }

  lemma {:induction false} ToolsSay(b: Binding, w: Workload, n: nat)
    requires n <= |w.tools|
    ensures var t := WithTools(b, w, n);
      |t| == 4 + 2 * n && SaysOpening(t, b, w) && forall i :: 0 <= i < n ==> SaysTool(t, w, i)
  {
    if n > 0 {
      ToolsSay(b, w, n - 1);
      var before, t := WithTools(b, w, n - 1), WithTools(b, w, n);
      assert SaysTool(t, w, n - 1);
      LaterRecordsSayMore(before, t, b, w);
      hide WithTools, SaysOpening, SaysTool;
    }
  }

  /** Every record the workload writes, by its number. */
  lemma WorkloadSays(b: Binding, w: Workload)
    ensures var t, n := Stream(b, w), |w.tools|;
      && |t| == 7 + 2 * n
      && SaysOpening(t, b, w) && (forall i :: 0 <= i < n ==> SaysTool(t, w, i))
      && Says(t[4 + 2 * n], 4 + 2 * n, ContextUpdate(1, w.stateHash, {}))
      && Says(t[5 + 2 * n], 5 + 2 * n, SafePoint(w.safePointId, w.stateHash, {}))
      && Says(t[6 + 2 * n], 6 + 2 * n, Completion(RunSucceeded, Some(w.stateHash), {}))
  {
    ToolsSay(b, w, |w.tools|);
    hide WithTools, SaysOpening, SaysTool;
    LaterRecordsSayMore(WithTools(b, w, |w.tools|), Stream(b, w), b, w);
  }

  predicate DistinctCalls(tools: seq<ToolRun>) {
    forall i, j :: 0 <= i < j < |tools| ==> tools[i].callId != tools[j].callId
  }

  predicate BoundedTools(tools: seq<ToolRun>) {
    forall i :: 0 <= i < |tools| ==>
      BoundedFields(ToolCall(tools[i].callId, tools[i].tool, tools[i].inputHash, {}))
  }

  /** Identifiers within the protocol's bounds, and no tool call named twice. */
  predicate Configured(b: Binding, w: Workload) {
    && BoundedFields(AgentStart(w.agentId, b.sessionId, b.branchId, {}))
    && BoundedFields(ModelRequest(w.requestId, w.model, w.promptHash, {}))
    && BoundedFields(SafePoint(w.safePointId, w.stateHash, {}))
    && DistinctCalls(w.tools) && BoundedTools(w.tools) && 2 * |w.tools| + 7 <= MAX_SEQUENCE
  }

  // ---------------------------------------------------------------- accepted record by record

  lemma EmitAccepted(b: Binding, t: seq<Envelope>, p: Progress, m: Message)
    requires AcceptAll(b, t) == Ok(p) && |t| <= MAX_SEQUENCE && BoundedFields(m) && m.ext == {}
    ensures AcceptAll(b, Emit(t, m)) ==
      var r := AcceptStream(b, p, Envelope(CURRENT_PROTOCOL_VERSION, |t|, m, {}));
      if r.Ok? then Ok(r.value) else Err(StreamFailure(r.error))
  {
    hide AcceptStream, BoundedFields;
    assert Emit(t, m)[..|t|] == t;
  }

  function CallIds(tools: seq<ToolRun>, n: nat): set<string>
    requires n <= |tools|
  {
    set i | 0 <= i < n :: tools[i].callId
  }

  /** The validator after the opening and `n` tools. */
  function After(w: Workload, n: nat): Progress
    requires n <= |w.tools|
  {
    Progress(true, false, Some(3 + 2 * n), Some(0), Some(w.promptHash), {w.requestId}, {}, CallIds(w.tools, n), {})
  }

  /** A running stream whose last record was number `n`, with nothing pending. */
  predicate Idle(p: Progress, n: nat) {
    p.started && !p.completed && p.lastSequence == Some(n) && p.pendingRequests == {} && p.pendingCalls == {}
  }

  lemma ModelExchange(b: Binding, p: Progress, n: nat, id: string, model: string, input: Hash, output: Hash)
    requires Idle(p, n) && id !in p.seenRequests
    ensures var asked :=
        p.(seenRequests := p.seenRequests + {id}, pendingRequests := {id}, lastSequence := Some(n + 1));
      && AcceptStream(b, p, Envelope(1, n + 1, ModelRequest(id, model, input, {}), {})) == Ok(asked)
      && AcceptStream(b, asked, Envelope(1, n + 2, ModelResponse(id, output, {}), {}))
         == Ok(asked.(pendingRequests := {}, lastSequence := Some(n + 2)))
  {
    assert {} + {id} == {id} && {id} - {id} == {};
  }

  lemma ToolExchange(b: Binding, p: Progress, n: nat, x: ToolRun)
    requires Idle(p, n) && x.callId !in p.seenCalls
    ensures var asked :=
        p.(seenCalls := p.seenCalls + {x.callId}, pendingCalls := {x.callId}, lastSequence := Some(n + 1));
      && AcceptStream(b, p, Envelope(1, n + 1, ToolCall(x.callId, x.tool, x.inputHash, {}), {})) == Ok(asked)
      && AcceptStream(b, asked, Envelope(1, n + 2, ToolResult(x.callId, x.outcome, x.resultHash, {}), {}))
         == Ok(asked.(pendingCalls := {}, lastSequence := Some(n + 2)))
  {
    assert {} + {x.callId} == {x.callId} && {x.callId} - {x.callId} == {};
  }

  lemma StartAccepted(b: Binding, w: Workload)
    requires Configured(b, w)
    ensures var t :=
        Emit(Emit([], AgentStart(w.agentId, b.sessionId, b.branchId, {})), ContextUpdate(0, w.promptHash, {}));
      |t| == 2 && AcceptAll(b, t) == Ok(Progress(true, false, Some(1), Some(0), Some(w.promptHash), {}, {}, {}, {}))
  {
    hide Text.IsBounded, DistinctCalls, BoundedTools;
    assert AcceptAll(b, []) == Ok(FRESH);
    hide AcceptAll;
    EmitAccepted(b, [], FRESH, AgentStart(w.agentId, b.sessionId, b.branchId, {}));
    var t := Emit([], AgentStart(w.agentId, b.sessionId, b.branchId, {}));
    EmitAccepted(b, t, Progress(true, false, Some(0), None, None, {}, {}, {}, {}), ContextUpdate(0, w.promptHash, {}));
  }

  lemma OpeningAccepted(b: Binding, w: Workload)
    requires Configured(b, w)
    ensures AcceptAll(b, Opening(b, w)) == Ok(After(w, 0)) && |Opening(b, w)| == 4
  {
    StartAccepted(b, w);
    assert CallIds(w.tools, 0) == {};
    hide AcceptAll, AcceptStream, Text.IsBounded, DistinctCalls, BoundedTools, CallIds;
    var t := Emit(Emit([], AgentStart(w.agentId, b.sessionId, b.branchId, {})), ContextUpdate(0, w.promptHash, {}));
    var p := Progress(true, false, Some(1), Some(0), Some(w.promptHash), {}, {}, {}, {});
    ModelExchange(b, p, 1, w.requestId, w.model, w.promptHash, w.responseHash);
    EmitAccepted(b, t, p, ModelRequest(w.requestId, w.model, w.promptHash, {}));
    var asked := p.(seenRequests := {w.requestId}, pendingRequests := {w.requestId}, lastSequence := Some(2));
    assert {} + {w.requestId} == {w.requestId};
    EmitAccepted(b, Emit(t, ModelRequest(w.requestId, w.model, w.promptHash, {})), asked,
      ModelResponse(w.requestId, w.responseHash, {}));
  }

  /** The validator while the call of tool `n` is pending. */
  function During(w: Workload, n: nat): Progress
    requires n < |w.tools|
  {
    var p, id := After(w, n), w.tools[n].callId;
    p.(seenCalls := p.seenCalls + {id}, pendingCalls := {id}, lastSequence := Some(4 + 2 * n))
  }

  lemma CallIsNew(w: Workload, n: nat)
    requires n < |w.tools| && DistinctCalls(w.tools)
    ensures w.tools[n].callId !in CallIds(w.tools, n)
    ensures CallIds(w.tools, n + 1) == CallIds(w.tools, n) + {w.tools[n].callId}
  {
  }

  /** What the stream check says of the two records of tool `n`. */
  lemma ToolRecords(b: Binding, w: Workload, n: nat)
    requires n < |w.tools| && DistinctCalls(w.tools)
    ensures var x := w.tools[n];
      && AcceptStream(b, After(w, n), Envelope(1, 4 + 2 * n, ToolCall(x.callId, x.tool, x.inputHash, {}), {}))
         == Ok(During(w, n))
      && AcceptStream(b, During(w, n), Envelope(1, 5 + 2 * n, ToolResult(x.callId, x.outcome, x.resultHash, {}), {}))
         == Ok(After(w, n + 1))
  {
    CallIsNew(w, n);
    hide AcceptStream, DistinctCalls, CallIds;
    ToolExchange(b, After(w, n), 3 + 2 * n, w.tools[n]);
  }

  lemma CallAccepted(b: Binding, w: Workload, n: nat, t: seq<Envelope>)
    requires Configured(b, w) && n < |w.tools| && AcceptAll(b, t) == Ok(After(w, n)) && |t| == 4 + 2 * n
    ensures var x := w.tools[n];
      AcceptAll(b, Emit(t, ToolCall(x.callId, x.tool, x.inputHash, {}))) == Ok(During(w, n))
  {
    var x := w.tools[n];
    assert BoundedFields(ToolCall(x.callId, x.tool, x.inputHash, {}));
    hide AcceptAll, AcceptStream, BoundedFields, BoundedTools, DistinctCalls, CallIds, After, During, Emit;
    ToolRecords(b, w, n);
    EmitAccepted(b, t, After(w, n), ToolCall(x.callId, x.tool, x.inputHash, {}));
  }

  lemma ResultAccepted(b: Binding, w: Workload, n: nat, t: seq<Envelope>)
    requires Configured(b, w) && n < |w.tools| && AcceptAll(b, t) == Ok(During(w, n)) && |t| == 5 + 2 * n
    ensures var x := w.tools[n];
      AcceptAll(b, Emit(t, ToolResult(x.callId, x.outcome, x.resultHash, {}))) == Ok(After(w, n + 1))
  {
    var x := w.tools[n];
    assert BoundedFields(ToolCall(x.callId, x.tool, x.inputHash, {}));
    assert BoundedFields(ToolResult(x.callId, x.outcome, x.resultHash, {}));
    hide AcceptAll, AcceptStream, BoundedFields, BoundedTools, DistinctCalls, CallIds, After, During, Emit;
    ToolRecords(b, w, n);
    EmitAccepted(b, t, During(w, n), ToolResult(x.callId, x.outcome, x.resultHash, {}));
  }

  lemma ToolAccepted(b: Binding, w: Workload, n: nat, t: seq<Envelope>)
    requires Configured(b, w) && n < |w.tools| && AcceptAll(b, t) == Ok(After(w, n)) && |t| == 4 + 2 * n
    ensures var x := w.tools[n];
      AcceptAll(b, Emit(Emit(t, ToolCall(x.callId, x.tool, x.inputHash, {})),
        ToolResult(x.callId, x.outcome, x.resultHash, {}))) == Ok(After(w, n + 1))
  {
    hide AcceptAll, Configured, After, During;
    CallAccepted(b, w, n, t);
    ResultAccepted(b, w, n, Emit(t, ToolCall(w.tools[n].callId, w.tools[n].tool, w.tools[n].inputHash, {})));
  }

  lemma {:induction false} ToolsAccepted(b: Binding, w: Workload, n: nat)
    requires Configured(b, w) && n <= |w.tools|
    ensures AcceptAll(b, WithTools(b, w, n)) == Ok(After(w, n)) && |WithTools(b, w, n)| == 4 + 2 * n
  {
    hide AcceptAll, Configured;
    if n == 0 {
      OpeningAccepted(b, w);
      hide Opening;
    } else {
      ToolsAccepted(b, w, n - 1);
      ToolAccepted(b, w, n - 1, WithTools(b, w, n - 1));
    }
  }

  /** Whatever its scenario, the workload's stream is accepted as a whole; so it is a valid trace. */
  lemma WorkloadIsAccepted(b: Binding, w: Workload)
    requires Configured(b, w)
    ensures AcceptAll(b, Stream(b, w)).Ok? && AcceptAll(b, Stream(b, w)).value.completed
    ensures ValidTrace(b, Stream(b, w))
  {
    var n := |w.tools|;
    var t := WithTools(b, w, n);
    ToolsAccepted(b, w, n);
    ValidatorDecidesValidTraces(b, Stream(b, w));
    hide AcceptAll, WithTools, Text.IsBounded, DistinctCalls, BoundedTools, ValidTrace, CallIds;
    var p := After(w, n);
    EmitAccepted(b, t, p, ContextUpdate(1, w.stateHash, {}));
    var q := p.(lastRevision := Some(1), context := Some(w.stateHash), lastSequence := Some(|t|));
    var t1 := Emit(t, ContextUpdate(1, w.stateHash, {}));
    EmitAccepted(b, t1, q, SafePoint(w.safePointId, w.stateHash, {}));
    var t2 := Emit(t1, SafePoint(w.safePointId, w.stateHash, {}));
    EmitAccepted(b, t2, q.(lastSequence := Some(|t1|)), Completion(RunSucceeded, Some(w.stateHash), {}));
  }

  /** Its replay report at the final safe point holds one result for the request and one for each tool call. */
  lemma WorkloadReplays(b: Binding, w: Workload, events: seq<JournalEvent>, branch: string, k: Kind)
    requires Configured(b, w) && Journalled(events, branch, Stream(b, w))
    ensures var t := Stream(b, w);
      |t| >= 2 && CompleteReport(t, |t| - 2, k, Report(events, branch, t[|t| - 2].sequence, k))
  {
    hide Configured, WithTools, AcceptAll, Journalled, CompleteReport, Report;
    WorkloadIsAccepted(b, w);
    var t := Stream(b, w);
    assert t[|t| - 2].message.SafePoint?;
    hide Stream;
    AcceptedStreamReplays(b, events, branch, t, |t| - 2, k);
  }
}
