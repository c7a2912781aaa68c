/** The agent stream protocol (crates/epoch-protocol): record validation and the online stream validator. */
module Protocol {
  import opened Wrappers
  import Text

  const CURRENT_PROTOCOL_VERSION: nat := 1
  const MAX_SEQUENCE: nat := MAX_I64
  const MAX_CONTEXT_REVISION: nat := MAX_I64
  const MAX_IDENTIFIER_BYTES: nat := 255
  const MAX_NAME_BYTES: nat := 128

  type Hash = string
  type Keys = set<string>

  datatype ToolOutcome = ToolSucceeded | ToolFailed | ToolDenied
  datatype CompletionOutcome = RunSucceeded | RunFailed | RunCancelled

  /** `ext` holds the names of the extension fields of a payload. */
  datatype Message =
    | AgentStart(agentId: string, sessionId: string, branchId: string, ext: Keys)
    | ContextUpdate(revision: nat, contextHash: Hash, ext: Keys)
    | ModelRequest(requestId: string, model: string, inputHash: Hash, ext: Keys)
    | ModelResponse(requestId: string, outputHash: Hash, ext: Keys)
    | ToolCall(callId: string, tool: string, inputHash: Hash, ext: Keys)
    | ToolResult(callId: string, outcome: ToolOutcome, resultHash: Option<Hash>, ext: Keys)
    | SafePoint(safePointId: string, contextHash: Hash, ext: Keys)
    | Completion(completion: CompletionOutcome, finalHash: Option<Hash>, ext: Keys)

  datatype Envelope = Envelope(version: nat, sequence: nat, message: Message, extensions: Keys)

  datatype Binding = Binding(sessionId: string, branchId: string)

  // ---------------------------------------------------------------- one record

  /** Field names that a payload may not repeat as an extension. */
  function ReservedFields(m: Message): Keys {
    match m
    case AgentStart(_, _, _, _) => {"agent_id", "session_id", "branch_id"}
    case ContextUpdate(_, _, _) => {"revision", "context_hash"}
    case ModelRequest(_, _, _, _) => {"request_id", "model", "input_hash"}
    case ModelResponse(_, _, _) => {"request_id", "output_hash"}
    case ToolCall(_, _, _, _) => {"call_id", "tool", "input_hash"}
    case ToolResult(_, _, _, _) => {"call_id", "outcome", "output_hash"}
    case SafePoint(_, _, _) => {"safe_point_id", "context_hash"}
    case Completion(_, _, _) => {"outcome", "output_hash"}
  }

  predicate BoundedFields(m: Message) {
    match m
    case AgentStart(agent, session, branch, _) =>
      && Text.IsBounded(agent, MAX_IDENTIFIER_BYTES)
      && Text.IsBounded(session, MAX_IDENTIFIER_BYTES)
      && Text.IsBounded(branch, MAX_IDENTIFIER_BYTES)
    case ContextUpdate(revision, _, _) => revision <= MAX_CONTEXT_REVISION
    case ModelRequest(id, model, _, _) => Text.IsBounded(id, MAX_IDENTIFIER_BYTES)
        && Text.IsBounded(model, MAX_NAME_BYTES)
    case ModelResponse(id, _, _) => Text.IsBounded(id, MAX_IDENTIFIER_BYTES)
    case ToolCall(id, tool, _, _) => Text.IsBounded(id, MAX_IDENTIFIER_BYTES) && Text.IsBounded(tool, MAX_NAME_BYTES)
    case ToolResult(id, _, _, _) => Text.IsBounded(id, MAX_IDENTIFIER_BYTES)
    case SafePoint(id, _, _) => Text.IsBounded(id, MAX_IDENTIFIER_BYTES)
    case Completion(_, _, _) => true
  }

  /** `validate` */
  predicate WellFormed(e: Envelope) {
    && e.version == CURRENT_PROTOCOL_VERSION
    && e.sequence <= MAX_SEQUENCE
    && e.extensions !! {"protocol_version", "sequence", "type", "payload"}
    && BoundedFields(e.message)
    && e.message.ext !! ReservedFields(e.message)
  }

  /** `referenced_hashes` */
  function ReferencedHashes(m: Message): seq<Hash> {
    match m
    case AgentStart(_, _, _, _) => []
    case ContextUpdate(_, h, _) => [h]
    case ModelRequest(_, _, h, _) => [h]
    case ModelResponse(_, h, _) => [h]
    case ToolCall(_, _, h, _) => [h]
    case ToolResult(_, _, h, _) => if h.Some? then [h.value] else []
    case SafePoint(_, h, _) => [h]
    case Completion(_, h, _) => if h.Some? then [h.value] else []
  }

  datatype BlobStatus = Missing | Unverified | Verified

  // ---------------------------------------------------------------- the stream

  datatype StreamError =
    | StartRequired | DuplicateStart | SessionBindingMismatch | BranchBindingMismatch
    | NonMonotonicSequence | NonMonotonicContextRevision
    | DuplicateModelRequest | ModelResponseWithoutRequest | DuplicateToolCall | ToolResultWithoutCall
    | SafePointWithoutContext | SafePointContextMismatch | SafePointWithOutstanding | CompletionWithOutstanding
    | MessageAfterCompletion

  datatype IngestError = ProtocolFailure | ReferenceFailure(hash: Hash,
                                                            status: BlobStatus) | StreamFailure(error: StreamError)

  /** The fields of `StreamValidator` other than its binding. */
  datatype Progress = Progress(
    started: bool, completed: bool, lastSequence: Option<nat>, lastRevision: Option<nat>, context: Option<Hash>,
    seenRequests: set<string>, pendingRequests: set<string>, seenCalls: set<string>, pendingCalls: set<string>)

  const FRESH: Progress := Progress(false, false, None, None, None, {}, {}, {}, {})

  predicate Outstanding(p: Progress) {
    p.pendingRequests != {} || p.pendingCalls != {}
  }

  function AcceptContext(p: Progress, revision: nat, hash: Hash): Result<Progress, StreamError> {
    if p.lastRevision.Some? && revision <= p.lastRevision.value then Err(NonMonotonicContextRevision)
    else Ok(p.(lastRevision := Some(revision), context := Some(hash)))
  }

  function AcceptSafePoint(p: Progress, hash: Hash): Result<Progress, StreamError> {
    if p.context.None? then Err(SafePointWithoutContext)
    else if hash != p.context.value then Err(SafePointContextMismatch)
    else if Outstanding(p) then Err(SafePointWithOutstanding)
    else Ok(p)
  }

  /** The match of `accept_stream` over a started stream. */
  function AcceptMessage(p: Progress, m: Message): Result<Progress, StreamError> {
    match m
    case AgentStart(_, _, _, _) => Err(DuplicateStart)
    case ContextUpdate(revision, hash, _) => AcceptContext(p, revision, hash)
    case ModelRequest(id, _, _, _) =>
      if id in p.seenRequests then Err(DuplicateModelRequest)
      else Ok(p.(seenRequests := p.seenRequests + {id}, pendingRequests := p.pendingRequests + {id}))
    case ModelResponse(id, _, _) =>
      if id !in p.pendingRequests then Err(ModelResponseWithoutRequest)
      else Ok(p.(pendingRequests := p.pendingRequests - {id}))
    case ToolCall(id, _, _, _) =>
      if id in p.seenCalls then Err(DuplicateToolCall)
      else Ok(p.(seenCalls := p.seenCalls + {id}, pendingCalls := p.pendingCalls + {id}))
    case ToolResult(id, _, _, _) =>
      if id !in p.pendingCalls then Err(ToolResultWithoutCall)
      else Ok(p.(pendingCalls := p.pendingCalls - {id}))
    case SafePoint(_, hash, _) => AcceptSafePoint(p, hash)
    case Completion(_, _, _) => if Outstanding(p) then Err(CompletionWithOutstanding) else Ok(p.(completed := true))
  }

  /** `accept_stream` */
  function AcceptStream(b: Binding, p: Progress, e: Envelope): Result<Progress, StreamError> {
    if p.completed then Err(MessageAfterCompletion)
    else if !p.started then
      if !e.message.AgentStart? then Err(StartRequired)
      else if e.message.sessionId != b.sessionId then Err(SessionBindingMismatch)
      else if e.message.branchId != b.branchId then Err(BranchBindingMismatch)
      else Ok(p.(started := true, lastSequence := Some(e.sequence)))
    else if e.message.AgentStart? then Err(DuplicateStart)
    else if p.lastSequence.Some? && e.sequence <= p.lastSequence.value then Err(NonMonotonicSequence)
    else
      var q :- AcceptMessage(p, e.message);
      Ok(q.(lastSequence := Some(e.sequence)))
  }

  /** `accept_claims` */
  function AcceptClaims(b: Binding, p: Progress, e: Envelope): Result<Progress, IngestError> {
    if !WellFormed(e) then Err(ProtocolFailure)
    else
      var r := AcceptStream(b, p, e);
      if r.Ok? then Ok(r.value) else Err(StreamFailure(r.error))
  }

  /** `validate_referenced_blobs`: the first reference that is not verified. */
  function FirstUnverified(hashes: seq<Hash>, status: Hash -> BlobStatus): (r: Option<Hash>)
    ensures r.None? <==> forall h :: h in hashes ==> status(h).Verified?
    ensures r.Some? ==> r.value in hashes && !status(r.value).Verified?
  {
    if hashes == [] then None
    else if !status(hashes[0]).Verified? then Some(hashes[0])
    else FirstUnverified(hashes[1..], status)
  }

  /** `accept` */
  function Accept(b: Binding, p: Progress, e: Envelope, status: Hash -> BlobStatus): Result<Progress, IngestError> {
    var q :- AcceptClaims(b, p, e);
    var bad := FirstUnverified(ReferencedHashes(e.message), status);
    if bad.Some? then Err(ReferenceFailure(bad.value, status(bad.value))) else Ok(q)
  }

  /** Feeding a whole stream to a fresh validator, stopping at the first rejection. */
  function AcceptAll(b: Binding, t: seq<Envelope>): Result<Progress, IngestError> {
    if t == [] then Ok(FRESH)
    else
      var p :- AcceptAll(b, t[..|t| - 1]);
      AcceptClaims(b, p, t[|t| - 1])
  }
}
