/** What a well-formed record is, what it refers to, and what each rejection says about the stream. */
module ProtocolMeaning {
  import opened Wrappers
  import opened Protocol
  import opened Traces
  import opened ValidatorRefinement
  import Text

  // ---------------------------------------------------------------- one record

  /** A record refers to the one hash it carries, if it carries one. */
  lemma ReferencedMeans(m: Message, h: Hash)
    ensures h in ReferencedHashes(m) <==>
      || (m.ContextUpdate? && m.contextHash == h)
      || (m.ModelRequest? && m.inputHash == h)
      || (m.ModelResponse? && m.outputHash == h)
      || (m.ToolCall? && m.inputHash == h)
      || (m.ToolResult? && m.resultHash == Some(h))
      || (m.SafePoint? && m.contextHash == h)
      || (m.Completion? && m.finalHash == Some(h))
  {
  }

  predicate Identifier(s: string) {
    Text.IsBounded(s, 255)
  }

  predicate Name(s: string) {
    Text.IsBounded(s, 128)
  }

  /** The identifiers and names of a message are bounded, and its revision fits. */
  lemma FieldsMean(m: Message)
    ensures BoundedFields(m) <==>
      && (m.AgentStart? ==> Identifier(m.agentId) && Identifier(m.sessionId) && Identifier(m.branchId))
      && (m.ContextUpdate? ==> m.revision <= 0x7FFF_FFFF_FFFF_FFFF)
      && (m.ModelRequest? ==> Identifier(m.requestId) && Name(m.model))
      && (m.ModelResponse? ==> Identifier(m.requestId))
      && (m.ToolCall? ==> Identifier(m.callId) && Name(m.tool))
      && (m.ToolResult? ==> Identifier(m.callId))
      && (m.SafePoint? ==> Identifier(m.safePointId))
  {
    hide Text.IsBounded;
  }

  /** The extension fields of a payload may not repeat one of its own. */
  lemma ReservedMeans(m: Message)
    ensures m.ext !! ReservedFields(m) <==>
      && (m.AgentStart? ==> "agent_id" !in m.ext && "session_id" !in m.ext && "branch_id" !in m.ext)
      && (m.ContextUpdate? ==> "revision" !in m.ext && "context_hash" !in m.ext)
      && (m.ModelRequest? ==> "request_id" !in m.ext && "model" !in m.ext && "input_hash" !in m.ext)
      && (m.ModelResponse? ==> "request_id" !in m.ext && "output_hash" !in m.ext)
      && (m.ToolCall? ==> "call_id" !in m.ext && "tool" !in m.ext && "input_hash" !in m.ext)
      && (m.ToolResult? ==> "call_id" !in m.ext && "outcome" !in m.ext && "output_hash" !in m.ext)
      && (m.SafePoint? ==> "safe_point_id" !in m.ext && "context_hash" !in m.ext)
      && (m.Completion? ==> "outcome" !in m.ext && "output_hash" !in m.ext)
  {
  }

  /** A record is well formed: current version, a sequence that fits, bounded fields, no reserved extension. */
  lemma WellFormedMeans(e: Envelope)
    ensures WellFormed(e) <==>
      && e.version == 1 && e.sequence <= 0x7FFF_FFFF_FFFF_FFFF
      && "protocol_version" !in e.extensions && "sequence" !in e.extensions
      && "type" !in e.extensions && "payload" !in e.extensions
      && BoundedFields(e.message) && e.message.ext !! ReservedFields(e.message)
  {
    hide BoundedFields, ReservedFields;
  }

  // ---------------------------------------------------------------- rejections

  ghost predicate Completed(t: seq<Envelope>) {
    t != [] && t[|t| - 1].message.Completion?
  }

  ghost predicate HasAnyContext(t: seq<Envelope>) {
    exists i :: 0 <= i < |t| && t[i].message.ContextUpdate?
  }

  ghost predicate Open(t: seq<Envelope>, k: Kind, id: string) {
    Asked(t, k, id) && !Answered(t, k, id)
  }

  /** What each rejection of a record says about the trace accepted so far. */
  ghost predicate Because(b: Binding, t: seq<Envelope>, e: Envelope, error: StreamError) {
    var m := e.message;
    match error
    case MessageAfterCompletion => Completed(t)
    case StartRequired => t == [] && !m.AgentStart?
    case SessionBindingMismatch => t == [] && m.AgentStart? && m.sessionId != b.sessionId
    case BranchBindingMismatch => t == [] && m.AgentStart? && m.sessionId == b.sessionId && m.branchId != b.branchId
    case DuplicateStart => t != [] && m.AgentStart?
    case NonMonotonicSequence => t != [] && e.sequence <= t[|t| - 1].sequence
    case NonMonotonicContextRevision => m.ContextUpdate? && !NewerContext(t, m)
    case DuplicateModelRequest => m.ModelRequest? && Asked(t, Model, m.requestId)
    case ModelResponseWithoutRequest => m.ModelResponse? && !Open(t, Model, m.requestId)
    case DuplicateToolCall => m.ToolCall? && Asked(t, Tool, m.callId)
    case ToolResultWithoutCall => m.ToolResult? && !Open(t, Tool, m.callId)
    case SafePointWithoutContext => m.SafePoint? && !HasAnyContext(t)
    case SafePointContextMismatch => m.SafePoint? && HasAnyContext(t) && !HasContext(t, m.contextHash)
    case SafePointWithOutstanding => m.SafePoint? && HasContext(t, m.contextHash)
        && !(Quiet(t, Model) && Quiet(t, Tool))
    case CompletionWithOutstanding => m.Completion? && !(Quiet(t, Model) && Quiet(t, Tool))
  }

  lemma MessageRejection(b: Binding, p: Progress, t: seq<Envelope>, e: Envelope)
    requires MirrorsContext(p, t) && MirrorsQuestions(p, t, Model) && MirrorsQuestions(p, t, Tool)
        && RevisionsIncrease(t)
    requires !e.message.AgentStart? && AcceptMessage(p, e.message).Err?
    ensures Because(b, t, e, AcceptMessage(p, e.message).error)
  {
    hide Quiet, HasContext, LastContextBefore, Outstanding, MirrorsContext, MirrorsQuestions, NewerContext;
    hide HasAnyContext, Open, Asked;
    OutstandingIsNotQuiet(p, t);
    ContextAgrees(p, t, e.message);
    AnyContext(p, t);
    var id := match e.message
      case ModelRequest(id, _, _, _) => id
      case ModelResponse(id, _, _) => id
      case ToolCall(id, _, _, _) => id
      case ToolResult(id, _, _, _) => id
      case _ => "";
    QuestionMirrored(p, t, Model, id);
    QuestionMirrored(p, t, Tool, id);
  }

  lemma AnyContext(p: Progress, t: seq<Envelope>)
    requires MirrorsContext(p, t)
    ensures p.context.Some? <==> HasAnyContext(t)
  {
    hide LastContextBefore;
  }

  lemma QuestionMirrored(p: Progress, t: seq<Envelope>, k: Kind, id: string)
    requires MirrorsQuestions(p, t, k)
    ensures id in Seen(p, k) <==> Asked(t, k, id)
    ensures id in Pending(p, k) <==> Open(t, k, id)
  {
    hide Asked, Answered;
  }

  /** A record is rejected as malformed exactly when it is, and every other rejection is true of the stream. */
  lemma RejectionsAreTrue(b: Binding, p: Progress, t: seq<Envelope>, e: Envelope)
    requires ValidTrace(b, t) && Mirrors(p, t)
    ensures var r := AcceptClaims(b, p, e);
      && (r == Err(ProtocolFailure) <==> !WellFormed(e))
      && (r.Err? && r.error.StreamFailure? ==> Because(b, t, e, r.error.error))
      && (r.Err? ==> !r.error.ReferenceFailure?)
  {
    hide WellFormed, Paired, SafeAt, CompleteAt, SequencesIncrease, OneBoundStart, AllWellFormed;
    if p.started && !p.completed && !e.message.AgentStart? && AcceptMessage(p, e.message).Err? {
      MessageRejection(b, p, t, e);
      hide AcceptMessage, MirrorsQuestions, MirrorsContext;
    } else {
      hide AcceptMessage, MirrorsQuestions, MirrorsContext, Quiet, HasContext, NewerContext, Asked, Open, HasAnyContext;
    }
  }

  // ---------------------------------------------------------------- references

  /**
   With references checked, a record is accepted exactly when its claims are and everything it refers to is verified.
   */
  lemma AcceptedWithReferences(b: Binding, p: Progress, e: Envelope, status: Hash -> BlobStatus)
    ensures var r, claims := Accept(b, p, e, status), AcceptClaims(b, p, e);
      && (r.Ok? <==> claims.Ok? && forall h :: h in ReferencedHashes(e.message) ==> status(h) == Verified)
      && (r.Ok? ==> r.value == claims.value)
      && (r.Err? && claims.Err? ==> r.error == claims.error)
      && (r.Err? && claims.Ok? ==>
            && r.error.ReferenceFailure? && r.error.hash in ReferencedHashes(e.message)
            && r.error.status == status(r.error.hash) != Verified)
  {
    hide AcceptClaims, ReferencedHashes;
  }
}
