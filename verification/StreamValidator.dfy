/** The stream validator as the source runs it: a candidate state is mutated and kept only on success. */
module StreamValidators {
  import opened Wrappers
  import opened Protocol
  import opened Traces
  import opened ValidatorRefinement

  class StreamValidator {
    const binding: Binding
    var started: bool
    var completed: bool
    var lastSequence: Option<nat>
    var lastRevision: Option<nat>
    var context: Option<Hash>
    var seenRequests: set<string>
    var pendingRequests: set<string>
    var seenCalls: set<string>
    var pendingCalls: set<string>

    function State(): Progress
      reads this
    {
      Progress(started, completed, lastSequence, lastRevision, context, seenRequests, pendingRequests, seenCalls,
        pendingCalls)
    }

    constructor (binding: Binding)
      ensures State() == FRESH && this.binding == binding
    {
      this.binding := binding;
      started, completed, lastSequence, lastRevision, context := false, false, None, None, None;
      seenRequests, pendingRequests, seenCalls, pendingCalls := {}, {}, {}, {};
    }

    method Restore(p: Progress)
      modifies this
      ensures State() == p
    {
      started, completed, lastSequence, lastRevision, context :=
        p.started, p.completed, p.lastSequence, p.lastRevision, p.context;
      seenRequests, pendingRequests, seenCalls, pendingCalls :=
        p.seenRequests, p.pendingRequests, p.seenCalls, p.pendingCalls;
    }

    /** `accept_stream` on the candidate; after an error the candidate is worthless. */
    method AcceptCandidate(e: Envelope) returns (r: Result<Unit, StreamError>)
      modifies this
      ensures var spec := AcceptStream(binding, old(State()), e);
        && (r.Ok? <==> spec.Ok?)
        && (r.Ok? ==> State() == spec.value)
        && (r.Err? ==> r.error == spec.error)
    {
      if completed {
        return Err(MessageAfterCompletion);
      }
      if !started {
        if !e.message.AgentStart? {
          return Err(StartRequired);
        }
        if e.message.sessionId != binding.sessionId {
          return Err(SessionBindingMismatch);
        }
        if e.message.branchId != binding.branchId {
          return Err(BranchBindingMismatch);
        }
        started := true;
        lastSequence := Some(e.sequence);
        return Ok(Unit);
      }
      if e.message.AgentStart? {
        return Err(DuplicateStart);
      }
      if lastSequence.Some? && e.sequence <= lastSequence.value {
        return Err(NonMonotonicSequence);
      }
      r := ApplyMessage(e.message);
      lastSequence := Some(e.sequence);
    }

    method ApplyMessage(m: Message) returns (r: Result<Unit, StreamError>)
      modifies this
      ensures var spec := AcceptMessage(old(State()), m);
        && (r.Ok? <==> spec.Ok?)
        && (r.Ok? ==> State() == spec.value)
        && (r.Err? ==> r.error == spec.error)
    {
      r := Ok(Unit);
      match m
      case AgentStart(_, _, _, _) =>
        return Err(DuplicateStart);
      case ContextUpdate(revision, hash, _) =>
        if lastRevision.Some? && revision <= lastRevision.value {
          return Err(NonMonotonicContextRevision);
        }
        lastRevision := Some(revision);
        context := Some(hash);
      case ModelRequest(id, _, _, _) =>
        if id in seenRequests {
          return Err(DuplicateModelRequest);
        }
        seenRequests := seenRequests + {id};
        pendingRequests := pendingRequests + {id};
      case ModelResponse(id, _, _) =>
        if id !in pendingRequests {
          return Err(ModelResponseWithoutRequest);
        }
        pendingRequests := pendingRequests - {id};
      case ToolCall(id, _, _, _) =>
        if id in seenCalls {
          return Err(DuplicateToolCall);
        }
        seenCalls := seenCalls + {id};
        pendingCalls := pendingCalls + {id};
      case ToolResult(id, _, _, _) =>
        if id !in pendingCalls {
          return Err(ToolResultWithoutCall);
        }
        pendingCalls := pendingCalls - {id};
      case SafePoint(_, hash, _) =>
        if context.None? {
          return Err(SafePointWithoutContext);
        }
        if hash != context.value {
          return Err(SafePointContextMismatch);
        }
        if pendingRequests != {} || pendingCalls != {} {
          return Err(SafePointWithOutstanding);
        }
      case Completion(_, _, _) =>
        if pendingRequests != {} || pendingCalls != {} {
          return Err(CompletionWithOutstanding);
        }
        completed := true;
    }

    /** A rejected record leaves the validator as it was. */
    method AcceptClaims(e: Envelope) returns (r: Result<Unit, IngestError>)
      modifies this
      ensures var spec := Protocol.AcceptClaims(binding, old(State()), e);
        && (r.Ok? <==> spec.Ok?)
        && (r.Ok? ==> State() == spec.value)
        && (r.Err? ==> r.error == spec.error && State() == old(State()))
    {
      if !WellFormed(e) {
        return Err(ProtocolFailure);
      }
      var saved := State();
      var accepted := AcceptCandidate(e);
      if accepted.Err? {
        Restore(saved);
        return Err(StreamFailure(accepted.error));
      }
      return Ok(Unit);
    }

    /** `accept`: the references are looked up after the stream check, and a bad one undoes it. */
    method Accept(e: Envelope, status: Hash -> BlobStatus) returns (r: Result<Unit, IngestError>)
      modifies this
      ensures var spec := Protocol.Accept(binding, old(State()), e, status);
        && (r.Ok? <==> spec.Ok?)
        && (r.Ok? ==> State() == spec.value)
        && (r.Err? ==> r.error == spec.error && State() == old(State()))
    {
      hide WellFormed, Protocol.AcceptClaims;
      var saved := State();
      r := AcceptClaims(e);
      if r.Err? {
        return;
      }
      var hashes, i := ReferencedHashes(e.message), 0;
      while i < |hashes|
        invariant 0 <= i <= |hashes|
        invariant FirstUnverified(hashes, status) == FirstUnverified(hashes[i..], status)
        invariant Protocol.AcceptClaims(binding, old(State()), e) == Ok(State())
      {
        assert hashes[i..][0] == hashes[i] && hashes[i..][1..] == hashes[i + 1..];
        if !status(hashes[i]).Verified? {
          Restore(saved);
          return Err(ReferenceFailure(hashes[i], status(hashes[i])));
        }
        i := i + 1;
      }
      return Ok(Unit);
    }

    /**
     The supervisor's loop over a stream: feed records until one is rejected. What was accepted is the longest
     valid prefix.
     */
    method Monitor(t: seq<Envelope>) returns (accepted: nat)
      requires State() == FRESH
      modifies this
      ensures accepted <= |t| && ValidTrace(binding, t[..accepted])
      ensures accepted < |t| ==> !ValidTrace(binding, t[..accepted + 1])
      ensures AcceptAll(binding, t[..accepted]) == Ok(State())
    {
      accepted := 0;
      hide ValidTrace, Mirrors, Protocol.AcceptClaims;
      while accepted < |t|
        invariant accepted <= |t|
        invariant AcceptAll(binding, t[..accepted]) == Ok(State())
      {
        var r := AcceptClaims(t[accepted]);
        assert t[..accepted + 1][..accepted] == t[..accepted];
        if r.Err? {
          break;
        }
        accepted := accepted + 1;
      }
      ValidatorDecidesValidTraces(binding, t[..accepted]);
      if accepted < |t| {
        assert t[..accepted + 1][..accepted] == t[..accepted];
        ValidatorDecidesValidTraces(binding, t[..accepted + 1]);
      }
    }
  }
}
