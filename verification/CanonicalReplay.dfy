/** Resubmitting a committed operation with its argument keys in another order. */
module CanonicalReplay {
  import opened Wrappers
  import opened Capabilities
  import opened Effects
  import opened EffectProtocol
  import opened EffectInvariant
  import opened EffectTheorems
  import opened CanonicalJson

  /** What a caller submits. */
  datatype Request = Request(at: BranchKey, replayKey: string, action: string, resource: string, arguments: Json,
                             policyRevision: nat)

  /** The JSON writer, the digest, and the derivation of operation identifiers. */
  datatype Codec = Codec(
    encode: (string, Json, string) -> Bytes, digest: Bytes -> Hash, derive: (BranchKey, string) -> OperationId)

  /** `CanonicalIntent::new` for a request that passes its field checks. */
  function MakeIntent(codec: Codec, r: Request): CanonicalIntent {
    var input := codec.encode(r.action, Canonical(r.arguments), r.resource);
    CanonicalIntent(r.at, r.replayKey, r.action, r.resource, r.policyRevision,
                    codec.derive(r.at, r.replayKey), input, codec.digest(input))
  }

  /** The writer gives different bytes to different documents. */
  ghost predicate Faithful(codec: Codec) {
    forall action, v, resource, action', v', resource'
      {:trigger codec.encode(action, v, resource), codec.encode(action', v', resource')} ::
      codec.encode(action, v, resource) == codec.encode(action', v', resource') ==>
        action == action' && v == v' && resource == resource'
  }

  /** Two requests have the same input exactly when they agree on action, resource, and arguments up to key order. */
  lemma SameInputExactlyWhen(codec: Codec, r: Request, q: Request)
    requires Faithful(codec) && IsDocument(r.arguments) && IsDocument(q.arguments)
    ensures MakeIntent(codec, r).input == MakeIntent(codec, q).input <==>
      r.action == q.action && r.resource == q.resource && Same(r.arguments, q.arguments)
  {
    CanonicalExactlyWhenSame(r.arguments, q.arguments);
    hide Same, IsDocument, Canonical;
  }

  /** The rest of an intent is the request's own; its operation depends on branch and replay key alone. */
  lemma IntentCarriesRequest(codec: Codec, r: Request)
    ensures var i := MakeIntent(codec, r);
      && i.at == r.at && i.replayKey == r.replayKey && i.action == r.action && i.resource == r.resource
      && i.policyRevision == r.policyRevision && i.operation == codec.derive(r.at, r.replayKey)
      && i.inputHash == codec.digest(i.input)
  {
  }

  /** Reordering keys at any depth changes nothing in the intent. */
  lemma ReorderedIntent(codec: Codec, r: Request, arguments: Json)
    requires IsDocument(r.arguments) && IsDocument(arguments) && Same(r.arguments, arguments)
    ensures MakeIntent(codec, r.(arguments := arguments)) == MakeIntent(codec, r)
  {
    CanonicalExactlyWhenSame(r.arguments, arguments);
  }

  /**
   After any interleaving, a committed operation resubmitted with its argument keys in another order, under any
   authorizer, fault point and dispatcher, returns the recorded bytes: no authorization, no charge, no dispatch.
   */
  lemma ReorderedArgumentsReplay(codec: Codec, s: System, events: seq<Event>, e: EffectId, r: Request, arguments: Json,
                                 c: Caller, z: Authorizer, fault: Fault, choice: Choice)
    requires Inv(codec.digest, s) && e in s.ledger.intents && s.ledger.intents[e].state == Succeeded
    requires s.ledger.intents[e].request == MakeIntent(codec, r)
    requires IsDocument(r.arguments) && IsDocument(arguments) && Same(r.arguments, arguments)
    requires c !in RunSystem(codec.digest, s, events).calls
    ensures var t := RunSystem(codec.digest, s, events);
      var intent := MakeIntent(codec, r.(arguments := arguments));
      var u := RunSystem(codec.digest, t, EffectTheorems.Replay(c, intent, z, fault, choice));
      && u.ledger == t.ledger && u.blobs == t.blobs && u.invocations == t.invocations
      && c in u.calls
      && s.ledger.intents[e].resultHash.Some? && s.ledger.intents[e].resultHash.value in s.blobs
      && var h := s.ledger.intents[e].resultHash.value;
      && u.calls[c].stage == Returned(Ok(Receipt(intent.operation, intent.inputHash, h, s.blobs[h], true)))
  {
    ReorderedIntent(codec, r, arguments);
    var intent := MakeIntent(codec, r);
    assert intent.inputHash == codec.digest(intent.input);
    hide MakeIntent, Inv, RunSystem, Same, IsDocument, EffectTheorems.Replay;
    SucceededOperationReplays(codec.digest, s, events, e, c, intent, z, fault, choice);
  }
}
