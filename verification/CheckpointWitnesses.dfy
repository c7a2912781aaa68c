/** Concrete stores and contexts at which recapture fails and at which two contexts share a diff document. */
module CheckpointWitnesses {
  import opened Wrappers
  import opened Contexts
  import opened Checkpoints
  import opened SemanticDiff
  import opened DiffTheorems
  import Text

  /** A context that refers to nothing. */
  const BARE: Context := Context(1, "p", 0, 0, Cursors(0, 0, 0, 0), "m", map[], [], [], [], [], None)

  lemma ShortIsBounded(c: char, maximum: nat)
    requires !Text.IsWhitespace(c) && maximum >= 4
    ensures Text.IsBounded([c], maximum)
  {
    var s := [c];
    assert s[1..] == "" && s[0] == c;
  }

  lemma BareIsWellShaped()
    ensures WellShaped(BARE) && References(BARE) == []
  {
    ShortIsBounded('p', MAX_IDENTIFIER_BYTES);
    ShortIsBounded('m', MAX_NAME_BYTES);
    hide Text.IsBounded;
  }

  // ---------------------------------------------------------------- a restored context that cannot be captured

  /** The store after somebody put the bytes of the bare context under another media type. */
  function PinnedElsewhere(codec: Codec, other: string, max: nat): Option<Blobs> {
    PutBlob(codec, Blobs(map[], map[], max), codec.encode(BARE), other)
  }

  /** The checkpoint record of those bytes restores, and capturing the restored context fails. */
  lemma RecaptureCanFail(codec: Codec, other: string, max: nat)
    requires Undoes(codec) && other != ContextMediaType() && |codec.encode(BARE)| <= max
    ensures var stored := PinnedElsewhere(codec, other, max);
      && stored.Some?
      && Restore(codec, stored.value, RecordOf(codec, BARE)) == Supported(BARE)
      && Capture(codec, stored.value, BARE) == Failed(Capturing, StorageFailure)
  {
    BareIsWellShaped();
    var c := BARE;
    assert codec.decode(codec.encode(c)) == Some(c) && codec.probe(codec.encode(c)) == Some(1);
    hide WellShaped, References, ContextMediaType, Undoes;
  }

  // ---------------------------------------------------------------- two contexts, one document

  lemma OrderOfTwo(x: Entity, y: Entity)
    requires x.id != y.id
    ensures ById([x, y]) == ById([y, x])
  {
    assert [x, y][..1] == [x] && [y, x][..1] == [y] && [x][..0] == [] && [y][..0] == [];
    assert ById([x]) == map[x.id := x] && ById([y]) == map[y.id := y];
  }

  /** The base with two messages added. */
  function WithMessages(b: Context, x: ObservableMessage, y: ObservableMessage): Context {
    b.(messages := [x, y])
  }

  lemma SameEntities(b: Context, x: ObservableMessage, y: ObservableMessage, k: Keyed)
    requires x.messageId != y.messageId
    ensures ById(Entities(WithMessages(b, x, y), k)) == ById(Entities(WithMessages(b, y, x), k))
  {
    if k.Messages? {
      assert Entities(WithMessages(b, x, y), k) == [OfMessage(x), OfMessage(y)];
      assert Entities(WithMessages(b, y, x), k) == [OfMessage(y), OfMessage(x)];
      OrderOfTwo(OfMessage(x), OfMessage(y));
    }
  }

  lemma NewMessagesDiffer(b: Context, x: ObservableMessage, y: ObservableMessage)
    requires b.messages == []
    ensures !SameIds(b, WithMessages(b, x, y), Messages)
    ensures Entities(WithMessages(b, x, y), Tasks) == Entities(WithMessages(b, y, x), Tasks)
  {
    assert Entities(b, Messages) == [];
    var s := Entities(WithMessages(b, x, y), Messages);
    assert s == [OfMessage(x), OfMessage(y)];
    assert y.messageId in ById(s);
  }

  /** Two new messages in either order: different contexts, the same document against the base. */
  lemma OrderOfNewMessagesIsLost(b: Context, x: ObservableMessage, y: ObservableMessage, r: seq<Change>, q: seq<Change>)
    requires b.messages == [] && x.messageId != y.messageId
    requires IsDiff(b, WithMessages(b, x, y), r) && IsDiff(b, WithMessages(b, y, x), q)
    ensures WithMessages(b, x, y) != WithMessages(b, y, x)
    ensures r == q
  {
    var v, w := WithMessages(b, x, y), WithMessages(b, y, x);
    assert v.messages[0] == x && w.messages[0] == y;
    SameEntities(b, x, y, Messages);
    SameEntities(b, x, y, Tasks);
    NewMessagesDiffer(b, x, y);
    hide IsDiff, ById, Entities;
    forall s: Slot | !s.Order? ensures View(v, s) == View(w, s) {
      if s.WholeOf? || s.FirstOf? || s.SecondOf? { assert s.keyed == Messages || s.keyed == Tasks; }
    }
    forall k | SameIds(b, v, k) ensures View(v, Order(k)) == View(w, Order(k)) {
      assert k == Tasks;
    }
    hide View, SameIds;
    DocumentDetermines(b, v, w, r, q);
  }
}
