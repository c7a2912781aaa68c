/** What the blob store keeps under every interleaving of writers, crashes and cleanups. */
module BlobTheorems {
  import opened Wrappers
  import opened BlobProtocol

  // ---------------------------------------------------------------- the invariant

  /** A published file is complete: a blob digests to its address, a media type is well formed. */
  ghost predicate Complete(digest: Bytes -> Hash, a: Address, b: Bytes) {
    if a.BlobAt? then digest(b) == a.hash else IsMediaType(b)
  }

  ghost predicate Published(digest: Bytes -> Hash, s: Store, a: Address) {
    a in s.finals ==> s.finals[a] in s.contents && Complete(digest, a, s.contents[s.finals[a]])
  }

  /** The temporary file that a call still holds. */
  function Held(stage: Stage): Option<Inode> {
    match stage
    case Writing(_, i, _) => Some(i)
    case Rechecking(i) => Some(i)
    case Linking(_, i) => Some(i)
    case Discarding(_, i, _) => Some(i)
    case _ => None
  }

  /** Before it is linked, a held file has no final name. */
  predicate Private(stage: Stage) {
    stage.Writing? || stage.Rechecking? || stage.Linking?
  }

  function PhaseOf(stage: Stage): Phase {
    match stage
    case Rechecking(_) => BlobPhase
    case Done(_) => MediaPhase
    case _ => stage.phase
  }

  /** What a call knows about the store at its stage. */
  ghost predicate PutSound(digest: Bytes -> Hash, s: Store, p: Put) {
    && p.hash == digest(p.bytes)
    && (p.stage.Done? ==> p.stage.reply.Err? || PinnedTo(s, p))
    && (!p.stage.Done? ==> IsMediaType(p.mediaType))
    && (!p.stage.Done? && PhaseOf(p.stage).MediaPhase? ==> BlobAt(p.hash) in s.finals)
    && (Held(p.stage).Some? ==> Holds(s, p, Held(p.stage).value))
    && (p.stage.Discarding? && p.stage.published ==>
          AddressOf(p, p.stage.phase) in s.finals && s.finals[AddressOf(p, p.stage.phase)] == p.stage.inode)
  }

  /** The blob is there and its media type is pinned to the one this call asked for. */
  ghost predicate PinnedTo(s: Store, p: Put) {
    && BlobAt(p.hash) in s.finals
    && MediaAt(p.hash) in s.finals
    && s.finals[MediaAt(p.hash)] in s.contents
    && s.contents[s.finals[MediaAt(p.hash)]] == p.mediaType
  }

  ghost predicate Holds(s: Store, p: Put, i: Inode) {
    && i in s.contents
    && (if p.stage.Writing?
        then p.stage.written <= |Payload(p, p.stage.phase)|
          && s.contents[i] == Payload(p, p.stage.phase)[..p.stage.written]
        else s.contents[i] == Payload(p, PhaseOf(p.stage)))
  }

  ghost predicate Unnamed(s: Store, i: Inode) {
    forall a :: a in s.finals ==> s.finals[a] != i
  }

  ghost predicate Exclusive(s: Store, w: Writer, v: Writer) {
    w in s.puts && v in s.puts && w != v && Held(s.puts[w].stage).Some? ==>
      Held(s.puts[w].stage) != Held(s.puts[v].stage)
  }

  ghost predicate Inv(digest: Bytes -> Hash, s: Store) {
    && (forall a {:trigger Published(digest, s, a)} :: Published(digest, s, a))
    && (forall w :: w in s.puts ==> PutSound(digest, s, s.puts[w]))
    && (forall w :: w in s.puts && Private(s.puts[w].stage) ==> Unnamed(s, Held(s.puts[w].stage).value))
    && (forall w, v {:trigger Exclusive(s, w, v)} :: Exclusive(s, w, v))
  }

  /** Published files keep their name, inode and contents. */
  ghost predicate Keeps(s: Store, t: Store) {
    forall a :: a in s.finals ==>
      && a in t.finals && t.finals[a] == s.finals[a]
      && (s.finals[a] in s.contents ==> s.finals[a] in t.contents && t.contents[s.finals[a]] == s.contents[s.finals[a]])
  }

  // ---------------------------------------------------------------- one call moves

  /** The steps of one call: its own record is sound again, and others are not disturbed. */
  ghost predicate Moves(digest: Bytes -> Hash, s: Store, t: Store, w: Writer) {
    && w in s.puts && t.puts.Keys == s.puts.Keys
    && (forall v :: v in s.puts && v != w ==> t.puts[v] == s.puts[v])
    && Keeps(s, t)
    && (forall i :: i in s.contents ==> i in t.contents)
    && (forall i :: i in s.contents && Held(s.puts[w].stage) != Some(i) ==> t.contents[i] == s.contents[i])
    && (forall a :: a in t.finals && a !in s.finals ==> Held(s.puts[w].stage) == Some(t.finals[a]))
    && (forall a {:trigger Published(digest, t, a)} :: Published(digest, t, a))
    && PutSound(digest, t, t.puts[w])
    && (Private(t.puts[w].stage) ==> Unnamed(t, Held(t.puts[w].stage).value))
    && (Held(t.puts[w].stage).Some? ==>
          Held(t.puts[w].stage) == Held(s.puts[w].stage) || Held(t.puts[w].stage).value !in s.contents)
  }

  lemma OthersSound(digest: Bytes -> Hash, s: Store, t: Store, w: Writer, v: Writer)
    requires Inv(digest, s) && Moves(digest, s, t, w) && v in s.puts && v != w
    ensures PutSound(digest, t, t.puts[v])
  {
    assert Exclusive(s, v, w);
    assert Published(digest, s, MediaAt(s.puts[v].hash));
  }

  lemma OthersPrivate(digest: Bytes -> Hash, s: Store, t: Store, w: Writer, v: Writer)
    requires Inv(digest, s) && Moves(digest, s, t, w) && v in s.puts && v != w && Private(s.puts[v].stage)
    ensures Unnamed(t, Held(t.puts[v].stage).value)
  {
    assert Exclusive(s, v, w);
    hide PutSound, Published;
  }

  lemma MovesKeepsInv(digest: Bytes -> Hash, s: Store, t: Store, w: Writer)
    requires Inv(digest, s) && Moves(digest, s, t, w)
    ensures Inv(digest, t)
  {
    forall v | v in t.puts ensures PutSound(digest, t, t.puts[v]) {
      if v != w { OthersSound(digest, s, t, w, v); }
    }
    forall v | v in t.puts && Private(t.puts[v].stage) ensures Unnamed(t, Held(t.puts[v].stage).value) {
      if v != w { OthersPrivate(digest, s, t, w, v); }
    }
    forall x, y ensures Exclusive(t, x, y) {
      assert Exclusive(s, x, y);
      assert x in s.puts ==> PutSound(digest, s, s.puts[x]);
      assert y in s.puts ==> PutSound(digest, s, s.puts[y]);
      hide Published, Unnamed, PinnedTo, Keeps;
    }
  }

  // ---------------------------------------------------------------- every stage is such a move

  /** Steps that change no file. */
  lemma LookMoves(digest: Bytes -> Hash, s: Store, w: Writer, stage: Stage)
    requires Inv(digest, s) && w in s.puts
    requires PutSound(digest, s, s.puts[w].(stage := stage))
    requires Held(stage) == Held(s.puts[w].stage) || Held(stage).None?
    requires Private(stage) ==> Private(s.puts[w].stage)
    ensures Moves(digest, s, At(s, w, stage), w)
  {
    var t := At(s, w, stage);
    forall a ensures Published(digest, t, a) {
      assert Published(digest, s, a);
    }
    assert PutSound(digest, s, s.puts[w]);
  }

  lemma CreateMoves(digest: Bytes -> Hash, s: Store, w: Writer, unused: Inode, chunk: nat)
    requires Inv(digest, s) && w in s.puts && s.puts[w].stage.Creating? && unused !in s.contents
    ensures Moves(digest, s, Advance(digest, s, w, unused, chunk), w)
  {
    var t := Advance(digest, s, w, unused, chunk);
    assert PutSound(digest, s, s.puts[w]);
    forall a ensures Published(digest, t, a) {
      assert Published(digest, s, a);
    }
    forall a | a in t.finals ensures t.finals[a] != unused {
      assert Published(digest, s, a);
    }
  }

  lemma WriteMoves(digest: Bytes -> Hash, s: Store, w: Writer, i: Inode, m: nat)
    requires Inv(digest, s) && w in s.puts && s.puts[w].stage.Writing? && i == s.puts[w].stage.inode
    requires m <= |Payload(s.puts[w], s.puts[w].stage.phase)|
    ensures var payload := Payload(s.puts[w], s.puts[w].stage.phase);
      Moves(digest, s, At(s.(contents := s.contents[i := payload[..m]]), w, Writing(s.puts[w].stage.phase, i, m)), w)
  {
    var payload := Payload(s.puts[w], s.puts[w].stage.phase);
    var t := At(s.(contents := s.contents[i := payload[..m]]), w, Writing(s.puts[w].stage.phase, i, m));
    assert PutSound(digest, s, s.puts[w]) && Unnamed(s, i);
    forall a ensures Published(digest, t, a) {
      assert Published(digest, s, a);
    }
  }

  lemma LinkMoves(digest: Bytes -> Hash, s: Store, w: Writer, i: Inode)
    requires Inv(digest, s) && w in s.puts && s.puts[w].stage.Linking? && i == s.puts[w].stage.inode
    requires AddressOf(s.puts[w], s.puts[w].stage.phase) !in s.finals
    ensures var phase := s.puts[w].stage.phase;
      Moves(digest, s, At(s.(finals := s.finals[AddressOf(s.puts[w], phase) := i]), w, Discarding(phase, i, true)), w)
  {
    var phase := s.puts[w].stage.phase;
    var t := At(s.(finals := s.finals[AddressOf(s.puts[w], phase) := i]), w, Discarding(phase, i, true));
    assert PutSound(digest, s, s.puts[w]);
    forall a ensures Published(digest, t, a) {
      assert Published(digest, s, a);
    }
  }

  lemma DiscardMoves(digest: Bytes -> Hash, s: Store, w: Writer, stage: Stage)
    requires Inv(digest, s) && w in s.puts && s.puts[w].stage.Discarding?
    requires stage
        == (if s.puts[w].stage.published then NextAfter(s.puts[w].stage.phase) else Reading(s.puts[w].stage.phase))
    ensures Moves(digest, s, At(s.(temps := s.temps - {s.puts[w].stage.inode}), w, stage), w)
  {
    var t := At(s.(temps := s.temps - {s.puts[w].stage.inode}), w, stage);
    assert PutSound(digest, s, s.puts[w]);
    forall a ensures Published(digest, t, a) {
      assert Published(digest, s, a);
    }
  }

  lemma ReadMoves(digest: Bytes -> Hash, s: Store, w: Writer, phase: Phase)
    requires Inv(digest, s) && w in s.puts && s.puts[w].stage == Reading(phase)
    requires AddressOf(s.puts[w], phase) in s.finals && s.finals[AddressOf(s.puts[w], phase)] in s.contents
    requires Check(digest, s.puts[w], phase, s.contents[s.finals[AddressOf(s.puts[w], phase)]]).Ok?
    ensures Moves(digest, s, At(s, w, NextAfter(phase)), w)
  {
    assert PutSound(digest, s, s.puts[w]);
    LookMoves(digest, s, w, NextAfter(phase));
  }

  lemma FailMoves(digest: Bytes -> Hash, s: Store, w: Writer, e: BlobError)
    requires Inv(digest, s) && w in s.puts
    ensures Moves(digest, s, At(s, w, Done(Err(e))), w)
  {
    assert PutSound(digest, s, s.puts[w]);
    LookMoves(digest, s, w, Done(Err(e)));
  }

  lemma StayMoves(digest: Bytes -> Hash, s: Store, w: Writer)
    requires Inv(digest, s) && w in s.puts
    ensures Moves(digest, s, s, w)
  {
    assert PutSound(digest, s, s.puts[w]);
    assert s == At(s, w, s.puts[w].stage);
    LookMoves(digest, s, w, s.puts[w].stage);
  }

  lemma LookingMoves(digest: Bytes -> Hash, s: Store, w: Writer, unused: Inode, chunk: nat)
    requires Inv(digest, s) && w in s.puts && s.puts[w].stage.Looking?
    ensures Moves(digest, s, Advance(digest, s, w, unused, chunk), w)
  {
    var p := s.puts[w];
    var stage := p.stage;
    assert PutSound(digest, s, p);
    hide Inv, Moves, IsMediaType;
    LookMoves(digest, s, w, if AddressOf(p, stage.phase) in s.finals then Reading(stage.phase)
      else Creating(stage.phase));
  }

  lemma WrittenMoves(digest: Bytes -> Hash, s: Store, w: Writer)
    requires Inv(digest, s) && w in s.puts && s.puts[w].stage.Writing?
    requires s.puts[w].stage.written >= |Payload(s.puts[w], s.puts[w].stage.phase)|
    ensures var stage := s.puts[w].stage;
      Moves(digest, s,
        At(s, w, if stage.phase.BlobPhase? then Rechecking(stage.inode) else Linking(stage.phase, stage.inode)), w)
  {
    var stage := s.puts[w].stage;
    assert PutSound(digest, s, s.puts[w]);
    hide Inv, Moves, IsMediaType;
    var payload := Payload(s.puts[w], stage.phase);
    assert payload[..|payload|] == payload;
    LookMoves(digest, s, w, if stage.phase.BlobPhase? then Rechecking(stage.inode)
      else Linking(stage.phase, stage.inode));
  }

  lemma WritingMoves(digest: Bytes -> Hash, s: Store, w: Writer, unused: Inode, chunk: nat)
    requires Inv(digest, s) && w in s.puts && s.puts[w].stage.Writing?
    ensures Moves(digest, s, Advance(digest, s, w, unused, chunk), w)
  {
    var p := s.puts[w];
    var stage := p.stage;
    assert PutSound(digest, s, p);
    hide Inv, Moves, IsMediaType;
    var length := |Payload(p, stage.phase)|;
    if stage.written >= length {
      WrittenMoves(digest, s, w);
    } else {
      hide PutSound;
      WriteMoves(digest, s, w, stage.inode, if stage.written + chunk <= length then stage.written + chunk else length);
    }
  }

  lemma RecheckingMoves(digest: Bytes -> Hash, s: Store, w: Writer, unused: Inode, chunk: nat)
    requires Inv(digest, s) && w in s.puts && s.puts[w].stage.Rechecking?
    ensures Moves(digest, s, Advance(digest, s, w, unused, chunk), w)
  {
    var p := s.puts[w];
    var stage := p.stage;
    assert PutSound(digest, s, p);
    hide Inv, Moves, IsMediaType;
    LookMoves(digest, s, w,
      if BlobAt(p.hash) in s.finals then Discarding(BlobPhase, stage.inode, false)
          else Linking(BlobPhase, stage.inode));
  }

  lemma LinkingMoves(digest: Bytes -> Hash, s: Store, w: Writer, unused: Inode, chunk: nat)
    requires Inv(digest, s) && w in s.puts && s.puts[w].stage.Linking?
    ensures Moves(digest, s, Advance(digest, s, w, unused, chunk), w)
  {
    var p := s.puts[w];
    var stage := p.stage;
    assert PutSound(digest, s, p);
    hide Inv, Moves, IsMediaType;
    if AddressOf(p, stage.phase) in s.finals { LookMoves(digest, s, w, Discarding(stage.phase, stage.inode, false)); }
    else if stage.inode !in s.temps { FailMoves(digest, s, w, Io); }
    else { LinkMoves(digest, s, w, stage.inode); }
  }

  lemma DiscardingMoves(digest: Bytes -> Hash, s: Store, w: Writer, unused: Inode, chunk: nat)
    requires Inv(digest, s) && w in s.puts && s.puts[w].stage.Discarding?
    ensures Moves(digest, s, Advance(digest, s, w, unused, chunk), w)
  {
    var p := s.puts[w];
    var stage := p.stage;
    assert PutSound(digest, s, p);
    hide Inv, Moves, IsMediaType;
    if stage.inode !in s.temps { FailMoves(digest, s, w, Io); }
    else { DiscardMoves(digest, s, w, if stage.published then NextAfter(stage.phase) else Reading(stage.phase)); }
  }

  lemma CreatingMoves(digest: Bytes -> Hash, s: Store, w: Writer, unused: Inode, chunk: nat)
    requires Inv(digest, s) && w in s.puts && s.puts[w].stage.Creating?
    ensures Moves(digest, s, Advance(digest, s, w, unused, chunk), w)
  {
    hide Inv, Moves;
    if unused in s.contents { StayMoves(digest, s, w); } else { CreateMoves(digest, s, w, unused, chunk); }
  }

  lemma AdvanceMoves(digest: Bytes -> Hash, s: Store, w: Writer, unused: Inode, chunk: nat)
    requires Inv(digest, s) && w in s.puts
    ensures Moves(digest, s, Advance(digest, s, w, unused, chunk), w)
  {
    hide Inv, Moves;
    match s.puts[w].stage
    case Looking(_) => LookingMoves(digest, s, w, unused, chunk);
    case Creating(_) => CreatingMoves(digest, s, w, unused, chunk);
    case Writing(_, _, _) => WritingMoves(digest, s, w, unused, chunk);
    case Rechecking(_) => RecheckingMoves(digest, s, w, unused, chunk);
    case Linking(_, _) => LinkingMoves(digest, s, w, unused, chunk);
    case Discarding(_, _, _) => DiscardingMoves(digest, s, w, unused, chunk);
    case Reading(phase) => ReadingMoves(digest, s, w, phase, unused, chunk);
    case Done(_) => StayMoves(digest, s, w);
  }

  lemma ReadingMoves(digest: Bytes -> Hash, s: Store, w: Writer, phase: Phase, unused: Inode, chunk: nat)
    requires Inv(digest, s) && w in s.puts && s.puts[w].stage == Reading(phase)
    ensures Moves(digest, s, Advance(digest, s, w, unused, chunk), w)
  {
    hide Inv, Moves;
    var p := s.puts[w];
    var a := AddressOf(p, phase);
    if a !in s.finals || s.finals[a] !in s.contents { FailMoves(digest, s, w, NotFound); }
    else {
      var r := Check(digest, p, phase, s.contents[s.finals[a]]);
      if r.Ok? { ReadMoves(digest, s, w, phase); } else { FailMoves(digest, s, w, r.error); }
    }
  }

  // ---------------------------------------------------------------- whole runs

  /** What is said about files does not depend on the calls or the temporary names. */
  lemma SameFiles(digest: Bytes -> Hash, s: Store, t: Store, p: Put)
    requires t.contents == s.contents && t.finals == s.finals
    ensures PutSound(digest, t, p) <==> PutSound(digest, s, p)
    ensures forall a {:trigger Published(digest, t, a)} :: Published(digest, t, a) <==> Published(digest, s, a)
  {
    hide Complete, IsMediaType;
  }

  lemma EnterKeepsInv(digest: Bytes -> Hash, max: nat, s: Store, w: Writer, bytes: Bytes, mediaType: Bytes)
    requires Inv(digest, s)
    ensures Inv(digest, Step(digest, max, s, Enter(w, bytes, mediaType)))
        && Keeps(s, Step(digest, max, s, Enter(w, bytes, mediaType)))
  {
    hide IsMediaType;
    if w !in s.puts {
      var t := Step(digest, max, s, Enter(w, bytes, mediaType));
      assert PutSound(digest, s, t.puts[w]) && Held(t.puts[w].stage).None?;
      hide PutSound, Published, Step;
      forall v | v in t.puts ensures PutSound(digest, t, t.puts[v]) { SameFiles(digest, s, t, t.puts[v]); }
      SameFiles(digest, s, t, t.puts[w]);
      forall a ensures Published(digest, t, a) { assert Published(digest, s, a); }
      forall x, y ensures Exclusive(t, x, y) { assert Exclusive(s, x, y); }
    }
  }

  lemma CleanKeepsInv(digest: Bytes -> Hash, s: Store, i: Inode)
    requires Inv(digest, s)
    ensures Inv(digest, s.(temps := s.temps - {i})) && Keeps(s, s.(temps := s.temps - {i}))
  {
    var t := s.(temps := s.temps - {i});
    hide PutSound;
    forall a ensures Published(digest, t, a) { assert Published(digest, s, a); }
    forall v | v in t.puts ensures PutSound(digest, t, t.puts[v]) { SameFiles(digest, s, t, t.puts[v]); }
    forall x, y ensures Exclusive(t, x, y) { assert Exclusive(s, x, y); }
  }

  lemma StepKeepsInv(digest: Bytes -> Hash, max: nat, s: Store, event: Event)
    requires Inv(digest, s)
    ensures Inv(digest, Step(digest, max, s, event)) && Keeps(s, Step(digest, max, s, event))
  {
    match event
    case Enter(w, bytes, mediaType) => EnterKeepsInv(digest, max, s, w, bytes, mediaType);
    case Proceed(w, unused, chunk) =>
      hide Inv, Advance;
      if w in s.puts {
        AdvanceMoves(digest, s, w, unused, chunk);
        MovesKeepsInv(digest, s, Advance(digest, s, w, unused, chunk), w);
      }
    case Stop(w) =>
      hide Inv;
      if w in s.puts && !s.puts[w].stage.Done? {
        FailMoves(digest, s, w, Io);
        MovesKeepsInv(digest, s, At(s, w, Done(Err(Io))), w);
      }
    case Clean(i) =>
      hide Inv;
      CleanKeepsInv(digest, s, i);
  }

  lemma {:induction false} RunKeepsInv(digest: Bytes -> Hash, max: nat, s: Store, events: seq<Event>)
    requires Inv(digest, s)
    ensures Inv(digest, Run(digest, max, s, events)) && Keeps(s, Run(digest, max, s, events))
  {
    if events != [] {
      var n := |events| - 1;
      RunKeepsInv(digest, max, s, events[..n]);
      hide Inv, Step;
      StepKeepsInv(digest, max, Run(digest, max, s, events[..n]), events[n]);
    }
  }

  lemma EmptyInv(digest: Bytes -> Hash)
    ensures Inv(digest, EMPTY)
  {
    forall a ensures Published(digest, EMPTY, a) { }
    forall x, y ensures Exclusive(EMPTY, x, y) { }
  }

  // ---------------------------------------------------------------- the theorems

  /** Whatever writers, crashes and cleanups do, every published blob digests to its address. */
  lemma PublishedBlobsAreIntact(digest: Bytes -> Hash, max: nat, events: seq<Event>, h: Hash)
    ensures var s := Run(digest, max, EMPTY, events);
      BlobAt(h) in s.finals ==> s.finals[BlobAt(h)] in s.contents && digest(s.contents[s.finals[BlobAt(h)]]) == h
  {
    EmptyInv(digest);
    RunKeepsInv(digest, max, EMPTY, events);
    assert Published(digest, Run(digest, max, EMPTY, events), BlobAt(h));
  }

  /** Once published, the bytes of a blob and its pinned media type never change. */
  lemma PublishedFilesNeverChange(digest: Bytes -> Hash, max: nat, events: seq<Event>, more: seq<Event>, a: Address)
    requires a in Run(digest, max, EMPTY, events).finals
    ensures var s, t := Run(digest, max, EMPTY, events), Run(digest, max, Run(digest, max, EMPTY, events), more);
      && s.finals[a] in s.contents && a in t.finals && t.finals[a] in t.contents
      && t.contents[t.finals[a]] == s.contents[s.finals[a]]
  {
    var s := Run(digest, max, EMPTY, events);
    EmptyInv(digest);
    RunKeepsInv(digest, max, EMPTY, events);
    RunKeepsInv(digest, max, s, more);
    assert Published(digest, s, a);
    hide Run;
  }

  predicate Succeeded(s: Store, w: Writer) {
    w in s.puts && s.puts[w].stage == Done(Ok(Unit))
  }

  /** All successful puts of one hash agree on the media type, and it is the pinned one. */
  lemma SuccessfulPutsAgree(digest: Bytes -> Hash, max: nat, events: seq<Event>, w: Writer, v: Writer)
    requires var s := Run(digest, max, EMPTY, events);
      Succeeded(s, w) && Succeeded(s, v) && s.puts[w].hash == s.puts[v].hash
    ensures var s := Run(digest, max, EMPTY, events);
      && s.puts[w].mediaType == s.puts[v].mediaType
      && PinnedTo(s, s.puts[w])
      && s.puts[w].hash == digest(s.puts[w].bytes)
  {
    EmptyInv(digest);
    RunKeepsInv(digest, max, EMPTY, events);
    var s := Run(digest, max, EMPTY, events);
    assert PutSound(digest, s, s.puts[w]) && PutSound(digest, s, s.puts[v]);
    hide Run, Published;
  }
}
