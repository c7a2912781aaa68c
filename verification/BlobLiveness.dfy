/** When a `put` is refused, that an undisturbed one ends, and how. */
module BlobLiveness {
  import opened Wrappers
  import opened BlobProtocol
  import opened BlobTheorems

  // ---------------------------------------------------------------- entering

  /** A media type that is accepted: 1 to 255 printable ASCII bytes. */
  predicate Printable(b: Bytes) {
    1 <= |b| <= 255 && forall i :: 0 <= i < |b| ==> 0x20 <= (b[i] as int) <= 0x7E
  }

  lemma PrintableIsMediaType(b: Bytes)
    ensures IsMediaType(b) <==> Printable(b)
  {
  }

  /**
   A call is refused for its size exactly when that exceeds the limit, then for its media type; otherwise it begins.
   */
  lemma RefusedExactlyWhen(digest: Bytes -> Hash, max: nat, s: Store, w: Writer, bytes: Bytes, mediaType: Bytes)
    requires w !in s.puts
    ensures var t := Step(digest, max, s, Enter(w, bytes, mediaType));
      && t == s.(puts := t.puts) && w in t.puts && t.puts == s.puts[w := t.puts[w]]
      && t.puts[w].bytes == bytes && t.puts[w].mediaType == mediaType && t.puts[w].hash == digest(bytes)
      && (t.puts[w].stage == Done(Err(SizeLimitExceeded)) <==> |bytes| > max)
      && (t.puts[w].stage == Done(Err(InvalidMediaType)) <==> |bytes| <= max && !Printable(mediaType))
      && (t.puts[w].stage == Looking(BlobPhase) <==> |bytes| <= max && Printable(mediaType))
  {
    PrintableIsMediaType(mediaType);
    hide IsMediaType, Printable;
  }

  /**
   Whatever bytes lie at a final path, reading them back passes exactly if they are what the call is about: a blob with
   its digest, or a well-formed media type that is the same.
   */
  lemma CheckedExactlyWhen(digest: Bytes -> Hash, p: Put, stored: Bytes)
    ensures Check(digest, p, BlobPhase, stored) == (if digest(stored) == p.hash then Ok(Unit) else Err(HashMismatch))
    ensures var r := Check(digest, p, MediaPhase, stored);
      && (r == Ok(Unit) <==> Printable(stored) && stored == p.mediaType)
      && (r == Err(CorruptMediaType) <==> !Printable(stored))
      && (r == Err(MediaTypeConflict) <==> Printable(stored) && stored != p.mediaType)
  {
    PrintableIsMediaType(stored);
    hide IsMediaType, Printable;
  }

  // ---------------------------------------------------------------- no file exceeds the limit

  ghost predicate BlobFits(max: nat, s: Store, h: Hash) {
    BlobAt(h) in s.finals && s.finals[BlobAt(h)] in s.contents ==> |s.contents[s.finals[BlobAt(h)]]| <= max
  }

  ghost predicate WithinLimit(max: nat, s: Store) {
    && (forall h {:trigger BlobFits(max, s, h)} :: BlobFits(max, s, h))
    && (forall w :: w in s.puts && !s.puts[w].stage.Done? ==> |s.puts[w].bytes| <= max)
  }

  /** A step changes only its own call, and that only in its stage. */
  lemma OnlyOwnStage(digest: Bytes -> Hash, s: Store, w: Writer, unused: Inode, chunk: nat)
    requires w in s.puts
    ensures var t := Advance(digest, s, w, unused, chunk);
      && t.puts.Keys == s.puts.Keys && t.puts[w] == s.puts[w].(stage := t.puts[w].stage)
      && (forall v :: v in s.puts && v != w ==> t.puts[v] == s.puts[v])
      && (s.puts[w].stage.Done? ==> t == s)
  {
    hide Check, IsMediaType;
  }

  /** The final paths change only when a call links its file. */
  lemma OnlyLinksPublish(digest: Bytes -> Hash, s: Store, w: Writer, unused: Inode, chunk: nat)
    requires w in s.puts
    ensures var t, p := Advance(digest, s, w, unused, chunk), s.puts[w];
      t.finals == s.finals
      || (p.stage.Linking? && t.finals == s.finals[AddressOf(p, p.stage.phase) := p.stage.inode]
        && t.contents == s.contents)
  {
    hide Check, IsMediaType;
  }

  lemma AdvanceKeepsLimit(digest: Bytes -> Hash, max: nat, s: Store, w: Writer, unused: Inode, chunk: nat)
    requires Inv(digest, s) && WithinLimit(max, s) && w in s.puts
    ensures WithinLimit(max, Advance(digest, s, w, unused, chunk))
  {
    var p, t := s.puts[w], Advance(digest, s, w, unused, chunk);
    OnlyOwnStage(digest, s, w, unused, chunk);
    OnlyLinksPublish(digest, s, w, unused, chunk);
    AdvanceMoves(digest, s, w, unused, chunk);
    assert Keeps(s, t);
    assert PutSound(digest, s, p);
    hide Advance, Moves;
    forall h ensures BlobFits(max, t, h) {
      assert BlobFits(max, s, h);
      assert Published(digest, s, BlobAt(h));
    }
  }

  lemma StepKeepsLimit(digest: Bytes -> Hash, max: nat, s: Store, event: Event)
    requires Inv(digest, s) && WithinLimit(max, s)
    ensures WithinLimit(max, Step(digest, max, s, event))
  {
    var t := Step(digest, max, s, event);
    if event.Proceed? && event.writer in s.puts {
      hide Inv, Advance, WithinLimit;
      AdvanceKeepsLimit(digest, max, s, event.writer, event.unused, event.chunk);
    } else {
      hide Inv, Advance, IsMediaType;
      forall h ensures BlobFits(max, t, h) { assert BlobFits(max, s, h); }
    }
  }

  /** Whatever happens, no published blob exceeds the limit of the store. */
  lemma {:induction false} PublishedWithinLimit(digest: Bytes -> Hash, max: nat, events: seq<Event>)
    ensures WithinLimit(max, Run(digest, max, EMPTY, events))
  {
    if events != [] {
      var n := |events| - 1;
      PublishedWithinLimit(digest, max, events[..n]);
      EmptyInv(digest);
      RunKeepsInv(digest, max, EMPTY, events[..n]);
      hide Inv, Step, WithinLimit;
      StepKeepsLimit(digest, max, Run(digest, max, EMPTY, events[..n]), events[n]);
    } else {
      forall h ensures BlobFits(max, EMPTY, h) { }
    }
  }

  // ---------------------------------------------------------------- a call that nothing disturbs

  /** How a call ends if nobody interferes: it conflicts exactly with another media type that is pinned already. */
  ghost function Expected(s: Store, hash: Hash, mediaType: Bytes): Result<Unit, BlobError> {
    if MediaAt(hash) in s.finals && s.finals[MediaAt(hash)] in s.contents
        && s.contents[s.finals[MediaAt(hash)]] != mediaType
    then Err(MediaTypeConflict) else Ok(Unit)
  }

  /** A call that was alone so far: its temporary file is still there, and what it was told exists does. */
  ghost predicate Alone(digest: Bytes -> Hash, s: Store, w: Writer, reply: Result<Unit, BlobError>) {
    && Inv(digest, s) && w in s.puts
    && var p := s.puts[w];
    && (Held(p.stage).Some? ==> Held(p.stage).value in s.temps)
    && (p.stage.Reading? || (p.stage.Discarding? && !p.stage.published) ==> AddressOf(p, p.stage.phase) in s.finals)
    && (if p.stage.Done? then p.stage.reply == reply && BlobAt(p.hash) in s.finals
        else Expected(s, p.hash, p.mediaType) == reply)
  }

  /** What a step needs to know of the files, and gives back. */
  lemma FilesAround(digest: Bytes -> Hash, s: Store, w: Writer, unused: Inode, chunk: nat)
    requires Inv(digest, s) && w in s.puts
    ensures var t, p := Advance(digest, s, w, unused, chunk), s.puts[w];
      && Inv(digest, t) && Keeps(s, t) && PutSound(digest, s, p)
      && Published(digest, s, BlobAt(p.hash)) && Published(digest, s, MediaAt(p.hash))
  {
    AdvanceMoves(digest, s, w, unused, chunk);
    MovesKeepsInv(digest, s, Advance(digest, s, w, unused, chunk), w);
    hide Advance;
  }

  lemma LookingAlone(digest: Bytes -> Hash, s: Store, w: Writer, reply: Result<Unit, BlobError>, unused: Inode,
                     chunk: nat)
    requires Alone(digest, s, w, reply)
    requires var stage := s.puts[w].stage; stage.Looking? || stage.Creating? || stage.Rechecking? || stage.Done?
    ensures Alone(digest, Advance(digest, s, w, unused, chunk), w, reply)
  {
    FilesAround(digest, s, w, unused, chunk);
    hide Inv, PutSound, IsMediaType;
  }

  lemma WritingAlone(digest: Bytes -> Hash, s: Store, w: Writer, reply: Result<Unit, BlobError>, unused: Inode,
                     chunk: nat)
    requires Alone(digest, s, w, reply) && s.puts[w].stage.Writing?
    ensures Alone(digest, Advance(digest, s, w, unused, chunk), w, reply)
  {
    FilesAround(digest, s, w, unused, chunk);
    hide Inv, PutSound, IsMediaType;
  }

  lemma LinkingAlone(digest: Bytes -> Hash, s: Store, w: Writer, reply: Result<Unit, BlobError>, unused: Inode,
                     chunk: nat)
    requires Alone(digest, s, w, reply) && s.puts[w].stage.Linking?
    ensures Alone(digest, Advance(digest, s, w, unused, chunk), w, reply)
  {
    FilesAround(digest, s, w, unused, chunk);
    hide Inv, Published, Keeps, IsMediaType;
  }

  lemma DiscardingAlone(digest: Bytes -> Hash, s: Store, w: Writer, reply: Result<Unit, BlobError>, unused: Inode,
                        chunk: nat)
    requires Alone(digest, s, w, reply) && s.puts[w].stage.Discarding?
    ensures Alone(digest, Advance(digest, s, w, unused, chunk), w, reply)
  {
    FilesAround(digest, s, w, unused, chunk);
    hide Inv, Published, Keeps, IsMediaType;
  }

  lemma ReadingAlone(digest: Bytes -> Hash, s: Store, w: Writer, reply: Result<Unit, BlobError>, unused: Inode,
                     chunk: nat)
    requires Alone(digest, s, w, reply) && s.puts[w].stage.Reading?
    ensures Alone(digest, Advance(digest, s, w, unused, chunk), w, reply)
  {
    FilesAround(digest, s, w, unused, chunk);
    hide Inv, Keeps, IsMediaType;
  }

  /** Each of its own steps keeps that, and so the way it will end. */
  lemma OwnStepAlone(digest: Bytes -> Hash, s: Store, w: Writer, reply: Result<Unit, BlobError>, unused: Inode,
                     chunk: nat)
    requires Alone(digest, s, w, reply)
    ensures Alone(digest, Advance(digest, s, w, unused, chunk), w, reply)
  {
    var stage := s.puts[w].stage;
    if stage.Writing? { hide Alone; WritingAlone(digest, s, w, reply, unused, chunk); }
    else if stage.Linking? { hide Alone; LinkingAlone(digest, s, w, reply, unused, chunk); }
    else if stage.Discarding? { hide Alone; DiscardingAlone(digest, s, w, reply, unused, chunk); }
    else if stage.Reading? { hide Alone; ReadingAlone(digest, s, w, reply, unused, chunk); }
    else { hide Alone; LookingAlone(digest, s, w, reply, unused, chunk); }
  }

  // ---------------------------------------------------------------- it ends

  /** How far a call has to go: phase, stage, and bytes still to be written. */
  function PhaseLeft(p: Put): nat {
    if PhaseOf(p.stage).BlobPhase? then 1 else 0
  }

  function StagesLeft(p: Put): nat {
    match p.stage
    case Looking(_) => 7
    case Creating(_) => 6
    case Writing(_, _, _) => 5
    case Rechecking(_) => 4
    case Linking(_, _) => 3
    case Discarding(_, _, _) => 2
    case Reading(_) => 1
    case Done(_) => 0
  }

  function BytesLeft(p: Put): nat {
    if p.stage.Writing? && p.stage.written <= |Payload(p, p.stage.phase)|
    then |Payload(p, p.stage.phase)| - p.stage.written
    else 0
  }

  predicate Nearer(q: Put, p: Put) {
    || PhaseLeft(q) < PhaseLeft(p)
    || (PhaseLeft(q) == PhaseLeft(p) && StagesLeft(q) < StagesLeft(p))
    || (PhaseLeft(q) == PhaseLeft(p) && StagesLeft(q) == StagesLeft(p) && BytesLeft(q) < BytesLeft(p))
  }

  /** With a new inode and some progress on each write, every step brings the call nearer to its end. */
  lemma StepIsNearer(digest: Bytes -> Hash, s: Store, w: Writer, unused: Inode, chunk: nat)
    requires w in s.puts && !s.puts[w].stage.Done? && unused !in s.contents && chunk > 0
    ensures w in Advance(digest, s, w, unused, chunk).puts
        && Nearer(Advance(digest, s, w, unused, chunk).puts[w], s.puts[w])
  {
    hide Check, IsMediaType;
  }

  lemma UnusedExists(used: set<Inode>)
    ensures exists i: Inode :: i !in used && forall j :: j in used ==> j < i
  {
    if used == {} {
      assert 0 !in used;
    } else {
      var j :| j in used;
      UnusedExists(used - {j});
      var i: Inode :| i !in used - {j} && forall k :: k in used - {j} ==> k < i;
      var m: Inode := if i <= j then j + 1 else i;
      forall k | k in used ensures k < m {
        if k != j { assert k in used - {j}; }
      }
      assert m !in used;
    }
  }

  predicate Own(events: seq<Event>, w: Writer) {
    forall i :: 0 <= i < |events| ==> events[i].Proceed? && events[i].writer == w
  }

  lemma {:induction false} RunFromFront(digest: Bytes -> Hash, max: nat, s: Store, x: Event, events: seq<Event>)
    ensures Run(digest, max, s, [x] + events) == Run(digest, max, Step(digest, max, s, x), events)
  {
    hide Step;
    var all := [x] + events;
    if events == [] {
      assert all == [x] && [x][..0] == [];
      assert Run(digest, max, s, []) == s;
    } else {
      var n := |events| - 1;
      RunFromFront(digest, max, s, x, events[..n]);
      assert all[..|all| - 1] == [x] + events[..n];
    }
  }

  /** One of its own steps. */
  lemma OneStep(digest: Bytes -> Hash, max: nat, s: Store, w: Writer, reply: Result<Unit, BlobError>)
    returns (event: Event)
    requires Alone(digest, s, w, reply) && !s.puts[w].stage.Done?
    ensures event.Proceed? && event.writer == w
    ensures var t := Step(digest, max, s, event); Alone(digest, t, w, reply) && Nearer(t.puts[w], s.puts[w])
  {
    UnusedExists(s.contents.Keys);
    var unused: Inode :| unused !in s.contents.Keys;
    hide Alone, Advance, Nearer;
    OwnStepAlone(digest, s, w, reply, unused, 1);
    StepIsNearer(digest, s, w, unused, 1);
    event := Proceed(w, unused, 1);
  }

  /** Left alone, a call ends as expected. */
  lemma {:induction false} EndsAsExpected(digest: Bytes -> Hash, max: nat, s: Store, w: Writer,
                                          reply: Result<Unit, BlobError>,
                                          phases: nat, stages: nat, bytes: nat)
    returns (events: seq<Event>)
    requires Alone(digest, s, w, reply)
    requires phases == PhaseLeft(s.puts[w]) && stages == StagesLeft(s.puts[w]) && bytes == BytesLeft(s.puts[w])
    ensures Own(events, w)
    ensures var t := Run(digest, max, s, events); Alone(digest, t, w, reply) && t.puts[w].stage.Done?
    decreases phases, stages, bytes
  {
    hide Inv, Expected, PhaseLeft, StagesLeft, BytesLeft;
    if s.puts[w].stage.Done? {
      events := [];
    } else {
      var event := OneStep(digest, max, s, w, reply);
      hide Run, Step;
      var t := Step(digest, max, s, event);
      var rest := EndsAsExpected(digest, max, t, w, reply, PhaseLeft(t.puts[w]), StagesLeft(t.puts[w]),
          BytesLeft(t.puts[w]));
      RunFromFront(digest, max, s, event, rest);
      events := [event] + rest;
    }
  }

  lemma {:induction false} OwnRunAlone(digest: Bytes -> Hash, max: nat, s: Store, w: Writer,
                                       reply: Result<Unit, BlobError>,
                                       events: seq<Event>)
    requires Alone(digest, s, w, reply) && Own(events, w)
    ensures Alone(digest, Run(digest, max, s, events), w, reply)
  {
    if events != [] {
      var n := |events| - 1;
      OwnRunAlone(digest, max, s, w, reply, events[..n]);
      var t := Run(digest, max, s, events[..n]);
      assert w in t.puts;
      hide Alone, Advance;
      OwnStepAlone(digest, t, w, reply, events[n].unused, events[n].chunk);
    }
  }

  lemma EntersAlone(digest: Bytes -> Hash, max: nat, s: Store, w: Writer, bytes: Bytes, mediaType: Bytes)
    requires Inv(digest, s) && w !in s.puts && |bytes| <= max && Printable(mediaType)
    ensures Alone(digest, Step(digest, max, s, Enter(w, bytes, mediaType)), w, Expected(s, digest(bytes), mediaType))
  {
    EnterKeepsInv(digest, max, s, w, bytes, mediaType);
    PrintableIsMediaType(mediaType);
    hide Inv, Keeps, IsMediaType, Printable;
  }

  /**
   From every reachable store, a valid put that runs undisturbed comes to an end, and however its own steps are cut it
   can only end one way: well, if its media address is free or holds the same type, and in a conflict otherwise. Its
   blob is then published under its digest.
   */
  lemma UndisturbedPutEnds(digest: Bytes -> Hash, max: nat, history: seq<Event>, w: Writer, bytes: Bytes,
                           mediaType: Bytes)
    requires w !in Run(digest, max, EMPTY, history).puts && |bytes| <= max && Printable(mediaType)
    ensures var s := Run(digest, max, EMPTY, history);
      var begun, reply := Step(digest, max, s, Enter(w, bytes, mediaType)), Expected(s, digest(bytes), mediaType);
      && (exists events :: Own(events, w) && EndsWith(Run(digest, max, begun, events), w, reply))
      && (forall events :: Own(events, w) ==> MayEndWith(digest, Run(digest, max, begun, events), w, bytes, reply))
  {
    var s := Run(digest, max, EMPTY, history);
    EmptyInv(digest);
    RunKeepsInv(digest, max, EMPTY, history);
    var begun, reply := Step(digest, max, s, Enter(w, bytes, mediaType)), Expected(s, digest(bytes), mediaType);
    RefusedExactlyWhen(digest, max, s, w, bytes, mediaType);
    hide Inv, Printable, Expected;
    EntersAlone(digest, max, s, w, bytes, mediaType);
    hide Step;
    var p := begun.puts[w];
    var events := EndsAsExpected(digest, max, begun, w, reply, PhaseLeft(p), StagesLeft(p), BytesLeft(p));
    assert EndsWith(Run(digest, max, begun, events), w, reply);
    forall events | Own(events, w) ensures MayEndWith(digest, Run(digest, max, begun, events), w, bytes, reply) {
      OwnRunAlone(digest, max, begun, w, reply, events);
      OwnRunKeepsPut(digest, max, begun, w, events);
      AloneMayEnd(digest, Run(digest, max, begun, events), w, bytes, reply);
    }
  }

  ghost predicate EndsWith(t: Store, w: Writer, reply: Result<Unit, BlobError>) {
    w in t.puts && t.puts[w].stage == Done(reply)
  }

  /** If the call is over it ended with this reply, and its blob is published with its digest. */
  ghost predicate MayEndWith(digest: Bytes -> Hash, t: Store, w: Writer, bytes: Bytes, reply: Result<Unit, BlobError>) {
    && w in t.puts
    && (t.puts[w].stage.Done? ==>
          && t.puts[w].stage.reply == reply && BlobAt(digest(bytes)) in t.finals
          && t.finals[BlobAt(digest(bytes))] in t.contents
          && digest(t.contents[t.finals[BlobAt(digest(bytes))]]) == digest(bytes))
  }

  lemma {:induction false} OwnRunKeepsPut(digest: Bytes -> Hash, max: nat, s: Store, w: Writer, events: seq<Event>)
    requires w in s.puts && Own(events, w)
    ensures var t := Run(digest, max, s, events); w in t.puts && t.puts[w].hash == s.puts[w].hash
  {
    if events != [] {
      var n := |events| - 1;
      OwnRunKeepsPut(digest, max, s, w, events[..n]);
      OnlyOwnStage(digest, Run(digest, max, s, events[..n]), w, events[n].unused, events[n].chunk);
      hide Advance;
    }
  }

  lemma AloneMayEnd(digest: Bytes -> Hash, t: Store, w: Writer, bytes: Bytes, reply: Result<Unit, BlobError>)
    requires Alone(digest, t, w, reply) && t.puts[w].hash == digest(bytes)
    ensures MayEndWith(digest, t, w, bytes, reply)
  {
    assert Published(digest, t, BlobAt(digest(bytes)));
    hide Expected, IsMediaType;
  }

  // ---------------------------------------------------------------- what a reply says

  /** What the reply of a finished call says about it and about the store, then and ever after. */
  ghost predicate Warranted(max: nat, s: Store, p: Put, reply: Result<Unit, BlobError>) {
    if |p.bytes| > max then reply == Err(SizeLimitExceeded)
    else if !Printable(p.mediaType) then reply == Err(InvalidMediaType)
    else match reply
      case Ok(_) => PinnedTo(s, p)
      case Err(MediaTypeConflict) => PinnedToOther(s, p)
      case Err(e) => e == Io
  }

  ghost predicate PinnedToOther(s: Store, p: Put) {
    && BlobAt(p.hash) in s.finals && MediaAt(p.hash) in s.finals
    && s.finals[MediaAt(p.hash)] in s.contents && s.contents[s.finals[MediaAt(p.hash)]] != p.mediaType
  }

  ghost predicate Informed(max: nat, s: Store, p: Put) {
    && (p.stage.Reading? || (p.stage.Discarding? && !p.stage.published) ==> AddressOf(p, p.stage.phase) in s.finals)
    && (if p.stage.Done? then Warranted(max, s, p, p.stage.reply) else |p.bytes| <= max && Printable(p.mediaType))
  }

  lemma StaysInformed(max: nat, s: Store, t: Store, p: Put)
    requires Informed(max, s, p) && Keeps(s, t)
    ensures Informed(max, t, p)
  {
    hide Printable;
  }

  /** Reading what somebody else published finds it, and finds it intact: only the media type can differ. */
  lemma ReadingInforms(digest: Bytes -> Hash, max: nat, s: Store, w: Writer, unused: Inode, chunk: nat)
    requires Inv(digest, s) && w in s.puts && Informed(max, s, s.puts[w]) && s.puts[w].stage.Reading?
    ensures Informed(max, Advance(digest, s, w, unused, chunk), Advance(digest, s, w, unused, chunk).puts[w])
  {
    var p := s.puts[w];
    assert PutSound(digest, s, p);
    assert Published(digest, s, AddressOf(p, p.stage.phase));
    hide Inv, IsMediaType, Printable;
  }

  /** A step other than reading ends a call only well or by a failing file operation. */
  lemma OtherStepsEnd(digest: Bytes -> Hash, s: Store, w: Writer, unused: Inode, chunk: nat)
    requires w in s.puts && !s.puts[w].stage.Reading? && !s.puts[w].stage.Done?
    ensures var t := Advance(digest, s, w, unused, chunk);
      && w in t.puts
      && var p := t.puts[w];
      && (p.stage.Done? ==> p.stage.reply == Ok(Unit) || p.stage.reply == Err(Io))
      && (p.stage.Reading? ==> AddressOf(p, p.stage.phase) in s.finals || s.puts[w].stage.Discarding?)
      && (p.stage.Reading? && s.puts[w].stage.Discarding? ==>
            !s.puts[w].stage.published && p.stage.phase == s.puts[w].stage.phase)
      && (p.stage.Discarding? && !p.stage.published ==> AddressOf(p, p.stage.phase) in s.finals)
  {
    hide Check;
  }

  lemma AdvanceInforms(digest: Bytes -> Hash, max: nat, s: Store, w: Writer, unused: Inode, chunk: nat)
    requires Inv(digest, s) && w in s.puts && Informed(max, s, s.puts[w])
    ensures var t := Advance(digest, s, w, unused, chunk); w in t.puts && Informed(max, t, t.puts[w])
  {
    OnlyOwnStage(digest, s, w, unused, chunk);
    if s.puts[w].stage.Reading? {
      hide Inv, Informed, Advance;
      ReadingInforms(digest, max, s, w, unused, chunk);
    } else if !s.puts[w].stage.Done? {
      AdvanceMoves(digest, s, w, unused, chunk);
      OtherStepsEnd(digest, s, w, unused, chunk);
      hide Advance, Inv, IsMediaType, Printable;
      var t := Advance(digest, s, w, unused, chunk);
      assert PutSound(digest, t, t.puts[w]) && Keeps(s, t);
      hide Moves;
    }
  }

  ghost predicate AllInformed(max: nat, s: Store) {
    forall w :: w in s.puts ==> Informed(max, s, s.puts[w])
  }

  lemma StepInforms(digest: Bytes -> Hash, max: nat, s: Store, event: Event)
    requires Inv(digest, s) && AllInformed(max, s)
    ensures AllInformed(max, Step(digest, max, s, event))
  {
    var t := Step(digest, max, s, event);
    StepKeepsInv(digest, max, s, event);
    hide Inv, Keeps, Informed;
    forall v | v in t.puts ensures Informed(max, t, t.puts[v]) {
      if event.Enter? && v !in s.puts {
        RefusedExactlyWhen(digest, max, s, v, event.bytes, event.mediaType);
        EnteredIsInformed(max, t, t.puts[v]);
      } else if event.Proceed? && event.writer in s.puts {
        hide Step;
        OnlyOwnStage(digest, s, event.writer, event.unused, event.chunk);
        if v == event.writer { AdvanceInforms(digest, max, s, v, event.unused, event.chunk); }
        else { StaysInformed(max, s, t, s.puts[v]); }
      } else if event.Stop? && v == event.writer && !s.puts[v].stage.Done? {
        StoppedIsInformed(max, s, s.puts[v], t);
      } else {
        StaysInformed(max, s, t, s.puts[v]);
      }
    }
  }

  lemma EnteredIsInformed(max: nat, t: Store, p: Put)
    requires if |p.bytes| > max then p.stage == Done(Err(SizeLimitExceeded))
             else if !Printable(p.mediaType) then p.stage == Done(Err(InvalidMediaType))
             else p.stage == Looking(BlobPhase)
    ensures Informed(max, t, p)
  {
    hide Printable;
  }

  lemma StoppedIsInformed(max: nat, s: Store, p: Put, t: Store)
    requires Informed(max, s, p) && !p.stage.Done?
    ensures Informed(max, t, p.(stage := Done(Err(Io))))
  {
    hide Printable;
  }

  /**
   Whatever writers, crashes and cleanups do, every reply is warranted: a call is refused as too large or for its media
   type exactly when it is, a success has its type pinned, a conflict another one, and nothing is ever found missing or
   corrupt.
   */
  lemma {:induction false} RepliesAreWarranted(digest: Bytes -> Hash, max: nat, events: seq<Event>)
    ensures AllInformed(max, Run(digest, max, EMPTY, events))
  {
    if events != [] {
      var n := |events| - 1;
      RepliesAreWarranted(digest, max, events[..n]);
      EmptyInv(digest);
      RunKeepsInv(digest, max, EMPTY, events[..n]);
      hide Inv, Step, AllInformed;
      StepInforms(digest, max, Run(digest, max, EMPTY, events[..n]), events[n]);
    }
  }
}
