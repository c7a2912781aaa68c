/**
 The content-addressed blob store (crates/epoch-blob) under racing writers. Files are inodes with names, so a hard
 link shares contents with the temporary file it was made from; a write may stop after any prefix.
 */
module BlobProtocol {
  import opened Wrappers

  type Hash = string
  type Bytes = seq<bv8>
  type Inode = nat
  type Writer = nat

  const MAX_MEDIA_TYPE_BYTES: nat := 255

  /** `validate_media_type`: nonempty printable ASCII of bounded length. */
  predicate IsMediaType(b: Bytes) {
    0 < |b| <= MAX_MEDIA_TYPE_BYTES && forall i :: 0 <= i < |b| ==> 32 <= (b[i] as int) < 127
  }

  /** A final path: the blob itself, or the file that pins its media type. */
  datatype Address = BlobAt(hash: Hash) | MediaAt(hash: Hash)

  datatype Phase = BlobPhase | MediaPhase

  datatype BlobError = SizeLimitExceeded | InvalidMediaType | HashMismatch | NotFound | MediaTypeConflict
    | CorruptMediaType | Io

  /** Where a `put` is. */
  datatype Stage =
    | Looking(phase: Phase)                             // about to test whether the final path exists
    | Creating(phase: Phase)
    | Writing(phase: Phase, inode: Inode, written: nat) // a prefix has reached the temporary file
    | Rechecking(inode: Inode)                          // blobs look again before publishing
    | Linking(phase: Phase, inode: Inode)
    | Discarding(phase: Phase, inode: Inode, published: bool)
    | Reading(phase: Phase)                             // somebody else published first
    | Done(reply: Result<Unit, BlobError>)

  datatype Put = Put(bytes: Bytes, mediaType: Bytes, hash: Hash, stage: Stage)

  /** All inodes ever written, the names in the temporary directory, the final paths, and the calls of `put`. */
  datatype Store = Store(contents: map<Inode, Bytes>, temps: set<Inode>, finals: map<Address, Inode>,
                         puts: map<Writer, Put>)

  function AddressOf(p: Put, phase: Phase): Address {
    if phase.BlobPhase? then BlobAt(p.hash) else MediaAt(p.hash)
  }

  function Payload(p: Put, phase: Phase): Bytes {
    if phase.BlobPhase? then p.bytes else p.mediaType
  }

  function At(s: Store, w: Writer, stage: Stage): Store
    requires w in s.puts
  {
    s.(puts := s.puts[w := s.puts[w].(stage := stage)])
  }

  /** `read` and `read_media_type` followed by `compare_media_type`. */
  function Check(digest: Bytes -> Hash, p: Put, phase: Phase, stored: Bytes): Result<Unit, BlobError> {
    if phase.BlobPhase? then
      if digest(stored) == p.hash then Ok(Unit) else Err(HashMismatch)
    else if !IsMediaType(stored) then Err(CorruptMediaType)
    else if stored == p.mediaType then Ok(Unit)
    else Err(MediaTypeConflict)
  }

  /** After the blob is in place its media type is pinned; then the call is over. */
  function NextAfter(phase: Phase): Stage {
    if phase.BlobPhase? then Looking(MediaPhase) else Done(Ok(Unit))
  }

  /** One file-system step of a `put`: `unused` is a new inode, `chunk` how much of a write gets through. */
  function Advance(digest: Bytes -> Hash, s: Store, w: Writer, unused: Inode, chunk: nat): Store
    requires w in s.puts
  {
    var p := s.puts[w];
    match p.stage
    case Looking(phase) => At(s, w, if AddressOf(p, phase) in s.finals then Reading(phase) else Creating(phase))
    case Creating(phase) =>
      if unused in s.contents then s
      else At(s.(contents := s.contents[unused := []], temps := s.temps + {unused}), w, Writing(phase, unused, 0))
    case Writing(phase, i, n) =>
      var payload := Payload(p, phase);
      if n >= |payload| then At(s, w, if phase.BlobPhase? then Rechecking(i) else Linking(phase, i))
      else
        var m := if n + chunk <= |payload| then n + chunk else |payload|;
        At(s.(contents := s.contents[i := payload[..m]]), w, Writing(phase, i, m))
    case Rechecking(i) =>
      At(s, w, if BlobAt(p.hash) in s.finals then Discarding(BlobPhase, i, false) else Linking(BlobPhase, i))
    case Linking(phase, i) =>
      if AddressOf(p, phase) in s.finals then At(s, w, Discarding(phase, i, false))
      else if i !in s.temps then At(s, w, Done(Err(Io)))
      else At(s.(finals := s.finals[AddressOf(p, phase) := i]), w, Discarding(phase, i, true))
    case Discarding(phase, i, published) =>
      if i !in s.temps then At(s, w, Done(Err(Io)))
      else At(s.(temps := s.temps - {i}), w, if published then NextAfter(phase) else Reading(phase))
    case Reading(phase) =>
      var a := AddressOf(p, phase);
      if a !in s.finals || s.finals[a] !in s.contents then At(s, w, Done(Err(NotFound)))
      else
        var r := Check(digest, p, phase, s.contents[s.finals[a]]);
        At(s, w, if r.Ok? then NextAfter(phase) else Done(r))
    case Done(_) => s
  }

  datatype Event =
    | Enter(writer: Writer, bytes: Bytes, mediaType: Bytes)
    | Proceed(writer: Writer, unused: Inode, chunk: nat)
    | Stop(writer: Writer)      // a crash, or a failing system call
    | Clean(inode: Inode)       // `cleanup_stale_temporary_files`, or the drop of a temporary file

  function Step(digest: Bytes -> Hash, max: nat, s: Store, event: Event): Store {
    match event
    case Enter(w, bytes, mediaType) =>
      if w in s.puts then s
      else
        var stage := if |bytes| > max then Done(Err(SizeLimitExceeded))
                     else if !IsMediaType(mediaType) then Done(Err(InvalidMediaType))
                     else Looking(BlobPhase);
        s.(puts := s.puts[w := Put(bytes, mediaType, digest(bytes), stage)])
    case Proceed(w, unused, chunk) => if w in s.puts then Advance(digest, s, w, unused, chunk) else s
    case Stop(w) => if w in s.puts && !s.puts[w].stage.Done? then At(s, w, Done(Err(Io))) else s
    case Clean(i) => s.(temps := s.temps - {i})
  }

  function Run(digest: Bytes -> Hash, max: nat, s: Store, events: seq<Event>): Store {
    if events == [] then s else Step(digest, max, Run(digest, max, s, events[..|events| - 1]), events[|events| - 1])
  }

  const EMPTY: Store := Store(map[], {}, map[], map[])
}
