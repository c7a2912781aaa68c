/** Capturing application contexts into the blob store and restoring them (crates/epoch-checkpoint). */
module Checkpoints {
  import opened Wrappers
  import opened Contexts

  type Bytes = seq<bv8>

  /** The store at rest: blobs by address, their pinned media types, and the size limit. */
  datatype Blobs = Blobs(bytes: map<Hash, Bytes>, mediaTypes: map<Hash, string>, max: nat)

  /** SHA-256, and the JSON writer and readers of contexts. `probe` reads the schema version alone. */
  datatype Codec = Codec(digest: Bytes -> Hash, encode: Context -> Bytes, decode: Bytes -> Option<Context>,
                         probe: Bytes -> Option<nat>)

  /** The readers undo the writer. */
  ghost predicate Undoes(codec: Codec) {
    forall c :: codec.decode(codec.encode(c)) == Some(c) && codec.probe(codec.encode(c)) == Some(c.schemaVersion)
  }

  function ContextMediaType(): string {
    "application/vnd.epoch.application-context+json;version=1"
  }

  datatype FailureCode = InvalidContext | MissingReference | StorageFailure | Integrity | Decode | NonCanonical
    | MetadataMismatch
  datatype Stage = Capturing | Loading
  datatype Outcome<+T> = Supported(value: T) | UnsupportedSchema(found: nat) | Failed(stage: Stage, code: FailureCode)

  datatype Metadata = Metadata(safePointId: string, revision: nat, boundarySequence: nat)
  datatype Checkpoint = Checkpoint(hash: Hash, length: nat, schemaVersion: nat, metadata: Metadata)

  // ---------------------------------------------------------------- the blob store

  datatype ReadError = Absent | TooLarge | Corrupt

  /** `BlobStore::read` */
  function Read(codec: Codec, s: Blobs, h: Hash): Result<Bytes, ReadError> {
    if h !in s.bytes then Err(Absent)
    else if |s.bytes[h]| > s.max then Err(TooLarge)
    else if codec.digest(s.bytes[h]) != h then Err(Corrupt)
    else Ok(s.bytes[h])
  }

  /** `BlobStore::put`, undisturbed: an existing blob is verified and kept, and the media type stays as first pinned. */
  function PutBlob(codec: Codec, s: Blobs, b: Bytes, mediaType: string): Option<Blobs> {
    var h := codec.digest(b);
    if |b| > s.max then None
    else if h in s.bytes && Read(codec, s, h).Err? then None
    else if h in s.mediaTypes && s.mediaTypes[h] != mediaType then None
    else Some(s.(bytes := if h in s.bytes then s.bytes
      else s.bytes[h := b], mediaTypes := s.mediaTypes[h := mediaType]))
  }

  /** `validate_references`: the failure of the first reference that cannot be read. */
  function CheckReferences(codec: Codec, s: Blobs, refs: seq<Hash>): (r: Option<FailureCode>)
    ensures r.None? <==> forall h :: h in refs ==> Read(codec, s, h).Ok?
  {
    if refs == [] then None
    else
      match Read(codec, s, refs[0])
      case Ok(_) => CheckReferences(codec, s, refs[1..])
      case Err(Absent) => Some(MissingReference)
      case Err(Corrupt) => Some(Integrity)
      case Err(TooLarge) => Some(StorageFailure)
  }

  /** The loop of `validate_references`. */
  method ValidateReferences(codec: Codec, s: Blobs, c: Context) returns (r: Option<FailureCode>)
    ensures r == CheckReferences(codec, s, References(c))
    ensures r.None? <==> forall h :: h in References(c) ==> Read(codec, s, h).Ok?
  {
    hide References, Read;
    var refs, i := References(c), 0;
    while i < |refs|
      invariant 0 <= i <= |refs|
      invariant CheckReferences(codec, s, refs) == CheckReferences(codec, s, refs[i..])
    {
      var read := Read(codec, s, refs[i]);
      assert refs[i..][0] == refs[i] && refs[i..][1..] == refs[i + 1..];
      if read.Err? {
        match read.error {
          case Absent => return Some(MissingReference);
          case Corrupt => return Some(Integrity);
          case TooLarge => return Some(StorageFailure);
        }
      }
      i := i + 1;
    }
    return None;
  }

  // ---------------------------------------------------------------- capture and restore

  function MetadataOf(c: Context): Metadata {
    Metadata(c.safePointId, c.revision, c.cursors.boundarySequence)
  }

  /** The checkpoint record of a context. */
  function RecordOf(codec: Codec, c: Context): Checkpoint {
    Checkpoint(codec.digest(codec.encode(c)), |codec.encode(c)|, c.schemaVersion, MetadataOf(c))
  }

  /** `capture` */
  function Capture(codec: Codec, s: Blobs, c: Context): Outcome<(Blobs, Checkpoint)> {
    if c.schemaVersion != APPLICATION_CONTEXT_SCHEMA_VERSION then UnsupportedSchema(c.schemaVersion)
    else if !WellShaped(c) then Failed(Capturing, InvalidContext)
    else
      var refs := CheckReferences(codec, s, References(c));
      if refs.Some? then Failed(Capturing, refs.value)
      else
        var stored := PutBlob(codec, s, codec.encode(c), ContextMediaType());
        if stored.None? then Failed(Capturing, StorageFailure)
        else Supported((stored.value,
          Checkpoint(codec.digest(codec.encode(c)), |codec.encode(c)|, c.schemaVersion, MetadataOf(c))))
  }

  /** `restore` after the bytes were read and found to have the recorded length. */
  function Load(codec: Codec, s: Blobs, b: Bytes, metadata: Metadata): Outcome<Context> {
    var version := codec.probe(b);
    if version.None? then Failed(Loading, Decode)
    else if version.value != APPLICATION_CONTEXT_SCHEMA_VERSION then UnsupportedSchema(version.value)
    else
      var decoded := codec.decode(b);
      if decoded.None? then Failed(Loading, Decode)
      else
        var c := decoded.value;
        if !WellShaped(c) then Failed(Loading, InvalidContext)
        else
          var refs := CheckReferences(codec, s, References(c));
          if refs.Some? then Failed(Loading, refs.value)
          else if codec.encode(c) != b then Failed(Loading, NonCanonical)
          else if MetadataOf(c) != metadata then Failed(Loading, MetadataMismatch)
          else Supported(c)
  }

  /** `restore` */
  function Restore(codec: Codec, s: Blobs, k: Checkpoint): Outcome<Context> {
    if k.schemaVersion != APPLICATION_CONTEXT_SCHEMA_VERSION then UnsupportedSchema(k.schemaVersion)
    else
      match Read(codec, s, k.hash)
      case Err(Corrupt) => Failed(Loading, Integrity)
      case Err(_) => Failed(Loading, StorageFailure)
      case Ok(b) => if |b| != k.length then Failed(Loading, Integrity) else Load(codec, s, b, k.metadata)
  }

  // ---------------------------------------------------------------- they undo each other

  /** The store still holds the context's own encoding and everything it refers to. */
  ghost predicate StillHolds(codec: Codec, s: Blobs, c: Context) {
    && Read(codec, s, codec.digest(codec.encode(c))) == Ok(codec.encode(c))
    && forall h :: h in References(c) ==> Read(codec, s, h).Ok?
  }

  /**
   A captured context is restored, at any later time, exactly when the store still holds its encoding at the address
   and its references. No collision resistance is assumed: bytes of another document with the same digest are not
   mistaken for it.
   */
  lemma CapturedIsRestored(codec: Codec, s: Blobs, c: Context, later: Blobs)
    requires Undoes(codec) && Capture(codec, s, c).Supported?
    ensures Restore(codec, later, Capture(codec, s, c).value.1) == Supported(c) <==> StillHolds(codec, later, c)
  {
    var k := Capture(codec, s, c).value.1;
    hide WellShaped, References, PutBlob;
    assert codec.decode(codec.encode(c)) == Some(c);
  }

  /** Right after a capture the context can be restored, unless the address already held other bytes. */
  lemma CaptureThenRestore(codec: Codec, s: Blobs, c: Context)
    requires Undoes(codec) && Capture(codec, s, c).Supported?
    ensures var (t, k) := Capture(codec, s, c).value;
      Restore(codec, t, k) == Supported(c) <==> (k.hash in s.bytes ==> s.bytes[k.hash] == codec.encode(c))
  {
    var (t, k) := Capture(codec, s, c).value;
    CapturedIsRestored(codec, s, c, t);
    hide Capture, Restore, References;
    CaptureStores(codec, s, c);
  }

  lemma CaptureStores(codec: Codec, s: Blobs, c: Context)
    requires Capture(codec, s, c).Supported?
    ensures var (t, k) := Capture(codec, s, c).value;
      && k == RecordOf(codec, c)
      && (forall h :: h in References(c) ==> Read(codec, t, h).Ok?)
      && Read(codec, t, k.hash) == (if k.hash in s.bytes then Ok(s.bytes[k.hash]) else Ok(codec.encode(c)))
  {
    hide WellShaped, References;
  }

  /** Whatever restores to a context is what capturing that context yields. */
  lemma RestoredIsCaptured(codec: Codec, s: Blobs, k: Checkpoint, c: Context, later: Blobs)
    requires Restore(codec, s, k) == Supported(c)
    requires Capture(codec, later, c).Supported?
    ensures Capture(codec, later, c).value.1 == k
  {
    hide WellShaped, References, PutBlob;
  }

  lemma RestoredIsValid(codec: Codec, s: Blobs, k: Checkpoint)
    requires Undoes(codec) && Restore(codec, s, k).Supported?
    ensures var c := Restore(codec, s, k).value;
      && WellShaped(c) && c.schemaVersion == APPLICATION_CONTEXT_SCHEMA_VERSION
      && k == RecordOf(codec, c) && StillHolds(codec, s, c)
  {
    hide WellShaped, References;
    var c := Restore(codec, s, k).value;
    assert codec.probe(codec.encode(c)) == Some(c.schemaVersion);
  }

  /**
   A restored context can be captured again, into the same store, exactly when its address is not pinned to another
   media type: restoring never reads the pinned type.
   */
  lemma RecaptureExactlyWhen(codec: Codec, s: Blobs, k: Checkpoint)
    requires Undoes(codec) && Restore(codec, s, k).Supported?
    ensures Capture(codec, s, Restore(codec, s, k).value).Supported?
      <==> (k.hash in s.mediaTypes ==> s.mediaTypes[k.hash] == ContextMediaType())
  {
    RestoredIsValid(codec, s, k);
    hide WellShaped, References, Restore, ContextMediaType;
  }

  // ---------------------------------------------------------------- the two calls in terms of the store

  /** A blob that can be read: present, within the limit, and intact. */
  ghost predicate Readable(codec: Codec, s: Blobs, h: Hash) {
    h in s.bytes && |s.bytes[h]| <= s.max && codec.digest(s.bytes[h]) == h
  }

  /**
   A context is captured exactly when its schema, shape and references hold and its encoding can be stored as a
   context. The record then says its digest, length, safe point, revision and boundary, and the store holds one blob
   more at most.
   */
  lemma CapturedExactlyWhen(codec: Codec, s: Blobs, c: Context)
    ensures var r, b := Capture(codec, s, c), codec.encode(c);
      var h, mediaType := codec.digest(b), "application/vnd.epoch.application-context+json;version=1";
      && (r.Supported? <==>
            && c.schemaVersion == 1 && WellShaped(c) && (forall x :: x in References(c) ==> Readable(codec, s, x))
            && |b| <= s.max && (h in s.bytes ==> Readable(codec, s, h))
            && (h in s.mediaTypes ==> s.mediaTypes[h] == mediaType))
      && (r.Supported? ==> var (t, k) := r.value;
            && k.hash == h && k.length == |b| && k.schemaVersion == 1
            && k.metadata.safePointId == c.safePointId && k.metadata.revision == c.revision
            && k.metadata.boundarySequence == c.cursors.boundarySequence
            && t.bytes == (if h in s.bytes then s.bytes else s.bytes[h := b])
            && t.mediaTypes == s.mediaTypes[h := mediaType]
            && t.max == s.max)
      && (r.UnsupportedSchema? <==> c.schemaVersion != 1)
      && (r == Failed(Capturing, InvalidContext) <==> c.schemaVersion == 1 && !WellShaped(c))
  {
    forall x ensures Read(codec, s, x).Ok? <==> Readable(codec, s, x) { }
    CodesOfReferences(codec, s, References(c));
    hide WellShaped, References, CheckReferences;
  }

  lemma {:induction false} CodesOfReferences(codec: Codec, s: Blobs, refs: seq<Hash>)
    ensures var r := CheckReferences(codec, s, refs); r.Some? ==>
        r.value in {MissingReference, Integrity, StorageFailure}
  {
    if refs != [] { CodesOfReferences(codec, s, refs[1..]); }
  }

  /**
   A record is restored to a context exactly when the blob at its hash can be read, has the recorded length, is the
   canonical encoding of that context, and the context is well shaped, has its references and agrees with the record.
   */
  lemma RestoredExactlyWhen(codec: Codec, s: Blobs, k: Checkpoint, c: Context)
    ensures Restore(codec, s, k) == Supported(c) <==>
      && k.schemaVersion == 1 && Readable(codec, s, k.hash)
      && var b := s.bytes[k.hash];
      && |b| == k.length && codec.probe(b) == Some(1) && codec.decode(b) == Some(c) && codec.encode(c) == b
      && WellShaped(c) && (forall x :: x in References(c) ==> Readable(codec, s, x))
      && k.metadata.safePointId == c.safePointId && k.metadata.revision == c.revision
      && k.metadata.boundarySequence == c.cursors.boundarySequence
  {
    forall x ensures Read(codec, s, x).Ok? <==> Readable(codec, s, x) { }
    hide WellShaped, References, CheckReferences;
  }

  // ---------------------------------------------------------------- why a capture or a restore fails

  /** Why a blob cannot be read, as a capture or restore reports it for a reference. */
  ghost predicate UnreadableAs(codec: Codec, s: Blobs, h: Hash, code: FailureCode) {
    match code
    case MissingReference => h !in s.bytes
    case StorageFailure => h in s.bytes && |s.bytes[h]| > s.max
    case Integrity => h in s.bytes && |s.bytes[h]| <= s.max && codec.digest(s.bytes[h]) != h
    case _ => false
  }

  ghost predicate FirstUnreadable(codec: Codec, s: Blobs, refs: seq<Hash>, i: int) {
    0 <= i < |refs| && !Readable(codec, s, refs[i]) && forall j :: 0 <= j < i ==> Readable(codec, s, refs[j])
  }

  /** The references fail for the reason of the first one that cannot be read. */
  ghost predicate ReferencesFailAs(codec: Codec, s: Blobs, refs: seq<Hash>, code: FailureCode) {
    exists i :: FirstUnreadable(codec, s, refs, i) && UnreadableAs(codec, s, refs[i], code)
  }

  lemma {:induction false} ReferencesTellWhy(codec: Codec, s: Blobs, refs: seq<Hash>, code: FailureCode)
    ensures CheckReferences(codec, s, refs) == Some(code) <==> ReferencesFailAs(codec, s, refs, code)
  {
    if refs != [] {
      var rest := refs[1..];
      ReferencesTellWhy(codec, s, rest, code);
      if !Readable(codec, s, refs[0]) {
        assert FirstUnreadable(codec, s, refs, 0);
      } else {
        hide Read, UnreadableAs;
        if i :| FirstUnreadable(codec, s, refs, i) && UnreadableAs(codec, s, refs[i], code) {
          assert FirstUnreadable(codec, s, rest, i - 1) && rest[i - 1] == refs[i];
        }
        if i :| FirstUnreadable(codec, s, rest, i) && UnreadableAs(codec, s, rest[i], code) {
          assert FirstUnreadable(codec, s, refs, i + 1) && rest[i] == refs[i + 1];
        }
        assert Read(codec, s, refs[0]).Ok? by { ReadMeans(codec, s, refs[0]); }
      }
    }
  }

  lemma ReadMeans(codec: Codec, s: Blobs, h: Hash)
    ensures Read(codec, s, h).Ok? <==> Readable(codec, s, h)
    ensures Read(codec, s, h).Ok? ==> Read(codec, s, h).value == s.bytes[h]
    ensures Read(codec, s, h) == Err(Corrupt) <==> UnreadableAs(codec, s, h, Integrity)
  {
  }

  /** Every failing capture says why. */
  lemma CaptureTellsWhy(codec: Codec, s: Blobs, c: Context, stage: Stage, code: FailureCode)
    ensures var refs, b := References(c), codec.encode(c);
      Capture(codec, s, c) == Failed(stage, code) <==>
        && stage == Capturing && c.schemaVersion == 1
        && if !WellShaped(c) then code == InvalidContext
           else if exists h :: h in refs && !Readable(codec, s, h) then ReferencesFailAs(codec, s, refs, code)
           else code == StorageFailure && !Storable(codec, s, b)
  {
    ReferencesTellWhy(codec, s, References(c), code);
    ReferencesHoldWhen(codec, s, References(c));
    StorableMeans(codec, s, codec.encode(c));
    hide WellShaped, References, PutBlob, ReferencesFailAs, CheckReferences, Storable, Readable;
  }

  /** Bytes that can be stored as a context. */
  ghost predicate Storable(codec: Codec, s: Blobs, b: Bytes) {
    var h := codec.digest(b);
    && |b| <= s.max && (h in s.bytes ==> Readable(codec, s, h))
    && (h in s.mediaTypes ==> s.mediaTypes[h] == "application/vnd.epoch.application-context+json;version=1")
  }

  lemma StorableMeans(codec: Codec, s: Blobs, b: Bytes)
    ensures PutBlob(codec, s, b, ContextMediaType()).Some? <==> Storable(codec, s, b)
  {
    ReadMeans(codec, s, codec.digest(b));
    hide Read;
  }

  /** The blob of a record was read and has the recorded length. */
  ghost predicate Fetched(codec: Codec, s: Blobs, k: Checkpoint) {
    k.schemaVersion == 1 && Readable(codec, s, k.hash) && |s.bytes[k.hash]| == k.length
  }

  /** Why a decoded context is not accepted for the bytes and the metadata of its record. */
  ghost predicate ContextFailsAs(codec: Codec, s: Blobs, b: Bytes, c: Context, metadata: Metadata, code: FailureCode) {
    if !WellShaped(c) then code == InvalidContext
    else if exists h :: h in References(c) && !Readable(codec, s, h) then
      ReferencesFailAs(codec, s, References(c), code)
    else if codec.encode(c) != b then code == NonCanonical
    else
      && code == MetadataMismatch
      && !(metadata.safePointId == c.safePointId && metadata.revision == c.revision
           && metadata.boundarySequence == c.cursors.boundarySequence)
  }

  /** Why the bytes of a record are not a context that agrees with it. */
  ghost predicate LoadFailsAs(codec: Codec, s: Blobs, b: Bytes, metadata: Metadata, code: FailureCode) {
    var version, decoded := codec.probe(b), codec.decode(b);
    if version.None? || (version == Some(1) && decoded.None?) then code == Decode
    else version == Some(1) && ContextFailsAs(codec, s, b, decoded.value, metadata, code)
  }

  lemma ReferencesHoldWhen(codec: Codec, s: Blobs, refs: seq<Hash>)
    ensures CheckReferences(codec, s, refs).Some? <==> exists h :: h in refs && !Readable(codec, s, h)
  {
    forall h ensures Read(codec, s, h).Ok? <==> Readable(codec, s, h) { ReadMeans(codec, s, h); }
    hide Read, Readable;
  }

  lemma LoadTellsWhy(codec: Codec, s: Blobs, b: Bytes, metadata: Metadata, stage: Stage, code: FailureCode)
    ensures Load(codec, s, b, metadata) == Failed(stage, code) <==>
      stage == Loading && LoadFailsAs(codec, s, b, metadata, code)
  {
    if codec.decode(b).Some? {
      var refs := References(codec.decode(b).value);
      ReferencesTellWhy(codec, s, refs, code);
      ReferencesHoldWhen(codec, s, refs);
    }
    hide WellShaped, References, ReferencesFailAs, CheckReferences, Readable;
  }

  /** Every failing restore says why. */
  lemma RestoreTellsWhy(codec: Codec, s: Blobs, k: Checkpoint, stage: Stage, code: FailureCode)
    ensures Restore(codec, s, k) == Failed(stage, code) <==>
      && stage == Loading && k.schemaVersion == 1
      && if Fetched(codec, s, k) then LoadFailsAs(codec, s, s.bytes[k.hash], k.metadata, code)
         else if k.hash in s.bytes && |s.bytes[k.hash]| <= s.max then code == Integrity
         else code == StorageFailure
  {
    ReadMeans(codec, s, k.hash);
    if Fetched(codec, s, k) { LoadTellsWhy(codec, s, s.bytes[k.hash], k.metadata, stage, code); }
    hide Load, LoadFailsAs, Read;
  }

  /** The version that a restore refuses is that of the record or that of the document. */
  lemma RestoreRefusesVersion(codec: Codec, s: Blobs, k: Checkpoint, found: nat)
    ensures Restore(codec, s, k) == UnsupportedSchema(found) <==>
      && found != 1
      && (k.schemaVersion == found || (Fetched(codec, s, k) && codec.probe(s.bytes[k.hash]) == Some(found)))
  {
    ReadMeans(codec, s, k.hash);
    hide WellShaped, References, Read, CheckReferences;
  }
}
