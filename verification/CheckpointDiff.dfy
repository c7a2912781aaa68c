/** Comparing two checkpoint records (crates/epoch-diff): restore both, then compare. */
module CheckpointDiff {
  import opened Wrappers
  import opened Contexts
  import opened Checkpoints
  import opened SemanticDiff
  import opened DiffTheorems
  import opened DiffEngine

  datatype Side = BeforeSide | AfterSide
  datatype DiffError = UnsupportedCheckpoint(side: Side, found: nat) | InvalidCheckpoint(side: Side, code: FailureCode)

  datatype Document = Document(before: Hash, after: Hash, identical: bool, changes: seq<Change>)

  /** `validated_context` */
  function ValidatedContext(codec: Codec, s: Blobs, k: Checkpoint, side: Side): Result<Context, DiffError> {
    match Restore(codec, s, k)
    case Supported(c) => Ok(c)
    case UnsupportedSchema(found) => Err(UnsupportedCheckpoint(side, found))
    case Failed(_, code) => Err(InvalidCheckpoint(side, code))
  }

  /** How the failure of a restore is reported. */
  ghost function FailureOf(outcome: Outcome<Context>, side: Side): DiffError
    requires !outcome.Supported?
  {
    if outcome.Failed? then InvalidCheckpoint(side, outcome.code) else UnsupportedCheckpoint(side, outcome.found)
  }

  /**
   `diff_application_checkpoints`: refused exactly when a side cannot be restored; otherwise the document is the diff
   of the two contexts, and (given a reader that undoes the writer) it says identical exactly when they are equal up to
   the order of the pending identifiers.
   */
  method DiffCheckpoints(codec: Codec, s: Blobs, before: Checkpoint, after: Checkpoint)
    returns (r: Result<Document, DiffError>)
    ensures r.Ok? <==> Restore(codec, s, before).Supported? && Restore(codec, s, after).Supported?
    ensures !Restore(codec, s, before).Supported? ==> r == Err(FailureOf(Restore(codec, s, before), BeforeSide))
    ensures Restore(codec, s, before).Supported? && !Restore(codec, s, after).Supported? ==>
        r == Err(FailureOf(Restore(codec, s, after), AfterSide))
    ensures r.Ok? ==> IsDiff(Restore(codec, s, before).value, Restore(codec, s, after).value, r.value.changes)
    ensures r.Ok? && Undoes(codec) ==>
        (r.value.identical <==> SameUpToPendingOrder(Restore(codec, s, before).value, Restore(codec, s, after).value))
    ensures r.Ok? ==> r.value.before == before.hash && r.value.after == after.hash
  {
    hide Restore, Undoes, IsDiff, SameUpToPendingOrder, WellShaped, StillHolds;
    var b := ValidatedContext(codec, s, before, BeforeSide);
    if b.Err? {
      return Err(b.error);
    }
    var a := ValidatedContext(codec, s, after, AfterSide);
    if a.Err? {
      return Err(a.error);
    }
    var changes := DiffContexts(b.value, a.value);
    if Undoes(codec) {
      RestoredIsValid(codec, s, before);
      RestoredIsValid(codec, s, after);
      EmptyExactlyWhenSame(b.value, a.value, changes);
    }
    return Ok(Document(before.hash, after.hash, changes == [], changes));
  }
}
