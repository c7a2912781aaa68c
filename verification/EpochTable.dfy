/** The `epochs` table changed in place by one checkpoint transaction. */
module EpochTables {
  import opened Wrappers
  import opened Capabilities
  import opened Effects
  import opened Frontiers
  import opened Epochs

  predicate Pending(e: Epoch, id: EpochId) {
    e.id == id && e.status == Creating
  }

  /** `UPDATE epochs SET status = 'committed' WHERE id = ? AND status = 'creating'` */
  function Updated(rows: seq<Epoch>, id: EpochId): seq<Epoch> {
    seq(|rows|, i requires 0 <= i < |rows| => if Pending(rows[i], id) then rows[i].(status := Committed) else rows[i])
  }

  /** The number of rows that the update touches. */
  function Touched(rows: seq<Epoch>, id: EpochId): nat {
    if rows == [] then 0
    else Touched(rows[..|rows| - 1], id) + (if Pending(rows[|rows| - 1], id) then 1 else 0)
  }

  lemma {:induction false} UntouchedRows(rows: seq<Epoch>, id: EpochId)
    requires forall i :: 0 <= i < |rows| ==> rows[i].id != id
    ensures Touched(rows, id) == 0 && Updated(rows, id) == rows
  {
    if rows != [] {
      UntouchedRows(rows[..|rows| - 1], id);
    }
  }

  /** With a fresh identifier the update touches exactly the new row. */
  lemma NewRowIsTouched(rows: seq<Epoch>, e: Epoch)
    requires e.status == Creating && forall i :: 0 <= i < |rows| ==> rows[i].id != e.id
    ensures Touched(rows + [e], e.id) == 1 && Updated(rows + [e], e.id) == rows + [e.(status := Committed)]
  {
    UntouchedRows(rows, e.id);
    assert (rows + [e])[..|rows|] == rows;
  }

  class EpochTable {
    var rows: seq<Epoch>

    /** `next_epoch` */
    method NextSequence(at: BranchKey) returns (r: Result<(nat, Option<EpochId>), RecoveryCode>)
      ensures r == NextEpoch(rows, at)
    {
      var latest: Option<Epoch> := None;
      for i := 0 to |rows|
        invariant latest == Latest(rows[..i], at)
      {
        assert rows[..i + 1][..i] == rows[..i];
        if rows[i].at == at && rows[i].status.Committed?
            && (latest.None? || latest.value.sequence <= rows[i].sequence) {
          latest := Some(rows[i]);
        }
      }
      assert rows[..|rows|] == rows;
      if latest.None? {
        return Ok((0, None));
      }
      if latest.value.sequence >= MAX_I64 {
        return Err(Persistence);
      }
      return Ok((latest.value.sequence + 1, Some(latest.value.id)));
    }

    /** `commit_composite_epoch`: the update must touch exactly one row, whatever the table holds. */
    method CommitEpoch(id: EpochId) returns (r: Result<Unit, RecoveryCode>)
      modifies this
      ensures rows == Updated(old(rows), id)
      ensures r == if Touched(old(rows), id) == 1 then Ok(Unit) else Err(Persistence)
    {
      var committed := 0;
      for i := 0 to |rows|
        invariant |rows| == |old(rows)|
        invariant forall j :: i <= j < |rows| ==> rows[j] == old(rows)[j]
        invariant forall j :: 0 <= j < i ==> rows[j] == Updated(old(rows), id)[j]
        invariant committed == Touched(old(rows)[..i], id)
      {
        assert old(rows)[..i + 1][..i] == old(rows)[..i];
        if Pending(rows[i], id) {
          rows := rows[i := rows[i].(status := Committed)];
          committed := committed + 1;
        }
      }
      assert old(rows)[..|rows|] == old(rows);
      return if committed == 1 then Ok(Unit) else Err(Persistence);
    }

    /** `persist_checkpoint`: any error drops the transaction. */
    method Persist(l: Ledger, c: Capture) returns (r: Result<Unit, RecoveryCode>)
      modifies this
      ensures var spec := PersistCheckpoint(old(rows), l, c);
        if spec.Ok? then r == Ok(Unit) && rows == spec.value else r == Err(spec.error) && rows == old(rows)
    {
      if c.at !in l.branchStates {
        return Err(NotFound);
      }
      if !c.sessionCompleted || !l.branchStates[c.at].Completed? {
        return Err(InvalidCapture);
      }
      if !c.blobsAgree {
        return Err(MetadataMismatch);
      }
      hide Current, NextEpoch;
      var next := NextSequence(c.at);
      if next.Err? {
        return Err(next.error);
      }
      var e := Epoch(c.id, c.at, next.value.1, next.value.0, Creating, Current(l, c.at));
      if !Epochs.Insertable(rows, e) {
        return Err(Persistence);
      }
      NewRowIsTouched(rows, e);
      var before := rows;
      rows := rows + [e];
      r := CommitEpoch(c.id);
      rows := if r.Ok? then rows else before;
    }
  }
}
