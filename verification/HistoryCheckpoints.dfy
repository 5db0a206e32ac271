/** The history watermark: an append-only log of rows whose newest one, by creation time,
    says through when the execution history has been covered. */
module HistoryCheckpoints {
  import opened Decimals

  /** Coverage in nanoseconds; creation in microseconds; the identifier digests the coverage. */
  datatype Row = Row(id: int, coveredThrough: int, createdAt: int)

  datatype CheckpointError = Regressed | DuplicateRow

  /** Newest first by creation time, then by identifier. */
  predicate Newer(a: Row, b: Row) {
    a.createdAt > b.createdAt || (a.createdAt == b.createdAt && a.id > b.id)
  }

  predicate IsLatest(rows: seq<Row>, r: Row) {
    r in rows && forall i :: 0 <= i < |rows| ==> rows[i] == r || !Newer(rows[i], r)
  }

  function Latest(rows: seq<Row>): (r: Option<Row>)
    ensures r.None? <==> rows == []
    ensures r.Some? ==> IsLatest(rows, r.value)
  {
    if rows == [] then None
    else
      var last, before := rows[|rows| - 1], Latest(rows[..|rows| - 1]);
      assert forall i :: 0 <= i < |rows| - 1 ==> rows[i] == rows[..|rows| - 1][i];
      if before.None? || Newer(last, before.value) then Some(last) else before
  }

  /** Appends a row for a later coverage, created strictly after the newest one. */
  function Advance(rows: seq<Row>, digest: int -> int, coveredThrough: int, createdAt: int): Result<seq<Row>,
      CheckpointError> {
    var latest := Latest(rows);
    if latest.Some? && coveredThrough < latest.value.coveredThrough then Err(Regressed)
    else if latest.Some? && coveredThrough == latest.value.coveredThrough then Ok(rows)
    else
      var at := if latest.Some? && createdAt <= latest.value.createdAt then latest.value.createdAt + 1 else createdAt;
      if exists i :: 0 <= i < |rows| && rows[i].id == digest(coveredThrough) then Err(DuplicateRow)
      else Ok(rows + [Row(digest(coveredThrough), coveredThrough, at)])
  }

  /** Later rows were created later and cover more. */
  predicate Climbing(rows: seq<Row>, digest: int -> int) {
    && (forall i, j :: 0 <= i < j < |rows| ==>
          rows[i].createdAt < rows[j].createdAt && rows[i].coveredThrough < rows[j].coveredThrough)
    && forall i :: 0 <= i < |rows| ==> rows[i].id == digest(rows[i].coveredThrough)
  }

  lemma LatestIsLast(rows: seq<Row>, digest: int -> int)
    requires Climbing(rows, digest) && rows != []
    ensures Latest(rows) == Some(rows[|rows| - 1])
    ensures forall i :: 0 <= i < |rows| ==> rows[i].coveredThrough <= rows[|rows| - 1].coveredThrough
  {
    var last := rows[|rows| - 1];
    var r := Latest(rows).value;
    assert last == r || !Newer(last, r);
  }

  ghost predicate Injective(digest: int -> int) {
    forall x, y :: digest(x) == digest(y) ==> x == y
  }

  /** An advance is accepted exactly when it does not regress, keeps the log climbing, and
      then the newest row is the one that covers most. */
  lemma AdvanceClimbs(rows: seq<Row>, digest: int -> int, coveredThrough: int, createdAt: int)
    requires Climbing(rows, digest) && Injective(digest)
    ensures var r := Advance(rows, digest, coveredThrough, createdAt);
            && (r.Ok? <==> rows == [] || coveredThrough >= Latest(rows).value.coveredThrough)
            && (r.Ok? ==>
                  && Climbing(r.value, digest) && r.value != [] && rows <= r.value
                  && Latest(r.value).value.coveredThrough == coveredThrough)
            && (r.Ok? && rows != [] && coveredThrough == Latest(rows).value.coveredThrough ==> r.value == rows)
            && (r.Ok? && (rows == [] || coveredThrough > Latest(rows).value.coveredThrough) ==>
                  && |r.value| == |rows| + 1 && r.value[|rows|].id == digest(coveredThrough)
                  && (rows == [] || createdAt > Latest(rows).value.createdAt ==>
                       r.value[|rows|].createdAt == createdAt))
  {
    hide Latest;
    if rows != [] {
      LatestIsLast(rows, digest);
    }
    var r := Advance(rows, digest, coveredThrough, createdAt);
    if r.Ok? {
      LatestIsLast(r.value, digest);
    }
  }

  class CheckpointStore {
    const digest: int -> int
    var rows: seq<Row>

    ghost predicate Valid()
      reads this
    {
      Climbing(rows, digest) && Injective(digest)
    }

    constructor (digest: int -> int)
      requires Injective(digest)
      ensures Valid() && rows == [] && this.digest == digest
    {
      this.digest, rows := digest, [];
    }

    /** Reads the newest row by scanning the whole log. */
    method LoadLatest() returns (latest: Option<Row>)
      ensures latest == Latest(rows)
    {
      latest := None;
      for i := 0 to |rows|
        invariant latest == Latest(rows[..i])
      {
        assert rows[..i + 1][..i] == rows[..i];
        if latest.None? || Newer(rows[i], latest.value) {
          latest := Some(rows[i]);
        }
      }
      assert rows[..|rows|] == rows;
    }

    /** Moves the watermark forward, or leaves the log as it was. */
    method AdvanceCheckpoint(coveredThrough: int, createdAt: int) returns (r: Result<(), CheckpointError>)
      requires Valid()
      modifies this
      ensures Valid()
      ensures r.Ok? <==> old(rows) == [] || coveredThrough >= Latest(old(rows)).value.coveredThrough
      ensures r.Ok? ==> Advance(old(rows), digest, coveredThrough, createdAt) == Ok(rows)
      ensures r.Ok? ==> rows != [] && Latest(rows).value.coveredThrough == coveredThrough
      ensures r.Err? ==> rows == old(rows)
    {
      hide Latest, Climbing, Injective;
      AdvanceClimbs(rows, digest, coveredThrough, createdAt);
      var eventCreatedAt := createdAt;
      var current := LoadLatest();
      if current.Some? {
        if coveredThrough < current.value.coveredThrough {
          return Err(Regressed);
        }
        if coveredThrough == current.value.coveredThrough {
          return Ok(());
        }
        if eventCreatedAt <= current.value.createdAt {
          eventCreatedAt := current.value.createdAt + 1;
        }
      }
      var id := digest(coveredThrough);
      if exists i :: 0 <= i < |rows| && rows[i].id == id {
        return Err(DuplicateRow);
      }
      rows := rows + [Row(id, coveredThrough, eventCreatedAt)];
      r := Ok(());
    }
  }
}
