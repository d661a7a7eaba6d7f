/** `insertCourseHoles`: the mapping from an ordered hole list to rows of the
    `course_holes` table, and the empty-list short circuit. */
module Holes {
  import opened Js
  import opened Api

  /** A row of the `course_holes` table. */
  datatype HoleRow = HoleRow(
    id: string,
    courseId: string,
    holeNumber: int,
    par: int,
    distanceYards: Option<int>,
    distanceMeters: Option<int>,
    handicapIndex: Option<int>,
    createdAt: string,
    updatedAt: string)

  /** `Math.round(yards * 0.9144)` in exact arithmetic: the nearest integer,
      with halves rounded up (towards positive infinity), as `Math.round` does. */
  function RoundToMeters(yards: int): (m: int)
    ensures (m as real) - 0.5 <= (yards as real) * 0.9144 < (m as real) + 0.5
  {
    var q := (yards * 9144 + 5000) / 10000;
    assert q * 10000 <= yards * 9144 + 5000 < q * 10000 + 10000;
    q
  }

  /** `Math.round((yardage || 0) * 0.9144) || null`. For whole yardages the
      meters are null exactly when the yardage is missing or zero: a non-zero
      yardage never rounds to zero metres. */
  function Meters(yardage: Option<int>): (m: Option<int>)
    ensures m.Some? <==> Truthy(yardage, 0)
    ensures m.Some? ==> m.value != 0
    ensures m.Some? ==> (m.value as real) - 0.5 <= (yardage.value as real) * 0.9144 < (m.value as real) + 0.5
  {
    var y := OrElse(yardage, 0, 0);
    var r := RoundToMeters(y);
    assert y >= 1 ==> (y as real) * 0.9144 >= 0.9144;
    assert y <= -1 ==> (y as real) * 0.9144 <= -0.9144;
    if r != 0 then Some(r) else None
  }

  /** Whether a row respects the column rules the mapping establishes: par is
      never null or zero, no nullable column holds zero, and the metric
      distance is present exactly with the yardage and is its rounding. */
  predicate WellFormedRow(row: HoleRow) {
    && row.par != 0
    && (row.distanceYards.Some? ==> row.distanceYards.value != 0)
    && (row.handicapIndex.Some? ==> row.handicapIndex.value != 0)
    && (row.distanceMeters.Some? <==> row.distanceYards.Some?)
    && (row.distanceMeters.Some? ==>
          && row.distanceMeters.value != 0
          && (row.distanceMeters.value as real) - 0.5 <= (row.distanceYards.value as real) * 0.9144
          && (row.distanceYards.value as real) * 0.9144 < (row.distanceMeters.value as real) + 0.5)
  }

  /** The row for the hole at 0-based position `index`. */
  function MapHole(courseId: string, index: nat, hole: Hole, id: string, now: string): (row: HoleRow)
    ensures row.courseId == courseId && row.id == id
    ensures row.holeNumber == index + 1
    ensures Truthy(hole.par, 0) ==> row.par == hole.par.value
    ensures !Truthy(hole.par, 0) ==> row.par == 4
    ensures row.distanceYards.Some? <==> Truthy(hole.yardage, 0)
    ensures row.distanceYards.Some? ==> row.distanceYards == hole.yardage
    ensures row.handicapIndex.Some? <==> Truthy(hole.handicap, 0)
    ensures row.handicapIndex.Some? ==> row.handicapIndex == hole.handicap
    ensures WellFormedRow(row)
  {
    HoleRow(
      id := id,
      courseId := courseId,
      holeNumber := index + 1,
      par := OrElse(hole.par, 0, 4),
      distanceYards := OrNull(hole.yardage, 0),
      distanceMeters := Meters(hole.yardage),
      handicapIndex := OrNull(hole.handicap, 0),
      createdAt := now,
      updatedAt := now)
  }

  /** `holes.map((hole, index) => ...)` over the positions `from..|holes|`;
      the hole at position i receives the id `holeId(i)`. */
  function MapHolesFrom(courseId: string, holes: seq<Hole>, from: nat, holeId: nat -> string, now: string)
    : (rows: seq<HoleRow>)
    requires from <= |holes|
    ensures |rows| == |holes| - from
    ensures forall k :: 0 <= k < |rows| ==>
              rows[k] == MapHole(courseId, from + k, holes[from + k], holeId(from + k), now)
    decreases |holes| - from
  {
    if from == |holes| then []
    else [MapHole(courseId, from, holes[from], holeId(from), now)]
         + MapHolesFrom(courseId, holes, from + 1, holeId, now)
  }

  /** The rows for a whole hole list: one per hole, in input order, numbered
      1..N, all owned by `courseId`, all well formed. */
  function MapHoles(courseId: string, holes: seq<Hole>, holeId: nat -> string, now: string)
    : (rows: seq<HoleRow>)
    ensures |rows| == |holes|
    ensures forall k :: 0 <= k < |rows| ==>
              && rows[k].holeNumber == k + 1
              && rows[k].courseId == courseId
              && rows[k] == MapHole(courseId, k, holes[k], holeId(k), now)
    ensures forall k :: 0 <= k < |rows| ==> WellFormedRow(rows[k])
  {
    MapHolesFrom(courseId, holes, 0, holeId, now)
  }

  /** What one call of the hole writer did: the rows of the bulk insert it
      issued, if any, and the boolean it returned. */
  datatype HoleWrite = HoleWrite(issued: Option<seq<HoleRow>>, success: bool)

  /** `insertCourseHoles` against a store whose answer is `storeOk`. An absent
      or empty list returns false without issuing an insert; otherwise exactly
      one bulk insert of one row per hole is issued, and the result is the
      store's answer. */
  function InsertCourseHoles(courseId: string, holes: Option<seq<Hole>>, holeId: nat -> string,
                             now: string, storeOk: bool): (w: HoleWrite)
    ensures w.issued.None? <==> (holes.None? || |holes.value| == 0)
    ensures w.issued.Some? ==> w.issued.value == MapHoles(courseId, holes.value, holeId, now)
    ensures w.issued.Some? ==> |w.issued.value| == |holes.value| > 0
    ensures w.success <==> w.issued.Some? && storeOk
  {
    if holes.None? || |holes.value| == 0 then HoleWrite(None, false)
    else HoleWrite(Some(MapHoles(courseId, holes.value, holeId, now)), storeOk)
  }

  /** The set of hole numbers a list of rows uses. */
  function HoleNumbers(rows: seq<HoleRow>): set<int> {
    set row | row in rows :: row.holeNumber
  }

  /** The hole numbers of a mapped list are exactly 1..N, strictly increasing. */
  lemma {:induction false} HoleNumbersContiguous(courseId: string, holes: seq<Hole>, holeId: nat -> string, now: string)
    ensures var rows := MapHoles(courseId, holes, holeId, now);
            && (forall n :: n in HoleNumbers(rows) <==> 1 <= n <= |holes|)
            && (forall a, b :: 0 <= a < b < |rows| ==> rows[a].holeNumber < rows[b].holeNumber)
  {
    var rows := MapHoles(courseId, holes, holeId, now);
    var numbers := HoleNumbers(rows);
    forall n | 1 <= n <= |holes| ensures n in numbers {
      assert rows[n - 1] in rows;
    }
    forall n | n in numbers ensures 1 <= n <= |holes| {
      var row :| row in rows && row.holeNumber == n;
      var k :| 0 <= k < |rows| && rows[k] == row;
    }
  }
}
