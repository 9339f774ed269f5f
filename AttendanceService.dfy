/** The attendance service of backend/internal/services/attendance_service.go,
    over its own view of the `attendances` table: one row per (user, event) pair,
    which the upsert of CheckIn relies on (`ON CONFLICT(user_id, event_id)`).
    Times are nanoseconds; a failing statement is an `Option<string>` parameter. */
module AttendanceService {
  import opened Wrappers

  datatype Row = Row(id: nat, userID: string, eventID: string,
                     checkinTime: Option<int>, checkoutTime: Option<int>, createdAt: int)

  predicate SamePair(r: Row, userID: string, eventID: string) {
    r.userID == userID && r.eventID == eventID
  }

  /** The uniqueness constraint the upsert needs. */
  predicate UniquePairs(rows: seq<Row>) {
    forall i, j :: 0 <= i < j < |rows| ==> !(rows[i].userID == rows[j].userID && rows[i].eventID == rows[j].eventID)
  }

  /** The position of the row of the pair, or -1. */
  function FindPair(rows: seq<Row>, userID: string, eventID: string): (k: int)
    ensures -1 <= k < |rows|
    ensures k >= 0 ==> SamePair(rows[k], userID, eventID)
    ensures k == -1 ==> forall j :: 0 <= j < |rows| ==> !SamePair(rows[j], userID, eventID)
  {
    if rows == [] then -1
    else if SamePair(rows[|rows| - 1], userID, eventID) then |rows| - 1
    else FindPair(rows[..|rows| - 1], userID, eventID)
  }

  /** The table after the upsert: a new row for a fresh pair, otherwise only the
      existing row's checkin_time changes. */
  function CheckInRows(rows: seq<Row>, userID: string, eventID: string, now: int, newID: nat): seq<Row> {
    var k := FindPair(rows, userID, eventID);
    if k == -1 then rows + [Row(newID, userID, eventID, Some(now), None, now)]
    else rows[k := rows[k].(checkinTime := Some(now))]
  }

  /** The table after the check-out UPDATE: rows of the pair without a checkout get one. */
  function CheckOutRows(rows: seq<Row>, userID: string, eventID: string, now: int): (r: seq<Row>)
    ensures |r| == |rows|
  {
    seq(|rows|, k requires 0 <= k < |rows| =>
      if SamePair(rows[k], userID, eventID) && rows[k].checkoutTime.None? then rows[k].(checkoutTime := Some(now)) else rows[k])
  }

  predicate Active(r: Row, userID: string, eventID: string) {
    SamePair(r, userID, eventID) && r.checkinTime.Some? && r.checkoutTime.None?
  }

  /** The COUNT(*) of IsUserCheckedIn. */
  function CountActive(rows: seq<Row>, userID: string, eventID: string): nat {
    if rows == [] then 0
    else CountActive(rows[..|rows| - 1], userID, eventID) + (if Active(rows[|rows| - 1], userID, eventID) then 1 else 0)
  }

  /** The rows of one event, in table order. */
  function ForEvent(rows: seq<Row>, eventID: string): (r: seq<Row>)
    ensures forall k :: 0 <= k < |r| ==> r[k].eventID == eventID
  {
    if rows == [] then []
    else ForEvent(rows[..|rows| - 1], eventID) + (if rows[|rows| - 1].eventID == eventID then [rows[|rows| - 1]] else [])
  }

  /** `ORDER BY checkin_time DESC`, NULLs last. */
  predicate LaterOrEqual(a: Row, b: Row) {
    match (a.checkinTime, b.checkinTime)
    case (Some(x), Some(y)) => x >= y
    case (Some(_), None) => true
    case (None, Some(_)) => false
    case (None, None) => true
  }

  predicate SortedDesc(rows: seq<Row>) {
    forall i, j :: 0 <= i < j < |rows| ==> LaterOrEqual(rows[i], rows[j])
  }

  function InsertDesc(x: Row, sorted: seq<Row>): (r: seq<Row>)
    requires SortedDesc(sorted)
    ensures SortedDesc(r) && multiset(r) == multiset(sorted) + multiset{x}
  {
    if sorted == [] then [x]
    else if LaterOrEqual(x, sorted[0]) then
      assert forall j :: 0 < j < |sorted| ==> LaterOrEqual(sorted[0], sorted[j]);
      [x] + sorted
    else
      var rest := InsertDesc(x, sorted[1..]);
      HeadDominates(sorted, x, rest);
      assert sorted == [sorted[0]] + sorted[1..];
      [sorted[0]] + rest
  }

  /** What InsertDesc puts after the head of a sorted sequence it does not displace comes
      no later than that head. */
  lemma HeadDominates(sorted: seq<Row>, x: Row, rest: seq<Row>)
    requires sorted != [] && SortedDesc(sorted) && !LaterOrEqual(x, sorted[0])
    requires multiset(rest) == multiset(sorted[1..]) + multiset{x}
    ensures forall k :: 0 <= k < |rest| ==> LaterOrEqual(sorted[0], rest[k])
  {
    forall k | 0 <= k < |rest| ensures LaterOrEqual(sorted[0], rest[k]) {
      assert rest[k] in multiset(rest);
      if rest[k] != x {
        assert rest[k] in multiset(sorted[1..]);
        var m :| 0 <= m < |sorted[1..]| && sorted[1..][m] == rest[k];
        assert LaterOrEqual(sorted[0], sorted[m + 1]);
      }
    }
  }

  function SortDesc(rows: seq<Row>): (r: seq<Row>)
    ensures SortedDesc(r) && multiset(r) == multiset(rows)
  {
    if rows == [] then []
    else
      assert rows == rows[..|rows| - 1] + [rows[|rows| - 1]];
      InsertDesc(rows[|rows| - 1], SortDesc(rows[..|rows| - 1]))
  }

  class AttendanceService {
    var rows: seq<Row>
    var nextID: nat

    predicate Valid()
      reads this
    {
      UniquePairs(rows)
    }

    constructor ()
      ensures rows == [] && Valid()
    {
      rows := [];
      nextID := 1;
    }

    /** CheckIn at `now`: insert, or on conflict set checkin_time. */
    method CheckIn(userID: string, eventID: string, now: int, execError: Option<string>) returns (err: Option<string>)
      requires Valid()
      modifies this
      ensures Valid()
      ensures execError.Some? ==> err == Some("failed to check in: " + execError.value) && rows == old(rows)
      ensures execError.None? ==> err.None? && rows == CheckInRows(old(rows), userID, eventID, now, old(nextID))
    {
      if execError.Some? {
        return Some("failed to check in: " + execError.value);
      }
      CheckInKeepsUnique(rows, userID, eventID, now, nextID);
      var k := FindPair(rows, userID, eventID);
      if k == -1 {
        rows := rows + [Row(nextID, userID, eventID, Some(now), None, now)];
        nextID := nextID + 1;
      } else {
        rows := rows[k := rows[k].(checkinTime := Some(now))];
      }
      return None;
    }

    /** CheckOut at `now`: succeeds whether or not a row was open. */
    method CheckOut(userID: string, eventID: string, now: int, execError: Option<string>) returns (err: Option<string>)
      requires Valid()
      modifies this
      ensures Valid()
      ensures execError.Some? ==> err == Some("failed to check out: " + execError.value) && rows == old(rows)
      ensures execError.None? ==> err.None? && rows == CheckOutRows(old(rows), userID, eventID, now)
    {
      if execError.Some? {
        return Some("failed to check out: " + execError.value);
      }
      CheckOutKeepsUnique(rows, userID, eventID, now);
      rows := CheckOutRows(rows, userID, eventID, now);
      return None;
    }

    /** IsUserCheckedIn: whether some row of the pair has a check-in and no check-out. */
    method IsUserCheckedIn(userID: string, eventID: string, queryError: Option<string>) returns (r: Result<bool>)
      ensures queryError.Some? ==> r == Err("failed to check attendance status: " + queryError.value)
      ensures queryError.None? ==> r.Ok? && (r.value <==> exists k :: 0 <= k < |rows| && Active(rows[k], userID, eventID))
    {
      if queryError.Some? {
        return Err("failed to check attendance status: " + queryError.value);
      }
      var count := CountActive(rows, userID, eventID);
      CountActivePositive(rows, userID, eventID);
      return Ok(count > 0);
    }

    /** GetEventAttendances: exactly the rows of the event that scan (a row for which
        `scans` is false, such as one whose time the driver cannot parse, is skipped),
        latest check-in first. */
    method GetEventAttendances(eventID: string, queryError: Option<string>, scans: Row -> bool) returns (r: Result<seq<Row>>)
      ensures queryError.Some? ==> r == Err("failed to get attendances: " + queryError.value)
      ensures queryError.None? ==>
        (r.Ok? && SortedDesc(r.value) && multiset(r.value) == multiset(Kept(ForEvent(rows, eventID), scans)))
      ensures queryError.None? ==> forall k :: 0 <= k < |r.value| ==>
        r.value[k].eventID == eventID && r.value[k] in rows && scans(r.value[k])
    {
      if queryError.Some? {
        return Err("failed to get attendances: " + queryError.value);
      }
      var selected := Kept(ForEvent(rows, eventID), scans);
      var sorted := SortDesc(selected);
      forall k | 0 <= k < |sorted| ensures sorted[k].eventID == eventID && sorted[k] in rows && scans(sorted[k]) {
        assert sorted[k] in multiset(selected);
        assert sorted[k] in selected;
        assert sorted[k] in ForEvent(rows, eventID);
        ForEventFrom(rows, eventID, sorted[k]);
      }
      return Ok(sorted);
    }
  }

  // ---------------------------------------------------------------------------
  // Properties

  lemma {:induction false} CountActivePositive(rows: seq<Row>, userID: string, eventID: string)
    ensures CountActive(rows, userID, eventID) > 0 <==> exists k :: 0 <= k < |rows| && Active(rows[k], userID, eventID)
  {
    if rows != [] {
      var init := rows[..|rows| - 1];
      CountActivePositive(init, userID, eventID);
      if exists k :: 0 <= k < |init| && Active(init[k], userID, eventID) {
        var k :| 0 <= k < |init| && Active(init[k], userID, eventID);
        assert rows[k] == init[k];
      }
      if exists k :: 0 <= k < |rows| && Active(rows[k], userID, eventID) {
        var k :| 0 <= k < |rows| && Active(rows[k], userID, eventID);
        if k < |init| {
          assert init[k] == rows[k];
        }
      }
    }
  }

  lemma {:induction false} ForEventFrom(rows: seq<Row>, eventID: string, x: Row)
    requires x in multiset(ForEvent(rows, eventID))
    ensures x in rows && x.eventID == eventID
  {
    var init := rows[..|rows| - 1];
    if x in multiset(ForEvent(init, eventID)) {
      ForEventFrom(init, eventID, x);
      assert x in rows;
    }
  }

  /** The upsert keeps one row per pair. */
  lemma CheckInKeepsUnique(rows: seq<Row>, userID: string, eventID: string, now: int, newID: nat)
    requires UniquePairs(rows)
    ensures UniquePairs(CheckInRows(rows, userID, eventID, now, newID))
  {
  }

  lemma CheckOutKeepsUnique(rows: seq<Row>, userID: string, eventID: string, now: int)
    requires UniquePairs(rows)
    ensures UniquePairs(CheckOutRows(rows, userID, eventID, now))
  {
  }

  /** A first check-in creates exactly one row for the pair, checked in at `now`. */
  lemma FreshCheckIn(rows: seq<Row>, userID: string, eventID: string, now: int, newID: nat)
    requires forall j :: 0 <= j < |rows| ==> !SamePair(rows[j], userID, eventID)
    ensures var r := CheckInRows(rows, userID, eventID, now, newID);
      |r| == |rows| + 1 && r[|rows|] == Row(newID, userID, eventID, Some(now), None, now) && r[..|rows|] == rows
  {
  }

  /** Checking in again after checking out leaves the user checked out: the upsert
      rewrites only checkin_time, never checkout_time. */
  lemma RecheckInKeepsCheckout(rows: seq<Row>, userID: string, eventID: string, t1: int, t2: int, newID: nat)
    requires UniquePairs(rows)
    requires exists j :: 0 <= j < |rows| && SamePair(rows[j], userID, eventID)
    ensures var r := CheckInRows(CheckOutRows(rows, userID, eventID, t1), userID, eventID, t2, newID);
      CountActive(r, userID, eventID) == 0
  {
    var closed := CheckOutRows(rows, userID, eventID, t1);
    var j :| 0 <= j < |rows| && SamePair(rows[j], userID, eventID);
    assert SamePair(closed[j], userID, eventID);
    var r := CheckInRows(closed, userID, eventID, t2, newID);
    assert forall k :: 0 <= k < |r| ==> !Active(r[k], userID, eventID);
    NoActiveCountsZero(r, userID, eventID);
  }

  lemma {:induction false} NoActiveCountsZero(rows: seq<Row>, userID: string, eventID: string)
    requires forall k :: 0 <= k < |rows| ==> !Active(rows[k], userID, eventID)
    ensures CountActive(rows, userID, eventID) == 0
  {
    CountActivePositive(rows, userID, eventID);
  }

  /** After a check-out the user is not checked in, and other pairs are untouched. */
  lemma CheckOutEndsActive(rows: seq<Row>, userID: string, eventID: string, now: int)
    ensures CountActive(CheckOutRows(rows, userID, eventID, now), userID, eventID) == 0
    ensures forall k :: 0 <= k < |rows| && !SamePair(rows[k], userID, eventID) ==>
      CheckOutRows(rows, userID, eventID, now)[k] == rows[k]
  {
    NoActiveCountsZero(CheckOutRows(rows, userID, eventID, now), userID, eventID);
  }
}
