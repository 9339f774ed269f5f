/** Option and Result values used for the nullable results and error returns of
    the modelled Go and TypeScript code. */
module Wrappers {

  datatype Option<+T> = None | Some(value: T) {
    /** The wrapped value, or `default` for None. */
    function GetOr(default: T): T {
      match this
      case Some(v) => v
      case None => default
    }
  }

  /** A Go `(value, error)` pair or a JavaScript promise: either a value or an error message. */
  datatype Result<+T> = Ok(value: T) | Err(error: string)

  /** What a `rows.Next()` loop that skips a row failing to `Scan` collects: the values of
      the rows that scanned, in order. */
  function Scanned<T>(rows: seq<Result<T>>): (r: seq<T>)
    ensures |r| <= |rows|
    ensures forall x :: x in r ==> Ok(x) in rows
  {
    if rows == [] then []
    else
      var init := rows[..|rows| - 1];
      assert forall row :: row in init ==> row in rows;
      Scanned(init) + (if rows[|rows| - 1].Ok? then [rows[|rows| - 1].value] else [])
  }

  lemma ScannedStep<T>(rows: seq<Result<T>>, i: nat)
    requires i < |rows|
    ensures Scanned(rows[..i + 1]) == Scanned(rows[..i]) + (if rows[i].Ok? then [rows[i].value] else [])
    ensures rows[i].Err? ==> Scanned(rows[..i + 1]) == Scanned(rows[..i])
  {
    assert rows[..i + 1][..i] == rows[..i];
    assert Scanned(rows[..i]) + [] == Scanned(rows[..i]);
  }

  /** The rows a scan loop keeps when it skips each row for which `scans` is false, in
      order. */
  function Kept<T(!new)>(rows: seq<T>, scans: T -> bool): (r: seq<T>)
    ensures |r| <= |rows|
    ensures forall x :: x in r <==> x in rows && scans(x)
  {
    if rows == [] then []
    else
      var init := rows[..|rows| - 1];
      assert rows == init + [rows[|rows| - 1]];
      Kept(init, scans) + (if scans(rows[|rows| - 1]) then [rows[|rows| - 1]] else [])
  }

  lemma KeptStep<T(!new)>(rows: seq<T>, scans: T -> bool, i: nat)
    requires i < |rows|
    ensures Kept(rows[..i + 1], scans) == Kept(rows[..i], scans) + (if scans(rows[i]) then [rows[i]] else [])
    ensures !scans(rows[i]) ==> Kept(rows[..i + 1], scans) == Kept(rows[..i], scans)
  {
    assert rows[..i + 1][..i] == rows[..i];
    assert Kept(rows[..i], scans) + [] == Kept(rows[..i], scans);
  }

  /** When every row scans, nothing is skipped. */
  lemma {:induction false} KeptAll<T(!new)>(rows: seq<T>, scans: T -> bool)
    requires forall x :: x in rows ==> scans(x)
    ensures Kept(rows, scans) == rows
  {
    if rows != [] {
      var init := rows[..|rows| - 1];
      assert forall x :: x in init ==> x in rows;
      KeptAll(init, scans);
      assert rows == init + [rows[|rows| - 1]];
    }
  }
}
