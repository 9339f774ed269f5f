/** The decision logic of backend/internal/ux/usability_tester.go: the severity of
    a pain point, the pain-point rows IdentifyPainPoints builds, and the timeframe
    filter of GetUsabilityMetrics. Times are seconds, as SQLite's `datetime` counts. */
module Usability {
  import opened Wrappers

  const Day: int := 24 * 60 * 60

  /** calculateSeverity: the score `errorCount * (1 + criticalRate)` against 50, 20 and 10. */
  function CalculateSeverity(errorCount: int, criticalRate: real): (severity: string)
    ensures var score := errorCount as real * (1.0 + criticalRate);
      (severity == "critical" <==> score > 50.0)
      && (severity == "high" <==> 20.0 < score <= 50.0)
      && (severity == "medium" <==> 10.0 < score <= 20.0)
      && (severity == "low" <==> score <= 10.0)
  {
    var score := errorCount as real * (1.0 + criticalRate);
    if score > 50.0 then "critical"
    else if score > 20.0 then "high"
    else if score > 10.0 then "medium"
    else "low"
  }

  /** The order of the severities, "low" lowest. */
  function Rank(severity: string): (n: nat)
    ensures n <= 3
  {
    if severity == "critical" then 3
    else if severity == "high" then 2
    else if severity == "medium" then 1
    else 0
  }

  lemma ScaleMonotone(a: int, b: int, r: real)
    requires a <= b && r >= 0.0
    ensures a as real * (1.0 + r) <= b as real * (1.0 + r)
  {
    assert (b as real - a as real) * (1.0 + r) >= 0.0;
  }

  /** For a fixed non-negative rate, more errors never lower the severity. */
  lemma SeverityMonotone(e1: int, e2: int, rate: real)
    requires e1 <= e2 && rate >= 0.0
    ensures Rank(CalculateSeverity(e1, rate)) <= Rank(CalculateSeverity(e2, rate))
  {
    ScaleMonotone(e1, e2, rate);
  }

  /** With a non-negative rate, more than ten errors are never "low", and more than fifty
      are always "critical". */
  lemma ManyErrorsNotLow(errorCount: int, rate: real)
    requires rate >= 0.0
    ensures errorCount > 10 ==> CalculateSeverity(errorCount, rate) != "low"
    ensures errorCount > 50 ==> CalculateSeverity(errorCount, rate) == "critical"
  {
    if errorCount > 0 {
      assert errorCount as real * rate >= 0.0;
    }
  }

  /** A row of the pain-point query, and the map IdentifyPainPoints builds from it. */
  datatype PainRow = PainRow(screen: string, element: string, errorCount: int, criticalRate: real)
  datatype PainPoint = PainPoint(screen: string, element: string, errorCount: int, criticalRate: real, severity: string)

  function PainPointOf(row: PainRow): PainPoint {
    PainPoint(row.screen, row.element, row.errorCount, row.criticalRate, CalculateSeverity(row.errorCount, row.criticalRate))
  }

  /** The scanned rows in order, each with its severity; a row that fails to scan is skipped. */
  function PainPoints(rows: seq<Result<PainRow>>): (r: seq<PainPoint>)
    ensures |r| <= |rows|
  {
    if rows == [] then []
    else PainPoints(rows[..|rows| - 1]) + (if rows[|rows| - 1].Ok? then [PainPointOf(rows[|rows| - 1].value)] else [])
  }

  /** IdentifyPainPoints over the rows the query returned. */
  method IdentifyPainPoints(query: Result<seq<Result<PainRow>>>) returns (r: Result<seq<PainPoint>>)
    ensures query.Err? ==> r == Err(query.error)
    ensures query.Ok? ==> r == Ok(PainPoints(query.value))
  {
    if query.Err? {
      return Err(query.error);
    }
    var rows := query.value;
    var points: seq<PainPoint> := [];
    var i := 0;
    while i < |rows|
      invariant 0 <= i <= |rows|
      invariant points == PainPoints(rows[..i])
    {
      assert rows[..i + 1][..i] == rows[..i];
      if rows[i].Ok? {
        points := points + [PainPointOf(rows[i].value)];
      }
      i := i + 1;
    }
    assert rows[..i] == rows;
    return Ok(points);
  }

  /** Every pain point carries the severity of its own counts, and each one comes from a
      scanned row. */
  lemma {:induction false} PainPointsFromRows(rows: seq<Result<PainRow>>)
    ensures forall k :: 0 <= k < |PainPoints(rows)| ==>
      (PainPoints(rows)[k].severity == CalculateSeverity(PainPoints(rows)[k].errorCount, PainPoints(rows)[k].criticalRate)
       && exists j :: 0 <= j < |rows| && rows[j] == Ok(PainRow(PainPoints(rows)[k].screen, PainPoints(rows)[k].element,
                                                             PainPoints(rows)[k].errorCount, PainPoints(rows)[k].criticalRate)))
  {
    if rows != [] {
      var init := rows[..|rows| - 1];
      PainPointsFromRows(init);
      var p := PainPoints(rows);
      forall k | 0 <= k < |p|
        ensures p[k].severity == CalculateSeverity(p[k].errorCount, p[k].criticalRate)
        ensures exists j :: 0 <= j < |rows| && rows[j] == Ok(PainRow(p[k].screen, p[k].element, p[k].errorCount, p[k].criticalRate))
      {
        if k < |PainPoints(init)| {
          assert p[k] == PainPoints(init)[k];
          var j :| 0 <= j < |init| && init[j] == Ok(PainRow(p[k].screen, p[k].element, p[k].errorCount, p[k].criticalRate));
          assert rows[j] == init[j];
        } else {
          assert rows[|rows| - 1] == Ok(PainRow(p[k].screen, p[k].element, p[k].errorCount, p[k].criticalRate));
        }
      }
    }
  }

  /** The window GetUsabilityMetrics filters on, in days; any other timeframe applies no filter. */
  function WindowDays(timeframe: string): (days: Option<nat>)
    ensures timeframe == "24h" <==> days == Some(1)
    ensures timeframe == "7d" <==> days == Some(7)
    ensures timeframe == "30d" <==> days == Some(30)
    ensures days.None? <==> timeframe !in {"24h", "7d", "30d"}
  {
    if timeframe == "24h" then Some(1)
    else if timeframe == "7d" then Some(7)
    else if timeframe == "30d" then Some(30)
    else None
  }

  /** The WHERE clause: a row counts when created after `now` minus the window. */
  predicate InWindow(createdAt: int, now: int, timeframe: string) {
    match WindowDays(timeframe)
    case None => true
    case Some(days) => createdAt > now - days * Day
  }

  /** The windows are nested: whatever the last day counts the last week counts, and so on,
      and an unknown timeframe counts everything. */
  lemma WindowsNested(createdAt: int, now: int, other: string)
    requires other !in {"24h", "7d", "30d"}
    ensures InWindow(createdAt, now, "24h") ==> InWindow(createdAt, now, "7d")
    ensures InWindow(createdAt, now, "7d") ==> InWindow(createdAt, now, "30d")
    ensures InWindow(createdAt, now, other)
  {
  }
}
