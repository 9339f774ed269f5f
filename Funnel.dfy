/** The conversion funnel of backend/internal/services/conversion_funnel.go: the five
    stages filled from their counting queries, the rates, the ROI against the assumed
    event cost, and the attribution report's totals. A counting query whose row fails
    to scan leaves its zero in place; that is the None of each count. */
module Funnel {
  import opened Wrappers

  const StageNames: seq<string> := ["attendance", "content_view", "engagement", "website_visit", "purchase"]
  const EventCost: real := 10000.0

  datatype FunnelStage = FunnelStage(stage: string, users: int, conversions: int, rate: real)

  datatype ConversionFunnel = ConversionFunnel(eventID: string, brandID: string, stages: seq<FunnelStage>,
                                               totalUsers: int, revenue: real, roi: real)

  /** What the five queries scanned: four distinct-user counts, and the purchasers with
      their revenue from one row. */
  datatype FunnelCounts = FunnelCounts(attendance: Option<int>, contentView: Option<int>, engagement: Option<int>,
                                       websiteVisit: Option<int>, purchase: Option<(int, real)>)

  /** The users of each stage in order, with a failed scan read as 0. */
  function StageUsers(c: FunnelCounts): (u: seq<int>)
    ensures |u| == |StageNames|
  {
    [c.attendance.GetOr(0), c.contentView.GetOr(0), c.engagement.GetOr(0), c.websiteVisit.GetOr(0),
     if c.purchase.Some? then c.purchase.value.0 else 0]
  }

  function Revenue(c: FunnelCounts): real {
    if c.purchase.Some? then c.purchase.value.1 else 0.0
  }

  /** The ROI: the gain over the event cost as a percentage of it, or 0 without revenue. */
  function Roi(revenue: real): (roi: real)
    ensures revenue <= 0.0 ==> roi == 0.0
    ensures revenue > 0.0 ==> roi * EventCost == (revenue - EventCost) * 100.0
    ensures roi > 0.0 <==> revenue > EventCost
  {
    if revenue > 0.0 then ((revenue - EventCost) / EventCost) * 100.0 else 0.0
  }

  /** The users of a stage as a percentage of the attendance. */
  function Rate(users: int, totalUsers: int): (rate: real)
    requires totalUsers > 0
    ensures rate * totalUsers as real == users as real * 100.0
  {
    var q := users as real / totalUsers as real;
    assert q * totalUsers as real == users as real;
    q * 100.0
  }

  /** GetConversionFunnel: the stages filled in order, each with as many conversions as
      users, then the rates against the attendance and the ROI. */
  method GetConversionFunnel(eventID: string, brandID: string, counts: FunnelCounts) returns (f: ConversionFunnel)
    ensures |f.stages| == |StageNames|
    ensures forall i :: 0 <= i < |f.stages| ==>
      (f.stages[i].stage == StageNames[i] && f.stages[i].users == StageUsers(counts)[i]
       && f.stages[i].conversions == f.stages[i].users)
    ensures f.totalUsers == StageUsers(counts)[0]
    ensures f.totalUsers > 0 ==> forall i :: 0 <= i < |f.stages| ==> f.stages[i].rate == Rate(f.stages[i].users, f.totalUsers)
    ensures f.totalUsers <= 0 ==> forall i :: 0 <= i < |f.stages| ==> f.stages[i].rate == 0.0
    ensures f.eventID == eventID && f.brandID == brandID
    ensures f.revenue == Revenue(counts) && f.roi == Roi(Revenue(counts))
  {
    var users := StageUsers(counts);
    var stages: seq<FunnelStage> := [];
    var i := 0;
    while i < |StageNames|
      invariant 0 <= i <= |StageNames| && |stages| == i
      invariant forall k :: 0 <= k < i ==> stages[k] == FunnelStage(StageNames[k], users[k], users[k], 0.0)
    {
      stages := stages + [FunnelStage(StageNames[i], users[i], users[i], 0.0)];
      i := i + 1;
    }
    var totalUsers := stages[0].users;
    i := 0;
    while i < |stages|
      invariant 0 <= i <= |stages| && |stages| == |StageNames|
      invariant forall k :: 0 <= k < |stages| ==>
        (stages[k].stage == StageNames[k] && stages[k].users == users[k] && stages[k].conversions == users[k])
      invariant forall k :: i <= k < |stages| ==> stages[k].rate == 0.0
      invariant forall k :: 0 <= k < i ==> stages[k].rate == (if totalUsers > 0 then Rate(users[k], totalUsers) else 0.0)
    {
      if totalUsers > 0 {
        stages := stages[i := stages[i].(rate := Rate(stages[i].users, totalUsers))];
      }
      i := i + 1;
    }
    var revenue := Revenue(counts);
    var roi := 0.0;
    if revenue > 0.0 {
      roi := ((revenue - EventCost) / EventCost) * 100.0;
    }
    f := ConversionFunnel(eventID, brandID, stages, totalUsers, revenue, roi);
  }

  /** With any attendance the first stage's rate is 100. */
  lemma AttendanceRateIsHundred(totalUsers: int)
    requires totalUsers > 0
    ensures Rate(totalUsers, totalUsers) == 100.0
  {
    var r := Rate(totalUsers, totalUsers);
    assert r * totalUsers as real == totalUsers as real * 100.0;
    assert (r - 100.0) * totalUsers as real == 0.0;
  }

  /** A stage with no more users than the attendance has a rate of at most 100. */
  lemma RateAtMostHundred(users: int, totalUsers: int)
    requires 0 <= users <= totalUsers && totalUsers > 0
    ensures 0.0 <= Rate(users, totalUsers) <= 100.0
  {
    var r := Rate(users, totalUsers);
    var t := totalUsers as real;
    assert r * t == users as real * 100.0;
  }

  /** Revenue exactly covering the cost gives a zero ROI; doubling it gives 100. */
  lemma RoiBreakEven()
    ensures Roi(EventCost) == 0.0
    ensures Roi(2.0 * EventCost) == 100.0
  {
  }

  // ---------------------------------------------------------------------------
  // GetAttributionReport

  datatype AttributionRow = AttributionRow(attributionType: string, count: int, revenue: real)
  datatype Attribution = Attribution(purchases: int, revenue: real)
  datatype AttributionReport = AttributionReport(attribution: map<string, Attribution>, totalRevenue: real, totalPurchases: int)

  /** The per-type entries, a later row of a type replacing an earlier one. */
  function ByType(rows: seq<AttributionRow>): map<string, Attribution> {
    if rows == [] then map[]
    else
      var last := rows[|rows| - 1];
      ByType(rows[..|rows| - 1])[last.attributionType := Attribution(last.count, last.revenue)]
  }

  /** Every scanned type has an entry, and every entry is a scanned type. */
  lemma {:induction false} ByTypeKeys(rows: seq<AttributionRow>)
    ensures ByType(rows).Keys == set k | 0 <= k < |rows| :: rows[k].attributionType
  {
    if rows != [] {
      var init := rows[..|rows| - 1];
      ByTypeKeys(init);
      assert forall k :: 0 <= k < |init| ==> init[k] == rows[k];
      var s := set k | 0 <= k < |rows| :: rows[k].attributionType;
      assert s == (set k | 0 <= k < |init| :: init[k].attributionType) + {rows[|rows| - 1].attributionType};
    }
  }

  function SumRevenue(rows: seq<AttributionRow>): real {
    if rows == [] then 0.0 else SumRevenue(rows[..|rows| - 1]) + rows[|rows| - 1].revenue
  }

  function SumCount(rows: seq<AttributionRow>): int {
    if rows == [] then 0 else SumCount(rows[..|rows| - 1]) + rows[|rows| - 1].count
  }

  lemma AppendRow(scanned: seq<AttributionRow>, row: AttributionRow)
    ensures ByType(scanned + [row]) == ByType(scanned)[row.attributionType := Attribution(row.count, row.revenue)]
    ensures SumRevenue(scanned + [row]) == SumRevenue(scanned) + row.revenue
    ensures SumCount(scanned + [row]) == SumCount(scanned) + row.count
  {
    assert (scanned + [row])[..|scanned|] == scanned;
  }

  /** GetAttributionReport over the rows the query returned. */
  method GetAttributionReport(query: Result<seq<Result<AttributionRow>>>) returns (r: Result<AttributionReport>)
    ensures query.Err? ==> r == Err("failed to get attribution report: " + query.error)
    ensures query.Ok? ==> (r.Ok? && r.value.attribution == ByType(Scanned(query.value))
      && r.value.totalRevenue == SumRevenue(Scanned(query.value)) && r.value.totalPurchases == SumCount(Scanned(query.value)))
  {
    if query.Err? {
      return Err("failed to get attribution report: " + query.error);
    }
    var rows := query.value;
    var attribution: map<string, Attribution> := map[];
    var totalRevenue := 0.0;
    var totalPurchases := 0;
    var i := 0;
    while i < |rows|
      invariant 0 <= i <= |rows|
      invariant attribution == ByType(Scanned(rows[..i]))
      invariant totalRevenue == SumRevenue(Scanned(rows[..i]))
      invariant totalPurchases == SumCount(Scanned(rows[..i]))
    {
      ScannedStep(rows, i);
      if rows[i].Ok? {
        var row := rows[i].value;
        AppendRow(Scanned(rows[..i]), row);
        attribution := attribution[row.attributionType := Attribution(row.count, row.revenue)];
        totalRevenue := totalRevenue + row.revenue;
        totalPurchases := totalPurchases + row.count;
      }
      i := i + 1;
    }
    assert rows[..i] == rows;
    return Ok(AttributionReport(attribution, totalRevenue, totalPurchases));
  }

  predicate DistinctTypes(rows: seq<AttributionRow>) {
    forall j, k :: 0 <= j < k < |rows| ==> rows[j].attributionType != rows[k].attributionType
  }

  /** With one row per attribution type (as GROUP BY gives), each entry is that type's row. */
  lemma {:induction false} ByTypeEntries(rows: seq<AttributionRow>)
    requires DistinctTypes(rows)
    ensures forall k :: 0 <= k < |rows| ==>
      rows[k].attributionType in ByType(rows) && ByType(rows)[rows[k].attributionType] == Attribution(rows[k].count, rows[k].revenue)
  {
    if rows != [] {
      var init := rows[..|rows| - 1];
      assert DistinctTypes(init) by {
        forall j, k | 0 <= j < k < |init| ensures init[j].attributionType != init[k].attributionType {
          assert init[j] == rows[j] && init[k] == rows[k];
        }
      }
      ByTypeEntries(init);
      forall k | 0 <= k < |rows|
        ensures rows[k].attributionType in ByType(rows) && ByType(rows)[rows[k].attributionType] == Attribution(rows[k].count, rows[k].revenue)
      {
        if k < |rows| - 1 {
          assert init[k] == rows[k];
        }
      }
    }
  }

  /** The totals over a split of the rows are the sums of the parts. */
  lemma {:induction false} SumsSplit(a: seq<AttributionRow>, b: seq<AttributionRow>)
    ensures SumRevenue(a + b) == SumRevenue(a) + SumRevenue(b)
    ensures SumCount(a + b) == SumCount(a) + SumCount(b)
  {
    if b == [] {
      assert a + b == a;
    } else {
      SumsSplit(a, b[..|b| - 1]);
      assert (a + b)[..|a + b| - 1] == a + b[..|b| - 1];
    }
  }
}
