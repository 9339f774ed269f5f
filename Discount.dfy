/** The discount-code service of backend/internal/services/discount.go over its
    own view of the `discount_codes` and `code_redemptions` tables. The random
    bytes, the clock (nanoseconds) and every failing statement are parameters. */
module Discount {
  import opened Wrappers
  import opened Strings

  type byte = x: int | 0 <= x < 256

  const Charset := "ABCDEFGHIJKLMNOPQRSTUVWXYZ0123456789"
  const CodeLength := 8

  datatype DiscountCode = DiscountCode(id: string, code: string, eventID: string, brandID: string,
                                       discountPct: real, maxUses: int, usedCount: int,
                                       expiresAt: int, createdAt: int)

  datatype CodeRedemption = CodeRedemption(id: string, codeID: string, userID: string, orderID: string,
                                           amount: real, createdAt: int)

  /** The condition of ValidateCode's WHERE clause past the code match; a `maxUses` of 0
      means unlimited. */
  predicate Redeemable(dc: DiscountCode, now: int) {
    dc.expiresAt > now && (dc.maxUses == 0 || dc.usedCount < dc.maxUses)
  }

  /** The first row of the table with the code text that is still redeemable. */
  function FirstValid(codes: seq<DiscountCode>, code: string, now: int): (r: Option<DiscountCode>)
    ensures r.Some? ==> r.value in codes && r.value.code == code && Redeemable(r.value, now)
    ensures r.None? <==> forall k :: 0 <= k < |codes| ==> !(codes[k].code == code && Redeemable(codes[k], now))
  {
    if codes == [] then None
    else if codes[0].code == code && Redeemable(codes[0], now) then Some(codes[0])
    else
      var r := FirstValid(codes[1..], code, now);
      assert forall k :: 1 <= k < |codes| ==> codes[k] == codes[1..][k - 1];
      r
  }

  /** The table after `UPDATE ... SET used_count = used_count + 1 WHERE id = codeID`. */
  function Incremented(codes: seq<DiscountCode>, codeID: string): (r: seq<DiscountCode>)
    ensures |r| == |codes|
  {
    seq(|codes|, k requires 0 <= k < |codes| =>
      if codes[k].id == codeID then codes[k].(usedCount := codes[k].usedCount + 1) else codes[k])
  }

  /** generateUniqueCode over the eight bytes crypto/rand supplies. */
  method GenerateUniqueCode(b: seq<byte>) returns (code: string)
    requires |b| == CodeLength
    ensures |code| == CodeLength
    ensures forall i :: 0 <= i < CodeLength ==> code[i] == Charset[b[i] % |Charset|] && code[i] in Charset
  {
    code := "";
    var i := 0;
    while i < |b|
      invariant 0 <= i <= |b|
      invariant |code| == i
      invariant forall j :: 0 <= j < i ==> code[j] == Charset[b[j] % |Charset|]
    {
      code := code + [Charset[b[i] % |Charset|]];
      i := i + 1;
    }
  }

  /** A failing step of RedeemCode's transaction. */
  datatype TxFault =
    | NoFault
    | BeginFails(error: string)
    | InsertFails(error: string)
    | UpdateFails(error: string)
    | CommitFails(error: string)

  /** The error RedeemCode returns for a fault; a begin or commit error is passed through. */
  function RedeemError(fault: TxFault): (r: Option<string>)
    ensures r.None? <==> fault == NoFault
    ensures fault.InsertFails? ==> r == Some("failed to record redemption: " + fault.error)
    ensures fault.UpdateFails? ==> r == Some("failed to update code usage: " + fault.error)
    ensures fault.BeginFails? || fault.CommitFails? ==> r == Some(fault.error)
  {
    match fault
    case NoFault => None
    case BeginFails(e) => Some(e)
    case InsertFails(e) => Some("failed to record redemption: " + e)
    case UpdateFails(e) => Some("failed to update code usage: " + e)
    case CommitFails(e) => Some(e)
  }

  /** One row of the analytics query; `revenue` is the fifth column as scanned. */
  datatype CodeStats = CodeStats(code: string, discountPct: real, usedCount: int, maxUses: int, revenue: real)

  function SumUsed(codes: seq<CodeStats>): int {
    if codes == [] then 0 else SumUsed(codes[..|codes| - 1]) + codes[|codes| - 1].usedCount
  }

  function SumRevenue(codes: seq<CodeStats>): real {
    if codes == [] then 0.0 else SumRevenue(codes[..|codes| - 1]) + codes[|codes| - 1].revenue
  }

  lemma SumsAppend(codes: seq<CodeStats>, c: CodeStats)
    ensures SumUsed(codes + [c]) == SumUsed(codes) + c.usedCount
    ensures SumRevenue(codes + [c]) == SumRevenue(codes) + c.revenue
  {
    assert (codes + [c])[..|codes|] == codes;
  }

  datatype Analytics = Analytics(codes: seq<CodeStats>, totalRedemptions: int, totalRevenue: real)

  /** GetCodeAnalytics over the rows the query returned. */
  method GetCodeAnalytics(query: Result<seq<Result<CodeStats>>>) returns (r: Result<Analytics>)
    ensures query.Err? ==> r == Err("failed to get code analytics: " + query.error)
    ensures query.Ok? ==> (r.Ok? && r.value.codes == Scanned(query.value)
      && r.value.totalRedemptions == SumUsed(r.value.codes) && r.value.totalRevenue == SumRevenue(r.value.codes))
  {
    if query.Err? {
      return Err("failed to get code analytics: " + query.error);
    }
    var a := Summarize(query.value);
    return Ok(a);
  }

  /** The scan loop of GetCodeAnalytics: the rows that scan, with the totals over them. */
  method Summarize(rows: seq<Result<CodeStats>>) returns (a: Analytics)
    ensures a.codes == Scanned(rows)
    ensures a.totalRedemptions == SumUsed(a.codes) && a.totalRevenue == SumRevenue(a.codes)
  {
    var codes: seq<CodeStats> := [];
    var totalRedemptions := 0;
    var totalRevenue := 0.0;
    var i := 0;
    while i < |rows|
      invariant 0 <= i <= |rows|
      invariant codes == Scanned(rows[..i])
      invariant totalRedemptions == SumUsed(codes) && totalRevenue == SumRevenue(codes)
    {
      ScannedStep(rows, i);
      if rows[i].Ok? {
        var c := rows[i].value;
        SumsAppend(codes, c);
        codes := codes + [c];
        totalRedemptions := totalRedemptions + c.usedCount;
        totalRevenue := totalRevenue + c.revenue;
      }
      i := i + 1;
    }
    assert rows[..i] == rows;
    a := Analytics(codes, totalRedemptions, totalRevenue);
  }

  class DiscountService {
    var codes: seq<DiscountCode>
    var redemptions: seq<CodeRedemption>

    constructor ()
      ensures codes == [] && redemptions == []
    {
      codes := [];
      redemptions := [];
    }

    /** GenerateCode at `now`: a fresh code with no uses, or the insert's error. */
    method GenerateCode(eventID: string, brandID: string, discountPct: real, maxUses: int, expiresAt: int,
                        now: nat, random: seq<byte>, insertError: Option<string>) returns (r: Result<DiscountCode>)
      requires |random| == CodeLength
      modifies this
      ensures insertError.Some? ==> r == Err("failed to create discount code: " + insertError.value) && codes == old(codes)
      ensures insertError.None? ==> (r.Ok? && codes == old(codes) + [r.value]
        && r.value.id == "discount_" + NatToString(now) && |r.value.code| == CodeLength
        && (forall i :: 0 <= i < CodeLength ==> r.value.code[i] == Charset[random[i] % |Charset|])
        && r.value.usedCount == 0 && r.value.eventID == eventID && r.value.brandID == brandID
        && r.value.discountPct == discountPct && r.value.maxUses == maxUses
        && r.value.expiresAt == expiresAt && r.value.createdAt == now)
      ensures redemptions == old(redemptions)
    {
      var code := GenerateUniqueCode(random);
      var codeID := "discount_" + NatToString(now);
      if insertError.Some? {
        return Err("failed to create discount code: " + insertError.value);
      }
      var dc := DiscountCode(codeID, code, eventID, brandID, discountPct, maxUses, 0, expiresAt, now);
      codes := codes + [dc];
      return Ok(dc);
    }

    /** ValidateCode at `now`: any failure of the query or its scan (`queryFails`) reads
        as an invalid code, as does the absence of a redeemable row. */
    method ValidateCode(code: string, now: int, queryFails: bool) returns (r: Result<DiscountCode>)
      ensures r.Ok? ==> r.value in codes && r.value.code == code && Redeemable(r.value, now)
      ensures queryFails ==> r.Err?
      ensures !queryFails ==> (r.Err? <==> forall k :: 0 <= k < |codes| ==> !(codes[k].code == code && Redeemable(codes[k], now)))
      ensures r.Err? ==> r.error == "invalid or expired discount code"
    {
      if queryFails {
        return Err("invalid or expired discount code");
      }
      match FirstValid(codes, code, now)
      case Some(dc) => return Ok(dc);
      case None => return Err("invalid or expired discount code");
    }

    /** RedeemCode at `now`: one redemption row and one more use, both or neither. Like the
        source, it does not re-check that the code is valid or exists. */
    method RedeemCode(codeID: string, userID: string, orderID: string, amount: real, now: nat, fault: TxFault)
      returns (r: Result<CodeRedemption>)
      modifies this
      ensures fault != NoFault ==> r == Err(RedeemError(fault).value) && codes == old(codes) && redemptions == old(redemptions)
      ensures fault == NoFault ==> (r.Ok? && r.value == CodeRedemption("redemption_" + NatToString(now), codeID, userID, orderID, amount, now)
        && redemptions == old(redemptions) + [r.value] && codes == Incremented(old(codes), codeID))
    {
      var redemptionID := "redemption_" + NatToString(now);
      if fault != NoFault {
        return Err(RedeemError(fault).value);
      }
      var redemption := CodeRedemption(redemptionID, codeID, userID, orderID, amount, now);
      redemptions := redemptions + [redemption];
      codes := Incremented(codes, codeID);
      return Ok(redemption);
    }
  }

  // ---------------------------------------------------------------------------
  // Properties

  /** A freshly generated code that has not expired validates (perhaps as an older code
      of the same text, since the query takes the first match). */
  lemma GeneratedCodeValidates(codes: seq<DiscountCode>, dc: DiscountCode, now: int)
    requires dc.usedCount == 0 && dc.maxUses >= 0 && dc.expiresAt > now
    ensures FirstValid(codes + [dc], dc.code, now).Some?
  {
    assert (codes + [dc])[|codes|] == dc;
  }

  /** Unlimited codes (maxUses 0) stay redeemable until they expire, whatever their count. */
  lemma UnlimitedNeverUsedUp(dc: DiscountCode, now: int)
    requires dc.maxUses == 0
    ensures Redeemable(dc, now) <==> dc.expiresAt > now
  {
  }

  /** A limited code is used up once it reaches its count, and one more use never makes
      a used-up code valid again. */
  lemma LimitedUsedUp(dc: DiscountCode, now: int)
    requires dc.maxUses > 0
    ensures dc.usedCount >= dc.maxUses ==> !Redeemable(dc, now)
    ensures Redeemable(dc.(usedCount := dc.usedCount + 1), now) ==> Redeemable(dc, now)
  {
  }

  /** Redeeming increments exactly the named code by one and leaves every other row alone. */
  lemma IncrementedExactly(codes: seq<DiscountCode>, codeID: string, k: nat)
    requires k < |codes|
    ensures codes[k].id == codeID ==> Incremented(codes, codeID)[k] == codes[k].(usedCount := codes[k].usedCount + 1)
    ensures codes[k].id != codeID ==> Incremented(codes, codeID)[k] == codes[k]
  {
  }

  /** The analytics totals over a split of the rows are the sums of the parts. */
  lemma {:induction false} SumsSplit(a: seq<CodeStats>, b: seq<CodeStats>)
    ensures SumUsed(a + b) == SumUsed(a) + SumUsed(b)
    ensures SumRevenue(a + b) == SumRevenue(a) + SumRevenue(b)
  {
    if b == [] {
      assert a + b == a;
    } else {
      var init := b[..|b| - 1];
      SumsSplit(a, init);
      assert (a + b)[..|a + b| - 1] == a + init;
    }
  }
}
