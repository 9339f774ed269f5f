/** The brand's discount-code screen, mobile-client/src/screens/DiscountCodesScreen.tsx:
    the usage bar, the status badge and its colour, and the create form's guard, request
    and reset. Times are JavaScript milliseconds; an expiry that does not parse is None
    (a Date whose comparisons are all false). */
module DiscountCodesScreen {
  import opened Wrappers
  import opened Strings
  import Discount

  /** The fields of a listed code the screen reads. */
  datatype ClientCode = ClientCode(code: string, usedCount: int, maxUses: int, expiresAt: Option<int>)

  /** The create form's text fields. */
  datatype CodeForm = CodeForm(eventId: string, discountPct: string, maxUses: string, expiresIn: string)

  const EmptyForm := CodeForm("", "", "", "30")

  /** The body sent to generateDiscountCode: the percentage through parseFloat, the limit
      and expiry through parseInt; None is NaN, which JSON.stringify sends as null. */
  datatype GenerateRequest = GenerateRequest(eventId: string, discountPct: Option<Decimal>, maxUses: Option<int>,
                                             expiresIn: Option<int>)

  /** getUsagePercentage. */
  function UsagePercentage(used: int, max: int): (p: real)
    ensures max <= 0 ==> p == 0.0
    ensures max > 0 ==> p * max as real == used as real * 100.0
  {
    if max > 0 then (used as real / max as real) * 100.0 else 0.0
  }

  predicate Expired(c: ClientCode, now: int) {
    c.expiresAt.Some? && c.expiresAt.value < now
  }

  /** getStatusText: expiry first, then the count, else active. */
  function StatusText(c: ClientCode, now: int): (t: string)
    ensures t == "Expired" <==> Expired(c, now)
    ensures t == "Used Up" <==> !Expired(c, now) && c.usedCount >= c.maxUses
    ensures t == "Active" <==> !Expired(c, now) && c.usedCount < c.maxUses
  {
    if Expired(c, now) then "Expired"
    else if c.usedCount >= c.maxUses then "Used Up"
    else "Active"
  }

  /** getStatusColor. */
  function StatusColor(c: ClientCode, now: int): string {
    if Expired(c, now) then "#dc3545"
    else if c.usedCount >= c.maxUses then "#6c757d"
    else "#28a745"
  }

  /** The colour and the text always agree: red with Expired, gray with Used Up, green
      with Active. */
  lemma ColourMatchesText(c: ClientCode, now: int)
    ensures StatusColor(c, now) == "#dc3545" <==> StatusText(c, now) == "Expired"
    ensures StatusColor(c, now) == "#6c757d" <==> StatusText(c, now) == "Used Up"
    ensures StatusColor(c, now) == "#28a745" <==> StatusText(c, now) == "Active"
  {
  }

  /** A full bar is at 100 percent, and a bar under the limit below it. */
  lemma UsageBounds(used: int, max: int)
    requires 0 <= used && max > 0
    ensures used >= max <==> UsagePercentage(used, max) >= 100.0
  {
    var p := UsagePercentage(used, max);
    assert p * max as real == used as real * 100.0;
    if used >= max {
      assert (p - 100.0) * max as real >= 0.0;
    } else {
      assert (p - 100.0) * max as real < 0.0;
    }
  }

  /** A code the server treats as unlimited (maxUses 0) and still valid is shown here as
      "Used Up". */
  lemma UnlimitedShownUsedUp(dc: Discount.DiscountCode, serverNow: int, c: ClientCode, now: int)
    requires dc.maxUses == 0 && dc.expiresAt > serverNow
    requires c.maxUses == dc.maxUses && c.usedCount == dc.usedCount && dc.usedCount >= 0 && !Expired(c, now)
    ensures Discount.Redeemable(dc, serverNow)
    ensures StatusText(c, now) == "Used Up"
  {
  }

  /** The request built from a filled form. */
  function RequestOf(f: CodeForm): GenerateRequest {
    GenerateRequest(f.eventId, ParseFloat(f.discountPct), ParseInt(f.maxUses), ParseInt(f.expiresIn))
  }

  /** The percentage is read up to its first character that cannot continue a number,
      keeps a fraction, and is null when the text does not start with one. */
  lemma PercentageParsed(f: CodeForm)
    ensures RequestOf(f.(discountPct := "12abc")).discountPct == Some(Decimal(false, 12, 0))
    ensures RequestOf(f.(discountPct := "12.5")).discountPct == Some(Decimal(false, 125, -1))
    ensures DecimalValue(Decimal(false, 12, 0)) == 12.0 && DecimalValue(Decimal(false, 125, -1)) == 12.5
    ensures RequestOf(f.(discountPct := "abc")).discountPct == None
  {
    TwelveAndAHalfValue();
    ParseFloatTwelve();
    ParseFloatTwelveAndAHalf();
    ParseFloatLetters();
  }

  lemma TwelveAndAHalfValue()
    ensures DecimalValue(Decimal(false, 12, 0)) == 12.0 && DecimalValue(Decimal(false, 125, -1)) == 12.5
  {
    assert Pow10(0) == 1 && Pow10(1) == 10;
  }

  lemma ParseFloatLetters()
    ensures ParseFloat("abc") == None
  {
    assert TrimLeft("abc", JsSpace) == "abc";
  }

  lemma ParseFloatTwelve()
    ensures ParseFloat("12abc") == Some(Decimal(false, 12, 0))
  {
    assert TrimLeft("12abc", JsSpace) == "12abc";
    UnsignedTwelve();
  }

  lemma UnsignedTwelve()
    ensures ParseUnsignedFloat("12abc") == Some(Decimal(false, 12, 0))
  {
    var u := "12abc";
    TwelveRuns();
    assert u[..2] + [] == "12" && u[2..] == "abc";
    assert DigitsValue("12", 10) == 12 by {
      assert "12"[..1] == "1";
    }
  }

  lemma TwelveRuns()
    ensures DigitRun("12abc", 10) == 2
  {
    var u := "12abc";
    assert DigitRun(u[2..], 10) == 0;
    assert DigitRun(u[1..], 10) == 1;
  }

  lemma ParseFloatTwelveAndAHalf()
    ensures ParseFloat("12.5") == Some(Decimal(false, 125, -1))
  {
    assert TrimLeft("12.5", JsSpace) == "12.5";
    UnsignedTwelveAndAHalf();
  }

  lemma UnsignedTwelveAndAHalf()
    ensures ParseUnsignedFloat("12.5") == Some(Decimal(false, 125, -1))
  {
    var u := "12.5";
    TwelveAndAHalfRuns();
    assert u[2..] == ".5" && ".5"[1..] == "5";
    assert "5"[..1] == "5" && ".5"[2..] == [];
    assert u[..2] + "5" == "125";
    assert DigitsValue("125", 10) == 125 by {
      assert "125"[..2] == "12";
      assert "12"[..1] == "1";
    }
  }

  lemma TwelveAndAHalfRuns()
    ensures DigitRun("12.5", 10) == 2 && DigitRun("5", 10) == 1
  {
    var u := "12.5";
    assert DigitRun(u[2..], 10) == 0;
    assert DigitRun(u[1..], 10) == 1;
    assert DigitRun("5"[1..], 10) == 0;
  }

  predicate Filled(f: CodeForm) {
    f.eventId != "" && f.discountPct != "" && f.maxUses != ""
  }

  class DiscountCodesController {
    var codes: seq<ClientCode>
    var loading: bool
    var showCreateModal: bool
    var newCode: CodeForm
    var alerts: seq<(string, string)>
    var requests: seq<GenerateRequest>

    constructor ()
      ensures codes == [] && loading && !showCreateModal && newCode == EmptyForm && alerts == [] && requests == []
    {
      codes := [];
      loading := true;
      showCreateModal := false;
      newCode := EmptyForm;
      alerts := [];
      requests := [];
    }

    /** loadCodes with what getBrandCodes answered. */
    method LoadCodes(response: Result<seq<ClientCode>>)
      modifies this
      ensures !loading
      ensures response.Ok? ==> codes == response.value && alerts == old(alerts)
      ensures response.Err? ==> codes == old(codes) && alerts == old(alerts) + [("Error", "Failed to load discount codes")]
      ensures showCreateModal == old(showCreateModal) && newCode == old(newCode) && requests == old(requests)
    {
      loading := true;
      if response.Ok? {
        codes := response.value;
      } else {
        alerts := alerts + [("Error", "Failed to load discount codes")];
      }
      loading := false;
    }

    /** createCode: `apiError` is the error generateDiscountCode rejects with, and `reload`
        what the list query answers afterwards. */
    method CreateCode(apiError: Option<string>, reload: Result<seq<ClientCode>>)
      modifies this
      ensures !Filled(old(newCode)) ==>
        (alerts == old(alerts) + [("Error", "Please fill in all required fields")] && requests == old(requests)
         && newCode == old(newCode) && codes == old(codes) && loading == old(loading)
         && showCreateModal == old(showCreateModal))
      ensures Filled(old(newCode)) ==> requests == old(requests) + [RequestOf(old(newCode))]
      ensures Filled(old(newCode)) && apiError.Some? ==>
        (alerts == old(alerts) + [("Error", "Failed to create discount code")] && newCode == old(newCode)
         && codes == old(codes) && loading == old(loading) && showCreateModal == old(showCreateModal))
      ensures Filled(old(newCode)) && apiError.None? ==>
        (newCode == EmptyForm && !showCreateModal && !loading
         && (reload.Ok? ==> codes == reload.value && alerts == old(alerts) + [("Success", "Discount code created successfully!")])
         && (reload.Err? ==>
               (codes == old(codes)
                && alerts == old(alerts) + [("Success", "Discount code created successfully!")] + [("Error", "Failed to load discount codes")])))
    {
      if !Filled(newCode) {
        alerts := alerts + [("Error", "Please fill in all required fields")];
        return;
      }
      Submit();
      if apiError.Some? {
        alerts := alerts + [("Error", "Failed to create discount code")];
        return;
      }
      Created(reload);
    }

    /** generateDiscountCode's request body, built from the form as it stands. */
    method Submit()
      modifies this
      ensures requests == old(requests) + [RequestOf(newCode)]
      ensures newCode == old(newCode) && alerts == old(alerts) && codes == old(codes) && loading == old(loading)
      ensures showCreateModal == old(showCreateModal)
    {
      requests := requests + [RequestOf(newCode)];
    }

    /** The tail of createCode once the code exists: the success alert, the form closed
        and reset, and the list reloaded. createCode calls loadCodes without awaiting it,
        so when it returns the source is still loading and the codes arrive later; the
        model gives the settled state, with the reload run to completion. */
    method Created(reload: Result<seq<ClientCode>>)
      modifies this
      ensures newCode == EmptyForm && !showCreateModal && !loading && requests == old(requests)
      ensures reload.Ok? ==> codes == reload.value && alerts == old(alerts) + [("Success", "Discount code created successfully!")]
      ensures reload.Err? ==>
        (codes == old(codes)
         && alerts == old(alerts) + [("Success", "Discount code created successfully!")] + [("Error", "Failed to load discount codes")])
    {
      alerts := alerts + [("Success", "Discount code created successfully!")];
      showCreateModal := false;
      newCode := EmptyForm;
      LoadCodes(reload);
    }
  }
}
