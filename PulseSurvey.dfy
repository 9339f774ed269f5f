/** The delayed pulse surveys of backend/internal/services/pulse_survey.go: the fixed
    schedule of three surveys an event gets, the expiry of each, the rule for which
    surveys a user is offered, and the responses that retire them. Times are
    nanoseconds; the `attendances` table is a parameter. */
module PulseSurvey {
  import opened Wrappers
  import opened Strings

  const Hour: int := 60 * 60 * 1_000_000_000
  const Day: int := 24 * Hour

  datatype Question = Question(id: string, text: string, kind: string, options: seq<string>)

  /** One entry of the schedule table. */
  datatype Planned = Planned(surveyType: string, delay: int, questions: seq<Question>)

  const Schedule: seq<Planned> := [
    Planned("24h", 24 * Hour, [
      Question("q1", "How likely are you to recommend this brand?", "scale", []),
      Question("q2", "What was your favorite part of the event?", "text", [])]),
    Planned("72h", 72 * Hour, [
      Question("q1", "Have you visited the brand website since the event?", "boolean", []),
      Question("q2", "Have you made any purchases from this brand?", "boolean", [])]),
    Planned("7d", 7 * 24 * Hour, [
      Question("q1", "How has your perception of the brand changed?", "multiple_choice",
               ["Much better", "Better", "Same", "Worse", "Much worse"]),
      Question("q2", "Would you attend another event by this brand?", "boolean", [])])
  ]

  /** A row of `pulse_surveys`. */
  datatype SurveyRow = SurveyRow(id: string, eventID: string, brandID: string, surveyType: string,
                                 questions: seq<Question>, expiresAt: int, createdAt: int)

  datatype ResponseRow = ResponseRow(surveyID: string, userID: string, completedAt: int)

  /** A survey as GetAvailableSurveys returns it; the query does not select the type. */
  datatype PulseSurvey = PulseSurvey(id: string, eventID: string, brandID: string, surveyType: string,
                                     questions: seq<Question>, expiresAt: int)

  /** The row createSurvey inserts at `now`: open for 24 hours once the delay has passed. */
  function Created(eventID: string, brandID: string, p: Planned, now: nat): (row: SurveyRow)
    ensures row.expiresAt == now + p.delay + 24 * Hour && row.createdAt == now
    ensures row.surveyType == p.surveyType && row.questions == p.questions
  {
    SurveyRow("survey_" + p.surveyType + "_" + eventID + "_" + NatToString(now), eventID, brandID,
              p.surveyType, p.questions, now + p.delay + 24 * Hour, now)
  }

  function CreatedAll(eventID: string, brandID: string, now: nat, n: nat): (rows: seq<SurveyRow>)
    requires n <= |Schedule|
    ensures |rows| == n && forall k :: 0 <= k < n ==> rows[k] == Created(eventID, brandID, Schedule[k], now)
  {
    if n == 0 then [] else CreatedAll(eventID, brandID, now, n - 1) + [Created(eventID, brandID, Schedule[n - 1], now)]
  }

  /** The position of the first insert that fails, at or after `i`; |Schedule| if none does. */
  function FirstFailure(insertError: string -> Option<string>, i: nat): (f: nat)
    requires i <= |Schedule|
    ensures i <= f <= |Schedule|
    ensures forall j :: i <= j < f ==> insertError(Schedule[j].surveyType).None?
    ensures f < |Schedule| ==> insertError(Schedule[f].surveyType).Some?
    decreases |Schedule| - i
  {
    if i == |Schedule| then i
    else if insertError(Schedule[i].surveyType).Some? then i
    else FirstFailure(insertError, i + 1)
  }

  /** The delay in days of the availability query's CASE; NULL for any other type. */
  function DelayDays(surveyType: string): (days: Option<nat>)
    ensures days.Some? <==> surveyType in {"24h", "72h", "7d"}
  {
    if surveyType == "24h" then Some(1)
    else if surveyType == "72h" then Some(3)
    else if surveyType == "7d" then Some(7)
    else None
  }

  predicate Attended(attendances: seq<(string, string)>, userID: string, eventID: string) {
    exists k :: 0 <= k < |attendances| && attendances[k] == (userID, eventID)
  }

  predicate Answered(responses: seq<ResponseRow>, userID: string, surveyID: string) {
    exists k :: 0 <= k < |responses| && responses[k].surveyID == surveyID && responses[k].userID == userID
  }

  /** The WHERE clause of GetAvailableSurveys for one survey row. */
  predicate IsAvailable(s: SurveyRow, userID: string, now: int, attendances: seq<(string, string)>, responses: seq<ResponseRow>) {
    Attended(attendances, userID, s.eventID)
    && s.expiresAt > now
    && !Answered(responses, userID, s.id)
    && DelayDays(s.surveyType).Some? && now >= s.createdAt + DelayDays(s.surveyType).value * Day
  }

  function AsOffered(s: SurveyRow): PulseSurvey {
    PulseSurvey(s.id, s.eventID, s.brandID, "", s.questions, s.expiresAt)
  }

  /** The surveys offered, in table order. */
  function Offered(surveys: seq<SurveyRow>, userID: string, now: int, attendances: seq<(string, string)>,
                   responses: seq<ResponseRow>): (r: seq<PulseSurvey>)
    ensures |r| <= |surveys|
  {
    if surveys == [] then []
    else
      var last := surveys[|surveys| - 1];
      Offered(surveys[..|surveys| - 1], userID, now, attendances, responses)
      + (if IsAvailable(last, userID, now, attendances, responses) then [AsOffered(last)] else [])
  }

  lemma OfferedAppend(surveys: seq<SurveyRow>, s: SurveyRow, userID: string, now: int,
                      attendances: seq<(string, string)>, responses: seq<ResponseRow>)
    ensures Offered(surveys + [s], userID, now, attendances, responses)
      == Offered(surveys, userID, now, attendances, responses)
         + (if IsAvailable(s, userID, now, attendances, responses) then [AsOffered(s)] else [])
  {
    assert (surveys + [s])[..|surveys|] == surveys;
  }

  class PulseSurveyService {
    var surveys: seq<SurveyRow>
    var responses: seq<ResponseRow>

    constructor ()
      ensures surveys == [] && responses == []
    {
      surveys := [];
      responses := [];
    }

    /** ScheduleSurveys at `now`: the three surveys inserted in order, stopping at the first
        insert that fails with an error naming that survey's type. */
    method ScheduleSurveys(eventID: string, brandID: string, now: nat, insertError: string -> Option<string>)
      returns (err: Option<string>)
      modifies this
      ensures var f := FirstFailure(insertError, 0);
        surveys == old(surveys) + CreatedAll(eventID, brandID, now, f)
        && (f < |Schedule| ==> err == Some("failed to schedule " + Schedule[f].surveyType + " survey: "
                                           + insertError(Schedule[f].surveyType).value))
        && (f == |Schedule| ==> err == None)
      ensures responses == old(responses)
    {
      var i := 0;
      while i < |Schedule|
        invariant 0 <= i <= |Schedule|
        invariant FirstFailure(insertError, 0) == FirstFailure(insertError, i)
        invariant surveys == old(surveys) + CreatedAll(eventID, brandID, now, i)
        invariant responses == old(responses)
      {
        var planned := Schedule[i];
        var e := insertError(planned.surveyType);
        if e.Some? {
          return Some("failed to schedule " + planned.surveyType + " survey: " + e.value);
        }
        surveys := surveys + [Created(eventID, brandID, planned, now)];
        i := i + 1;
      }
      return None;
    }

    /** GetAvailableSurveys at `now` for a user, or the query's error. A row for which
        `scans` is false (an `expires_at` the driver cannot parse, say) is skipped. */
    method GetAvailableSurveys(userID: string, now: int, attendances: seq<(string, string)>, queryError: Option<string>,
                               scans: SurveyRow -> bool)
      returns (r: Result<seq<PulseSurvey>>)
      ensures queryError.Some? ==> r == Err("failed to get available surveys: " + queryError.value)
      ensures queryError.None? ==> r == Ok(Offered(Kept(surveys, scans), userID, now, attendances, responses))
    {
      if queryError.Some? {
        return Err("failed to get available surveys: " + queryError.value);
      }
      var rows := surveys;
      var offered: seq<PulseSurvey> := [];
      var i := 0;
      while i < |rows|
        invariant 0 <= i <= |rows|
        invariant offered == Offered(Kept(rows[..i], scans), userID, now, attendances, responses)
      {
        KeptStep(rows, scans, i);
        if scans(rows[i]) {
          OfferedAppend(Kept(rows[..i], scans), rows[i], userID, now, attendances, responses);
          if IsAvailable(rows[i], userID, now, attendances, responses) {
            offered := offered + [AsOffered(rows[i])];
          }
        }
        i := i + 1;
      }
      assert rows[..i] == rows;
      return Ok(offered);
    }

    /** SubmitResponse at `now`: one response row, or the insert's error. */
    method SubmitResponse(userID: string, surveyID: string, now: int, insertError: Option<string>) returns (err: Option<string>)
      modifies this
      ensures insertError.Some? ==> err == Some("failed to submit survey response: " + insertError.value) && responses == old(responses)
      ensures insertError.None? ==> err == None && responses == old(responses) + [ResponseRow(surveyID, userID, now)]
      ensures surveys == old(surveys)
    {
      if insertError.Some? {
        return Some("failed to submit survey response: " + insertError.value);
      }
      responses := responses + [ResponseRow(surveyID, userID, now)];
      return None;
    }
  }

  // ---------------------------------------------------------------------------
  // Properties

  /** The schedule is "24h", "72h", "7d" with delays of 24, 72 and 168 hours, and every
      survey asks the two questions q1 and q2. */
  lemma ScheduleShape()
    ensures |Schedule| == 3
    ensures Schedule[0].surveyType == "24h" && Schedule[1].surveyType == "72h" && Schedule[2].surveyType == "7d"
    ensures Schedule[0].delay == 24 * Hour && Schedule[1].delay == 72 * Hour && Schedule[2].delay == 168 * Hour
    ensures forall k :: 0 <= k < |Schedule| ==>
      |Schedule[k].questions| == 2 && Schedule[k].questions[0].id == "q1" && Schedule[k].questions[1].id == "q2"
  {
  }

  /** A scheduled survey is offered to an attendee who has not answered it exactly during
      the 24 hours that follow its delay. */
  lemma {:induction false} ScheduledWindow(eventID: string, brandID: string, k: nat, created: nat, userID: string, now: int,
                                           attendances: seq<(string, string)>, responses: seq<ResponseRow>)
    requires k < |Schedule|
    requires Attended(attendances, userID, eventID)
    requires !Answered(responses, userID, Created(eventID, brandID, Schedule[k], created).id)
    ensures var s := Created(eventID, brandID, Schedule[k], created);
      IsAvailable(s, userID, now, attendances, responses)
      <==> created + Schedule[k].delay <= now < created + Schedule[k].delay + 24 * Hour
  {
    var s := Created(eventID, brandID, Schedule[k], created);
    assert s.eventID == eventID;
    assert DelayDays(s.surveyType).value * Day == Schedule[k].delay;
  }

  /** Once the user's response is recorded, the survey is no longer offered to them. */
  lemma AnsweredNotOffered(s: SurveyRow, userID: string, now: int, attendances: seq<(string, string)>,
                           responses: seq<ResponseRow>, completedAt: int)
    ensures !IsAvailable(s, userID, now, attendances, responses + [ResponseRow(s.id, userID, completedAt)])
  {
    var rs := responses + [ResponseRow(s.id, userID, completedAt)];
    assert rs[|responses|].surveyID == s.id && rs[|responses|].userID == userID;
  }

  /** A survey of a type outside the schedule is never offered (its delay is NULL). */
  lemma UnknownTypeNeverOffered(s: SurveyRow, userID: string, now: int, attendances: seq<(string, string)>,
                                responses: seq<ResponseRow>)
    requires s.surveyType !in {"24h", "72h", "7d"}
    ensures !IsAvailable(s, userID, now, attendances, responses)
  {
  }

  /** Offered lists exactly the available rows, in table order. */
  lemma {:induction false} OfferedExactly(surveys: seq<SurveyRow>, userID: string, now: int,
                                          attendances: seq<(string, string)>, responses: seq<ResponseRow>)
    ensures forall s :: (s in surveys && IsAvailable(s, userID, now, attendances, responses)
      ==> AsOffered(s) in Offered(surveys, userID, now, attendances, responses))
    ensures forall o :: (o in Offered(surveys, userID, now, attendances, responses)
      ==> exists s :: s in surveys && IsAvailable(s, userID, now, attendances, responses) && o == AsOffered(s))
  {
    if surveys != [] {
      var init := surveys[..|surveys| - 1];
      OfferedExactly(init, userID, now, attendances, responses);
      assert surveys == init + [surveys[|surveys| - 1]];
    }
  }
}
