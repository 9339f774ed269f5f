/** The brand's survey builder, mobile-client/src/screens/BrandSurveyScreen.tsx: the draft
    form, its question and option edits, and createSurvey's guard, request and reset. */
module BrandSurveyScreen {
  import opened Wrappers
  import opened Strings

  datatype QuestionDraft = QuestionDraft(question: string, kind: string, options: seq<string>)

  const DefaultQuestion := QuestionDraft("", "multiple_choice", [""])

  datatype SurveyForm = SurveyForm(eventId: string, title: string, description: string, rewardPoints: string,
                                   questions: seq<QuestionDraft>)

  const EmptySurveyForm := SurveyForm("", "", "", "50", [DefaultQuestion])

  /** What scheduleSurveys is sent for an event; a reward parseInt rejects is None (NaN). */
  datatype ScheduleRequest = ScheduleRequest(eventId: string, title: string, description: string,
                                             questions: seq<QuestionDraft>, rewardPoints: Option<int>)

  /** The field updateQuestion sets, with its new value. */
  datatype QuestionEdit = SetQuestion(text: string) | SetKind(kind: string) | SetOptions(options: seq<string>)

  function Edited(q: QuestionDraft, edit: QuestionEdit): (r: QuestionDraft)
    ensures edit.SetQuestion? ==> r == q.(question := edit.text)
    ensures edit.SetKind? ==> r == q.(kind := edit.kind)
    ensures edit.SetOptions? ==> r == q.(options := edit.options)
  {
    match edit
    case SetQuestion(t) => q.(question := t)
    case SetKind(k) => q.(kind := k)
    case SetOptions(o) => q.(options := o)
  }

  class BrandSurveyController {
    var newSurvey: SurveyForm
    var showCreateModal: bool
    var alerts: seq<(string, string)>
    var requests: seq<ScheduleRequest>

    constructor ()
      ensures newSurvey == EmptySurveyForm && !showCreateModal && alerts == [] && requests == []
    {
      newSurvey := EmptySurveyForm;
      showCreateModal := false;
      alerts := [];
      requests := [];
    }

    /** createSurvey; `apiError` is the error scheduleSurveys rejects with. */
    method CreateSurvey(apiError: Option<string>)
      modifies this
      ensures old(newSurvey).title == "" || old(newSurvey).eventId == "" ==>
        (alerts == old(alerts) + [("Error", "Please fill in required fields")] && requests == old(requests)
         && newSurvey == old(newSurvey) && showCreateModal == old(showCreateModal))
      ensures old(newSurvey).title != "" && old(newSurvey).eventId != "" ==>
        (var f := old(newSurvey);
         requests == old(requests) + [ScheduleRequest(f.eventId, f.title, f.description, f.questions, ParseInt(f.rewardPoints))]
         && (apiError.None? ==>
               (alerts == old(alerts) + [("Success", "Survey created successfully!")]
                && !showCreateModal && newSurvey == EmptySurveyForm))
         && (apiError.Some? ==>
               (alerts == old(alerts) + [("Error", "Failed to create survey")]
                && showCreateModal == old(showCreateModal) && newSurvey == old(newSurvey))))
    {
      if newSurvey.title == "" || newSurvey.eventId == "" {
        alerts := alerts + [("Error", "Please fill in required fields")];
        return;
      }
      requests := requests + [ScheduleRequest(newSurvey.eventId, newSurvey.title, newSurvey.description,
                                              newSurvey.questions, ParseInt(newSurvey.rewardPoints))];
      if apiError.Some? {
        alerts := alerts + [("Error", "Failed to create survey")];
        return;
      }
      alerts := alerts + [("Success", "Survey created successfully!")];
      showCreateModal := false;
      newSurvey := EmptySurveyForm;
    }

    /** addQuestion: one default question appended. */
    method AddQuestion()
      modifies this
      ensures newSurvey == old(newSurvey).(questions := old(newSurvey).questions + [DefaultQuestion])
      ensures showCreateModal == old(showCreateModal) && alerts == old(alerts) && requests == old(requests)
    {
      newSurvey := newSurvey.(questions := newSurvey.questions + [DefaultQuestion]);
    }

    /** updateQuestion: the named field of the question at `index` replaced. */
    method UpdateQuestion(index: nat, edit: QuestionEdit)
      requires index < |newSurvey.questions|
      modifies this
      ensures |newSurvey.questions| == |old(newSurvey).questions|
      ensures newSurvey.questions[index] == Edited(old(newSurvey).questions[index], edit)
      ensures forall k :: 0 <= k < |newSurvey.questions| && k != index ==> newSurvey.questions[k] == old(newSurvey).questions[k]
      ensures newSurvey.(questions := old(newSurvey).questions) == old(newSurvey)
      ensures showCreateModal == old(showCreateModal) && alerts == old(alerts) && requests == old(requests)
    {
      var updated := newSurvey.questions;
      updated := updated[index := Edited(updated[index], edit)];
      newSurvey := newSurvey.(questions := updated);
    }

    /** addOption: one trailing empty option on the question at `index`. */
    method AddOption(index: nat)
      requires index < |newSurvey.questions|
      modifies this
      ensures |newSurvey.questions| == |old(newSurvey).questions|
      ensures var q := old(newSurvey).questions[index];
        newSurvey.questions[index] == q.(options := q.options + [""])
      ensures forall k :: 0 <= k < |newSurvey.questions| && k != index ==> newSurvey.questions[k] == old(newSurvey).questions[k]
      ensures newSurvey.(questions := old(newSurvey).questions) == old(newSurvey)
      ensures showCreateModal == old(showCreateModal) && alerts == old(alerts) && requests == old(requests)
    {
      var updated := newSurvey.questions;
      var q := updated[index];
      updated := updated[index := q.(options := q.options + [""])];
      newSurvey := newSurvey.(questions := updated);
    }
  }

  /** The reward sent for the default text is 50, and for text that does not start with
      digits it is NaN. */
  lemma RewardPointsParsed()
    ensures ParseInt(EmptySurveyForm.rewardPoints) == Some(50)
    ensures ParseInt("") == None
  {
    ParseIntOfNat(50);
    assert NatToString(50) == "50" by {
      assert NatToString(5) == "5";
    }
  }
}
