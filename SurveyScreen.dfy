/** A user's survey screen, mobile-client/src/screens/SurveyScreen.tsx: the list loaded
    (or the built-in sample when loading fails), starting a survey, answering its
    questions, and the submission with its completeness check and bookkeeping. */
module SurveyScreen {
  import opened Wrappers
  import opened Strings

  datatype SurveyQuestion = SurveyQuestion(id: string, kind: string, question: string, options: seq<string>)

  datatype Survey = Survey(id: string, title: string, description: string, eventName: string, reward: int,
                           questions: seq<SurveyQuestion>)

  /** What submitSurveyResponse sends: the survey's id and the answers as they are. */
  datatype SurveySubmission = SurveySubmission(surveyId: string, responses: map<string, string>)

  /** The survey shown when the list cannot be loaded. */
  const SampleSurvey := Survey("survey_1", "Event Experience Survey", "Tell us about your experience at the event",
    "Tech Conference 2024", 50, [
      SurveyQuestion("q1", "multiple_choice", "How would you rate the overall event?", ["Excellent", "Good", "Average", "Poor"]),
      SurveyQuestion("q2", "text", "What did you like most about the event?", [])])

  /** A question with no answer, or an answer that is blank once trimmed. */
  predicate Unanswered(q: SurveyQuestion, responses: map<string, string>) {
    q.id !in responses || Trim(responses[q.id], JsSpace) == ""
  }

  /** The unanswered questions, in order. */
  function UnansweredQuestions(questions: seq<SurveyQuestion>, responses: map<string, string>): (r: seq<SurveyQuestion>)
    ensures |r| <= |questions|
    ensures forall k :: 0 <= k < |r| ==> r[k] in questions && Unanswered(r[k], responses)
  {
    if questions == [] then []
    else
      var last := questions[|questions| - 1];
      UnansweredQuestions(questions[..|questions| - 1], responses) + (if Unanswered(last, responses) then [last] else [])
  }

  /** Nothing is left unanswered exactly when every question has a non-blank answer. */
  lemma {:induction false} AllAnswered(questions: seq<SurveyQuestion>, responses: map<string, string>)
    ensures UnansweredQuestions(questions, responses) == [] <==>
      forall k :: 0 <= k < |questions| ==> questions[k].id in responses && Trim(responses[questions[k].id], JsSpace) != ""
  {
    if questions != [] {
      var init := questions[..|questions| - 1];
      AllAnswered(init, responses);
      assert forall k :: 0 <= k < |init| ==> init[k] == questions[k];
    }
  }

  /** The surveys other than the one with `id`, in their order. */
  function Without(surveys: seq<Survey>, id: string): (r: seq<Survey>)
    ensures |r| <= |surveys|
    ensures forall k :: 0 <= k < |r| ==> r[k] in surveys && r[k].id != id
  {
    if surveys == [] then []
    else
      var last := surveys[|surveys| - 1];
      Without(surveys[..|surveys| - 1], id) + (if last.id != id then [last] else [])
  }

  /** Removal distributes over concatenation, so the surveys that stay keep their order. */
  lemma {:induction false} WithoutConcat(a: seq<Survey>, b: seq<Survey>, id: string)
    ensures Without(a + b, id) == Without(a, id) + Without(b, id)
  {
    if b == [] {
      assert a + b == a;
    } else {
      WithoutConcat(a, b[..|b| - 1], id);
      assert (a + b)[..|a + b| - 1] == a + b[..|b| - 1];
    }
  }

  /** Exactly the surveys with another id stay. */
  lemma {:induction false} WithoutExactly(surveys: seq<Survey>, id: string, s: Survey)
    ensures s in Without(surveys, id) <==> s in surveys && s.id != id
  {
    if surveys != [] {
      var init := surveys[..|surveys| - 1];
      WithoutExactly(init, id, s);
      assert surveys == init + [surveys[|surveys| - 1]];
    }
  }

  class SurveyController {
    var availableSurveys: seq<Survey>
    var completedSurveys: set<string>
    var currentSurvey: Option<Survey>
    var responses: map<string, string>
    var alerts: seq<(string, string)>
    var submissions: seq<SurveySubmission>

    constructor ()
      ensures availableSurveys == [] && completedSurveys == {} && currentSurvey == None && responses == map[]
      ensures alerts == [] && submissions == []
    {
      availableSurveys := [];
      completedSurveys := {};
      currentSurvey := None;
      responses := map[];
      alerts := [];
      submissions := [];
    }

    /** loadAvailableSurveys with what getAvailableSurveys answered. */
    method LoadAvailableSurveys(response: Result<seq<Survey>>)
      modifies this
      ensures response.Ok? ==> availableSurveys == response.value
      ensures response.Err? ==> availableSurveys == [SampleSurvey]
      ensures completedSurveys == old(completedSurveys) && currentSurvey == old(currentSurvey)
      ensures responses == old(responses) && alerts == old(alerts) && submissions == old(submissions)
    {
      if response.Ok? {
        availableSurveys := response.value;
      } else {
        availableSurveys := [SampleSurvey];
      }
    }

    /** startSurvey: the survey becomes current with no answers. */
    method StartSurvey(survey: Survey)
      modifies this
      ensures currentSurvey == Some(survey) && responses == map[]
      ensures availableSurveys == old(availableSurveys) && completedSurveys == old(completedSurveys)
      ensures alerts == old(alerts) && submissions == old(submissions)
    {
      currentSurvey := Some(survey);
      responses := map[];
    }

    /** updateResponse: one answer set, every other answer kept. */
    method UpdateResponse(questionId: string, answer: string)
      modifies this
      ensures questionId in responses && responses[questionId] == answer
      ensures forall k :: k != questionId ==> (k in responses <==> k in old(responses))
      ensures forall k :: k != questionId && k in old(responses) ==> responses[k] == old(responses)[k]
      ensures availableSurveys == old(availableSurveys) && completedSurveys == old(completedSurveys)
      ensures currentSurvey == old(currentSurvey) && alerts == old(alerts) && submissions == old(submissions)
    {
      responses := responses[questionId := answer];
    }

    /** submitSurvey; `apiError` is the error submitSurveyResponse rejects with. With no
        current survey the property access throws and the failure alert is shown. */
    method SubmitSurvey(apiError: Option<string>)
      modifies this
      ensures currentSurvey == old(currentSurvey) && responses == old(responses)
      ensures old(currentSurvey).None? ==>
        (alerts == old(alerts) + [("Error", "Failed to submit survey")] && submissions == old(submissions)
         && availableSurveys == old(availableSurveys) && completedSurveys == old(completedSurveys))
      ensures old(currentSurvey).Some? && UnansweredQuestions(old(currentSurvey).value.questions, old(responses)) != [] ==>
        (alerts == old(alerts) + [("Error", "Please answer all questions")] && submissions == old(submissions)
         && availableSurveys == old(availableSurveys) && completedSurveys == old(completedSurveys))
      ensures old(currentSurvey).Some? && UnansweredQuestions(old(currentSurvey).value.questions, old(responses)) == [] ==>
        (var s := old(currentSurvey).value;
         submissions == old(submissions) + [SurveySubmission(s.id, old(responses))]
         && (apiError.Some? ==>
               (alerts == old(alerts) + [("Error", "Failed to submit survey")]
                && availableSurveys == old(availableSurveys) && completedSurveys == old(completedSurveys)))
         && (apiError.None? ==>
               (alerts == old(alerts) + [("Success", "Survey submitted! You earned " + IntToString(s.reward) + " points.")]
                && availableSurveys == Without(old(availableSurveys), s.id)
                && completedSurveys == old(completedSurveys) + {s.id})))
    {
      if currentSurvey.None? {
        alerts := alerts + [("Error", "Failed to submit survey")];
        return;
      }
      var survey := currentSurvey.value;
      var unanswered := UnansweredQuestions(survey.questions, responses);
      if |unanswered| > 0 {
        alerts := alerts + [("Error", "Please answer all questions")];
        return;
      }
      submissions := submissions + [SurveySubmission(survey.id, responses)];
      if apiError.Some? {
        alerts := alerts + [("Error", "Failed to submit survey")];
        return;
      }
      completedSurveys := completedSurveys + {survey.id};
      availableSurveys := Without(availableSurveys, survey.id);
      alerts := alerts + [("Success", "Survey submitted! You earned " + IntToString(survey.reward) + " points.")];
    }

    /** The success alert's OK button: back to the list with no answers. */
    method DismissSuccess()
      modifies this
      ensures currentSurvey == None && responses == map[]
      ensures availableSurveys == old(availableSurveys) && completedSurveys == old(completedSurveys)
      ensures alerts == old(alerts) && submissions == old(submissions)
    {
      currentSurvey := None;
      responses := map[];
    }
  }

  /** A survey just started cannot be submitted until each of its questions is answered:
      with any question, nothing is answered yet. */
  lemma FreshSurveyUnanswered(s: Survey)
    requires |s.questions| > 0
    ensures UnansweredQuestions(s.questions, map[]) != []
  {
    AllAnswered(s.questions, map[]);
  }
}
