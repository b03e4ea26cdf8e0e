/**
 * The interview kept in the user's session: the stored question list and the
 * answers given so far, advanced by submit_answer (app.py:308-333).
 */
module Interview {
  import opened Wrappers
  import opened Services
  import opened Feedback

  const AnswerRequired := "Answer is required"
  const QuestionsMissing := "Questions are missing in session."

  /** The session keys "questions" (None when absent) and "responses" ([] when absent). */
  datatype Session = Session(questions: Option<seq<string>>, responses: seq<string>)

  /** The JSON reply of /answer: an "error", a "next_question" or the "final_feedback". */
  datatype SubmitReply =
    | SubmitError(message: string)
    | NextQuestion(question: string)
    | FinalFeedback(feedback: string)

  /**
   * What the final-feedback branch replies with, given the stored questions
   * and responses. submit_answer uses GeneratedFeedback; the lemmas about
   * runs of submits hold for any reviewer. A run fixes one reviewer, so it
   * models a chat service that answers a request the same way every time.
   */
  type Reviewer = (seq<string>, seq<string>) -> string

  /** generate_final_feedback with the chat service fixed. */
  function GeneratedFeedback(generate: Generator): Reviewer
  {
    (questions, responses) => FeedbackOf(questions, responses, generate)
  }

  /** session['questions'] = questions (app.py:301): the stored responses stay as they were. */
  function WithQuestions(s: Session, questions: seq<string>): (t: Session)
    ensures t.questions == Some(questions) && t.responses == s.responses
  {
    Session(Some(questions), s.responses)
  }

  /** One submit_answer: the session afterwards and the reply. */
  function Step(s: Session, answer: string, review: Reviewer): (r: (Session, SubmitReply))
    ensures r.0.questions == s.questions
    ensures answer == "" ==> r == (s, SubmitError(AnswerRequired))
    ensures answer != "" && s.questions.None? ==> r == (s, SubmitError(QuestionsMissing))
    ensures answer != "" && s.questions.Some? ==>
      r.0.responses == s.responses + [answer] &&
      (r.1.NextQuestion? <==> |r.0.responses| < |s.questions.value|) &&
      (r.1.NextQuestion? ==> r.1.question == s.questions.value[|r.0.responses|]) &&
      (!r.1.NextQuestion? ==> r.1 == FinalFeedback(review(s.questions.value, r.0.responses)))
  {
    if answer == "" then (s, SubmitError(AnswerRequired))
    else
      match s.questions
      case None => (s, SubmitError(QuestionsMissing))
      case Some(questions) =>
        var responses := s.responses + [answer];
        var next := Session(s.questions, responses);
        if |responses| < |questions| then (next, NextQuestion(questions[|responses|]))
        else (next, FinalFeedback(review(questions, responses)))
  }

  /** The answers submitted one after another: the final session and every reply, in order. */
  function Run(s: Session, answers: seq<string>, review: Reviewer): (r: (Session, seq<SubmitReply>))
    ensures |r.1| == |answers|
    decreases |answers|
  {
    if answers == [] then (s, [])
    else
      var first := Step(s, answers[0], review);
      var rest := Run(first.0, answers[1..], review);
      (rest.0, [first.1] + rest.1)
  }

  /** Submitting non-empty answers against a stored question list appends every one of them. */
  lemma {:induction false} RunAppends(questions: seq<string>, responses: seq<string>,
                                      answers: seq<string>, review: Reviewer)
    requires "" !in answers
    ensures Run(Session(Some(questions), responses), answers, review).0
         == Session(Some(questions), responses + answers)
    decreases |answers|
  {
    if answers != [] {
      RunAppends(questions, responses + [answers[0]], answers[1..], review);
      assert responses + [answers[0]] + answers[1..] == responses + answers;
    }
  }

  /**
   * The reply to the i-th of those answers is the question at the new number
   * of responses while there is one, and the feedback on the transcript so
   * far from then on.
   */
  lemma {:induction false} RunReplyAt(questions: seq<string>, responses: seq<string>,
                                      answers: seq<string>, review: Reviewer, i: nat)
    requires i < |answers|
    requires "" !in answers
    ensures |responses| + i + 1 < |questions| ==>
      Run(Session(Some(questions), responses), answers, review).1[i]
        == NextQuestion(questions[|responses| + i + 1])
    ensures |responses| + i + 1 >= |questions| ==>
      Run(Session(Some(questions), responses), answers, review).1[i]
        == FinalFeedback(review(questions, responses + answers[..i + 1]))
    decreases i
  {
    var first := Step(Session(Some(questions), responses), answers[0], review);
    var after := responses + [answers[0]];
    if i == 0 {
      assert responses + answers[..1] == after;
    } else {
      RunReplyAt(questions, after, answers[1..], review, i - 1);
      assert after + answers[1..][..i] == responses + answers[..i + 1];
    }
  }

  /** Every answer but the last of a run that does not pass the questions is answered with the next question. */
  lemma NextReplies(questions: seq<string>, responses: seq<string>, answers: seq<string>, review: Reviewer)
    requires |responses| + |answers| <= |questions|
    requires "" !in answers
    ensures forall i :: 0 <= i < |answers| - 1 ==>
      Run(Session(Some(questions), responses), answers, review).1[i] == NextQuestion(questions[|responses| + i + 1])
  {
    forall i | 0 <= i < |answers| - 1
      ensures Run(Session(Some(questions), responses), answers, review).1[i]
           == NextQuestion(questions[|responses| + i + 1])
    {
      RunReplyAt(questions, responses, answers, review, i);
    }
  }

  /** The answer that brings the responses up to the number of questions is answered with the feedback on all of them. */
  lemma LastReply(questions: seq<string>, responses: seq<string>, answers: seq<string>, review: Reviewer)
    requires |answers| > 0 && |responses| + |answers| == |questions|
    requires "" !in answers
    ensures Run(Session(Some(questions), responses), answers, review).1[|answers| - 1]
         == FinalFeedback(review(questions, responses + answers))
  {
    var last := |answers| - 1;
    RunReplyAt(questions, responses, answers, review, last);
    assert answers[..last + 1] == answers;
  }

  /**
   * Answering the remaining questions of an interview one by one: every
   * answer but the last is followed by the next question, the last by the
   * feedback on the whole transcript. With no responses stored, this is the
   * interview from its first question.
   */
  lemma InterviewWalk(questions: seq<string>, responses: seq<string>, answers: seq<string>, review: Reviewer)
    requires |answers| > 0 && |responses| + |answers| == |questions|
    requires "" !in answers
    ensures Run(Session(Some(questions), responses), answers, review).0
         == Session(Some(questions), responses + answers)
    ensures forall i :: 0 <= i < |answers| - 1 ==>
      Run(Session(Some(questions), responses), answers, review).1[i] == NextQuestion(questions[|responses| + i + 1])
    ensures Run(Session(Some(questions), responses), answers, review).1[|answers| - 1]
         == FinalFeedback(review(questions, responses + answers))
  {
    RunAppends(questions, responses, answers, review);
    NextReplies(questions, responses, answers, review);
    LastReply(questions, responses, answers, review);
  }

  /**
   * After the last question, every further answer is still answered with
   * feedback, and the feedback request built from the responses so far is
   * the one built at the last question: the chat service is asked the same
   * thing again.
   */
  lemma ReplyAfterLast(questions: seq<string>, responses: seq<string>,
                       answers: seq<string>, review: Reviewer, i: nat)
    requires |responses| >= |questions| && i < |answers|
    requires "" !in answers
    ensures Run(Session(Some(questions), responses), answers, review).1[i]
         == FinalFeedback(review(questions, responses + answers[..i + 1]))
    ensures FeedbackRequest(questions, responses + answers[..i + 1]) == FeedbackRequest(questions, responses)
  {
    RunReplyAt(questions, responses, answers, review, i);
    FeedbackRequestIgnoresExtraAnswers(questions, responses, answers[..i + 1]);
  }

  /**
   * There is no "already complete" guard: once the responses reach the number
   * of questions, every further answer is still appended, and each reply is
   * feedback asked for with the very same request.
   */
  lemma SubmitsAfterLastQuestion(questions: seq<string>, responses: seq<string>,
                                 answers: seq<string>, review: Reviewer)
    requires |responses| >= |questions|
    requires "" !in answers
    ensures Run(Session(Some(questions), responses), answers, review).0
         == Session(Some(questions), responses + answers)
    ensures forall i :: 0 <= i < |answers| ==>
      Run(Session(Some(questions), responses), answers, review).1[i]
        == FinalFeedback(review(questions, responses + answers[..i + 1])) &&
      FeedbackRequest(questions, responses + answers[..i + 1]) == FeedbackRequest(questions, responses)
  {
    RunAppends(questions, responses, answers, review);
    forall i | 0 <= i < |answers|
      ensures Run(Session(Some(questions), responses), answers, review).1[i]
           == FinalFeedback(review(questions, responses + answers[..i + 1]))
      ensures FeedbackRequest(questions, responses + answers[..i + 1]) == FeedbackRequest(questions, responses)
    {
      ReplyAfterLast(questions, responses, answers, review, i);
    }
  }

  /**
   * Storing a new question list keeps the old responses, so the next answer
   * is counted after them: with k responses stored, it is answered with
   * question k + 1 of the new list (or with feedback), not with question 1.
   */
  lemma NewQuestionsContinueAfterOldResponses(s: Session, questions: seq<string>, answer: string,
                                              review: Reviewer)
    requires answer != ""
    ensures var k := |s.responses|;
      Step(WithQuestions(s, questions), answer, review).1
        == if k + 1 < |questions| then NextQuestion(questions[k + 1])
           else FinalFeedback(review(questions, s.responses + [answer]))
  {
  }

  /** The two-question interview: the second question, then feedback on both pairs. */
  lemma TwoQuestionInterview(review: Reviewer)
    ensures var questions := ["What does your character want?", "What is at stake?"];
      var answers := ["Connection", "Losing her job"];
      Run(Session(Some(questions), []), answers, review).1
        == [NextQuestion("What is at stake?"), FinalFeedback(review(questions, answers))]
      && Render(Zip(questions, answers))
        == Line(("What does your character want?", "Connection")) + Line(("What is at stake?", "Losing her job"))
  {
    var questions := ["What does your character want?", "What is at stake?"];
    var answers := ["Connection", "Losing her job"];
    InterviewWalk(questions, [], answers, review);
    assert [] + answers == answers;
    var pairs := Zip(questions, answers);
    assert pairs == [(questions[0], answers[0]), (questions[1], answers[1])];
    assert pairs[1..] == [pairs[1]];
    assert Render(pairs[1..]) == Line(pairs[1]) + Render([]);
  }

  /** The session store of one user: its "questions" and "responses" entries. */
  class SessionStore {
    var questions: Option<seq<string>>
    var responses: seq<string>

    /** The abstract value of the store. */
    function State(): Session
      reads this
    {
      Session(questions, responses)
    }

    /** A new session holds neither key. */
    constructor ()
      ensures State() == Session(None, [])
    {
      questions := None;
      responses := [];
    }

    /** session['questions'] = questions (app.py:301). */
    method StoreQuestions(questions: seq<string>)
      modifies this
      ensures State() == WithQuestions(old(State()), questions)
    {
      this.questions := Some(questions);
    }

    /** submit_answer (app.py:308-333). */
    method SubmitAnswer(answer: string, generate: Generator) returns (reply: SubmitReply)
      modifies this
      ensures (State(), reply) == Step(old(State()), answer, GeneratedFeedback(generate))
      ensures answer == "" || questions.None? ==> responses == old(responses)
      ensures answer != "" && questions.Some? ==> responses == old(responses) + [answer]
      ensures questions == old(questions)
    {
      if answer == "" {
        return SubmitError(AnswerRequired);
      }
      if questions.None? {
        return SubmitError(QuestionsMissing);
      }
      responses := responses + [answer];
      var stored := questions.value;
      if |responses| < |stored| {
        reply := NextQuestion(stored[|responses|]);
      } else {
        var feedback := GenerateFinalFeedback(stored, responses, generate);
        reply := FinalFeedback(feedback);
      }
    }
  }
}
