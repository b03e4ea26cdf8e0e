/** generate_final_feedback (app.py:457-474): render the transcript and ask for feedback on it. */
module Feedback {
  import opened Wrappers
  import opened Services

  function Min(a: int, b: int): int { if a <= b then a else b }

  /** zip(questions, responses): the pairs in order, as many as the shorter list has. */
  function Zip(questions: seq<string>, responses: seq<string>): (pairs: seq<(string, string)>)
    ensures |pairs| == Min(|questions|, |responses|)
    ensures forall i :: 0 <= i < |pairs| ==> pairs[i] == (questions[i], responses[i])
  {
    if questions == [] || responses == [] then []
    else [(questions[0], responses[0])] + Zip(questions[1..], responses[1..])
  }

  /** The transcript line of one question and its answer. */
  function Line(pair: (string, string)): (line: string)
    ensures |line| == |pair.0| + |pair.1| + 8
    ensures line[3..3 + |pair.0|] == pair.0 && line[|pair.0| + 7..|line| - 1] == pair.1
  {
    "Q: " + pair.0 + "\nA: " + pair.1 + "\n"
  }

  /** The transcript: the line of every pair, in order. */
  function Render(pairs: seq<(string, string)>): (transcript: string)
    ensures transcript == "" <==> pairs == []
  {
    if pairs == [] then "" else Line(pairs[0]) + Render(pairs[1..])
  }

  lemma {:induction false} RenderAppend(a: seq<(string, string)>, b: seq<(string, string)>)
    ensures Render(a + b) == Render(a) + Render(b)
  {
    if a == [] {
      assert a + b == b;
    } else {
      assert (a + b)[0] == a[0];
      assert (a + b)[1..] == a[1..] + b;
      RenderAppend(a[1..], b);
    }
  }

  /** The pairs depend only on the first min(|questions|, |responses|) entries of each list. */
  lemma {:induction false} ZipTruncates(questions: seq<string>, responses: seq<string>)
    ensures var m := Min(|questions|, |responses|);
      Zip(questions, responses) == Zip(questions[..m], responses[..m])
  {
    var m := Min(|questions|, |responses|);
    if m == 0 {
      assert questions[..m] == [];
    } else {
      ZipTruncates(questions[1..], responses[1..]);
      assert questions[..m][1..] == questions[1..][..m - 1];
      assert responses[..m][1..] == responses[1..][..m - 1];
    }
  }

  /** An answer to a question that exists adds that one pair at the end. */
  lemma {:induction false} ZipAnswered(questions: seq<string>, responses: seq<string>, answer: string)
    requires |responses| < |questions|
    ensures Zip(questions, responses + [answer]) == Zip(questions, responses) + [(questions[|responses|], answer)]
  {
    var first := (questions[0], (responses + [answer])[0]);
    if responses == [] {
      assert responses + [answer] == [answer];
      assert [answer][1..] == [];
    } else {
      assert (responses + [answer])[1..] == responses[1..] + [answer];
      ZipAnswered(questions[1..], responses[1..], answer);
      assert questions[1..][|responses[1..]|] == questions[|responses|];
    }
  }

  /** Answers beyond the last question never reach the transcript. */
  lemma ZipIgnoresExtraAnswers(questions: seq<string>, responses: seq<string>, extra: seq<string>)
    requires |responses| >= |questions|
    ensures Zip(questions, responses + extra) == Zip(questions, responses)
  {
    var longer := Zip(questions, responses + extra);
    var shorter := Zip(questions, responses);
    assert |longer| == |shorter|;
    forall i | 0 <= i < |longer|
      ensures longer[i] == shorter[i]
    {
      assert (responses + extra)[i] == responses[i];
    }
  }

  /** Answering a question that exists adds exactly its line at the end of the transcript. */
  lemma TranscriptGrows(questions: seq<string>, responses: seq<string>, answer: string)
    requires |responses| < |questions|
    ensures Render(Zip(questions, responses + [answer]))
         == Render(Zip(questions, responses)) + Line((questions[|responses|], answer))
  {
    var pairs := Zip(questions, responses) + [(questions[|responses|], answer)];
    var n := |Zip(questions, responses)|;
    ZipAnswered(questions, responses, answer);
    RenderSnoc(pairs, n);
    assert pairs[..n + 1] == pairs;
    assert pairs[..n] == Zip(questions, responses);
  }

  /** The transcript of the first i + 1 pairs is that of the first i followed by the line of pair i. */
  lemma RenderSnoc(pairs: seq<(string, string)>, i: nat)
    requires i < |pairs|
    ensures Render(pairs[..i + 1]) == Render(pairs[..i]) + Line(pairs[i])
  {
    var single: seq<(string, string)> := [pairs[i]];
    assert pairs[..i + 1] == pairs[..i] + single;
    RenderAppend(pairs[..i], single);
    assert single[1..] == [];
    assert Render(single) == Line(pairs[i]) + Render([]);
  }

  const FeedbackErrorPrefix := "An error occurred while generating feedback: "

  /** The request generate_final_feedback sends: the transcript of the zipped pairs. */
  function FeedbackRequest(questions: seq<string>, responses: seq<string>): (r: ChatRequest)
    ensures r.FeedbackChat?
    ensures r.transcript == "" <==> questions == [] || responses == []
  {
    FeedbackChat(Render(Zip(questions, responses)))
  }

  /** The two messages of the feedback request: the fixed instruction, and the transcript between its fixed lead-in and closing line. */
  lemma FeedbackRequestMessages(questions: seq<string>, responses: seq<string>)
    ensures SystemMessage(FeedbackRequest(questions, responses)) == FeedbackInstruction
    ensures UserMessage(FeedbackRequest(questions, responses))
         == FeedbackPreamble + Render(Zip(questions, responses)) + FeedbackSuffix
  {
  }

  /** Once every question has a response, further responses do not change the request that is sent. */
  lemma FeedbackRequestIgnoresExtraAnswers(questions: seq<string>, responses: seq<string>, extra: seq<string>)
    requires |responses| >= |questions|
    ensures FeedbackRequest(questions, responses + extra) == FeedbackRequest(questions, responses)
  {
    ZipIgnoresExtraAnswers(questions, responses, extra);
  }

  /** The feedback text, or the message that replaces an exception of the chat service. */
  function FeedbackOf(questions: seq<string>, responses: seq<string>, generate: Generator): (feedback: string)
    ensures generate(FeedbackRequest(questions, responses)).Success? ==>
      feedback == generate(FeedbackRequest(questions, responses)).value
    ensures generate(FeedbackRequest(questions, responses)).Failure? ==>
      feedback == FeedbackErrorPrefix + Str(generate(FeedbackRequest(questions, responses)).error)
  {
    match generate(FeedbackRequest(questions, responses))
    case Success(text) => text
    case Failure(e) => FeedbackErrorPrefix + Str(e)
  }

  method GenerateFinalFeedback(questions: seq<string>, responses: seq<string>, generate: Generator)
    returns (feedback: string)
    ensures feedback == FeedbackOf(questions, responses, generate)
  {
    ghost var pairs := Zip(questions, responses);
    var transcript := "";
    for i := 0 to Min(|questions|, |responses|)
      invariant transcript == Render(pairs[..i])
    {
      var line := "Q: " + questions[i] + "\nA: " + responses[i] + "\n";
      assert line == Line(pairs[i]);
      RenderSnoc(pairs, i);
      transcript := transcript + line;
    }
    assert pairs[..|pairs|] == pairs;
    match generate(FeedbackChat(transcript))
    case Success(text) =>
      feedback := text;
    case Failure(e) =>
      feedback := FeedbackErrorPrefix + Str(e);
  }
}
