/**
 * The exception kinds that the handlers of app.py tell apart, and the
 * chat-completion service that several routes call.
 */
module Services {
  import opened Wrappers

  datatype Exception =
    | RequestException(message: string)  // requests.exceptions.RequestException
    | KeyError(key: string)              // a missing dictionary key
    | ValueError(message: string)
    | IndexError                         // indexing an empty list
    | ServiceError(message: string)      // anything the OpenAI client, boto3 or PyPDF2 raises

  /** Python's str(e): a KeyError shows its key between single quotes. */
  function Str(e: Exception): (s: string)
    ensures e.KeyError? ==> |s| == |e.key| + 2 && s[0] == '\'' && s[|s| - 1] == '\'' && s[1..|s| - 1] == e.key
    ensures e.IndexError? ==> s == "list index out of range"
  {
    match e
    case RequestException(m) => m
    case KeyError(k) => "'" + k + "'"
    case ValueError(m) => m
    case IndexError => "list index out of range"
    case ServiceError(m) => m
  }

  /** The three chat-completion requests app.py makes, by what they carry. */
  datatype ChatRequest =
    | MentorChat(summary: string, question: string)  // home and ask: a tips summary and the user's question
    | SceneChat(content: string)                     // scene_analysis: the assembled scene content
    | FeedbackChat(transcript: string)               // generate_final_feedback: the Q/A transcript

  const MentorPreamble := "You are an acting mentor AI. Use the following information to help answer questions from the user: "
  const SceneInstruction := "You are an AI that provides leading questions for actors based on scene content."
  const FeedbackInstruction :=
    "You are an acting mentor AI who gives actionable feedback to an actor based on their answers to a set of acting questions."
  const ScenePreamble := "Here is a scene: "
  const SceneSuffix :=
    " Provide a series of leading questions for an actor to help them understand key moments, key events for the characters, relationships, status, and stakes in this scene."
  const FeedbackPreamble := "Here are the questions and answers:\n"
  const FeedbackSuffix := "\nPlease provide final feedback for the actor."

  /** The "system" message of a request. */
  function SystemMessage(r: ChatRequest): (m: string)
    ensures r.MentorChat? ==> |m| >= |MentorPreamble| && m[..|MentorPreamble|] == MentorPreamble && m[|MentorPreamble|..] == r.summary
    ensures r.SceneChat? ==> m == SceneInstruction
    ensures r.FeedbackChat? ==> m == FeedbackInstruction
  {
    match r
    case MentorChat(summary, _) =>
      assert (MentorPreamble + summary)[..|MentorPreamble|] == MentorPreamble;
      MentorPreamble + summary
    case SceneChat(_) => SceneInstruction
    case FeedbackChat(_) => FeedbackInstruction
  }

  /** The "user" message of a request. */
  function UserMessage(r: ChatRequest): (m: string)
    ensures r.MentorChat? ==> m == r.question
    ensures r.SceneChat? ==> Between(m, ScenePreamble, SceneSuffix) && m[|ScenePreamble|..|m| - |SceneSuffix|] == r.content
    ensures r.FeedbackChat? ==>
      Between(m, FeedbackPreamble, FeedbackSuffix) && m[|FeedbackPreamble|..|m| - |FeedbackSuffix|] == r.transcript
  {
    match r
    case MentorChat(_, question) => question
    case SceneChat(content) =>
      TextBetween(ScenePreamble, content, SceneSuffix);
      ScenePreamble + content + SceneSuffix
    case FeedbackChat(transcript) =>
      TextBetween(FeedbackPreamble, transcript, FeedbackSuffix);
      FeedbackPreamble + transcript + FeedbackSuffix
  }

  /** m starts with prefix and ends with suffix, and the two do not overlap. */
  predicate Between(m: string, prefix: string, suffix: string)
  {
    |prefix| + |suffix| <= |m| && m[..|prefix|] == prefix && m[|m| - |suffix|..] == suffix
  }

  /**
   * Requests of one kind with the same two messages are the same request,
   * so the service may be modelled as a function of the request.
   */
  lemma MessagesDetermineRequest(r1: ChatRequest, r2: ChatRequest)
    requires r1.MentorChat? == r2.MentorChat? && r1.SceneChat? == r2.SceneChat?
    requires SystemMessage(r1) == SystemMessage(r2) && UserMessage(r1) == UserMessage(r2)
    ensures r1 == r2
  {
  }

  /** The middle of prefix + middle + suffix is recovered by its length. */
  lemma TextBetween(prefix: string, middle: string, suffix: string)
    ensures |prefix + middle + suffix| == |prefix| + |middle| + |suffix|
    ensures (prefix + middle + suffix)[|prefix|..|prefix + middle + suffix| - |suffix|] == middle
    ensures Between(prefix + middle + suffix, prefix, suffix)
  {
    var whole := prefix + middle + suffix;
    assert whole[|prefix|..|prefix| + |middle|] == middle;
    assert whole[..|prefix|] == prefix;
    assert whole[|whole| - |suffix|..] == suffix;
  }

  /**
   * One client.chat.completions.create call: given the request, whose
   * messages are SystemMessage and UserMessage, the text of the first
   * choice, or what the call raised.
   */
  type Generator = ChatRequest -> Result<string, Exception>
}
