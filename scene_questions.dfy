/**
 * The questions route, get_questions (app.py:273-306): every page of the
 * scene database contributes the first title text of each of its titled
 * properties, and a non-empty list is stored in the session as the
 * interview's question list.
 */
module SceneQuestions {
  import opened Wrappers
  import opened Services
  import opened Notion
  import opened Gather
  import opened Interview

  const NoQuestionsFound := "No questions found in the Notion database ID scene table."

  /** 'title' in value and value['title']: the property has a non-empty title list. */
  predicate Titled(p: Property)
  {
    p.title.Some? && p.title.value != []
  }

  /** What one property appends to the question list: value['title'][0]['text']['content'] when it is titled. */
  function PropertyQuestions(p: Property): (r: Result<seq<string>, Exception>)
    ensures !Titled(p) ==> r == Success([])
    ensures Titled(p) && p.title.value[0].content.Some? ==> r == Success([p.title.value[0].content.value])
    ensures Titled(p) && p.title.value[0].content.None? ==> r == Failure(KeyError("text"))
  {
    if !Titled(p) then Success([])
    else
      match p.title.value[0].content
      case None => Failure(KeyError("text"))
      case Some(q) => Success([q])
  }

  /** The inner loop over one page's properties, in their JSON order. */
  function PageQuestions(page: ScenePage): (r: Result<seq<string>, Exception>)
    ensures r.Success? ==> |r.value| == TitledCount(page.properties)
  {
    var r := FlatMap(page.properties, PropertyQuestions);
    if r.Success? then PageQuestionCount(page.properties, r.value); r else r
  }

  /** The question text a titled property holds, when it holds one. */
  predicate HoldsQuestion(page: ScenePage, q: string)
  {
    exists p :: p in page.properties && Titled(p) && p.title.value[0].content == Some(q)
  }

  /** The questions of one page are exactly the title texts of its titled properties. */
  lemma PageQuestionsAreTitles(page: ScenePage, qs: seq<string>)
    requires PageQuestions(page) == Success(qs)
    ensures forall q :: q in qs ==> HoldsQuestion(page, q)
    ensures forall p :: p in page.properties && Titled(p) ==> p.title.value[0].content.Some? && p.title.value[0].content.value in qs
  {
    FlatMapMembers(page.properties, PropertyQuestions, qs);
    FlatMapIncludes(page.properties, PropertyQuestions, qs);
    forall q | q in qs
      ensures HoldsQuestion(page, q)
    {
      var k :| 0 <= k < |qs| && qs[k] == q;
      var i :| 0 <= i < |page.properties| && PropertyQuestions(page.properties[i]).Success?
        && qs[k] in PropertyQuestions(page.properties[i]).value;
      assert page.properties[i] in page.properties;
    }
    forall p | p in page.properties && Titled(p)
      ensures p.title.value[0].content.Some? && p.title.value[0].content.value in qs
    {
      var i :| 0 <= i < |page.properties| && page.properties[i] == p;
      assert PropertyQuestions(page.properties[i]).Success?;
      assert p.title.value[0].content.value in PropertyQuestions(p).value;
    }
  }

  /**
   * Every collected question is the title text of a titled property of some
   * page, and every titled property of every page gave its title text.
   */
  lemma QuestionsAreTitles(pages: seq<ScenePage>, qs: seq<string>)
    requires FlatMap(pages, PageQuestions) == Success(qs)
    ensures forall q :: q in qs ==> exists page :: page in pages && HoldsQuestion(page, q)
    ensures forall page, p :: page in pages && p in page.properties && Titled(p) ==>
      p.title.value[0].content.Some? && p.title.value[0].content.value in qs
  {
    FlatMapMembers(pages, PageQuestions, qs);
    FlatMapIncludes(pages, PageQuestions, qs);
    forall q | q in qs
      ensures exists page :: page in pages && HoldsQuestion(page, q)
    {
      var k :| 0 <= k < |qs| && qs[k] == q;
      var i :| 0 <= i < |pages| && PageQuestions(pages[i]).Success? && qs[k] in PageQuestions(pages[i]).value;
      PageQuestionsAreTitles(pages[i], PageQuestions(pages[i]).value);
      assert pages[i] in pages;
    }
    forall page, p | page in pages && p in page.properties && Titled(p)
      ensures p.title.value[0].content.Some? && p.title.value[0].content.value in qs
    {
      var i :| 0 <= i < |pages| && pages[i] == page;
      PageQuestionsAreTitles(page, PageQuestions(page).value);
    }
  }

  /** The number of titled properties among properties. */
  function TitledCount(properties: seq<Property>): nat
  {
    if properties == [] then 0
    else (if Titled(properties[0]) then 1 else 0) + TitledCount(properties[1..])
  }

  /** The number of titled properties over all pages. */
  function PagesTitledCount(pages: seq<ScenePage>): nat
  {
    if pages == [] then 0 else TitledCount(pages[0].properties) + PagesTitledCount(pages[1..])
  }

  /** A page gives exactly one question per titled property. */
  lemma {:induction false} PageQuestionCount(properties: seq<Property>, qs: seq<string>)
    requires FlatMap(properties, PropertyQuestions) == Success(qs)
    ensures |qs| == TitledCount(properties)
  {
    if properties != [] {
      var rest := FlatMap(properties[1..], PropertyQuestions);
      assert rest.Success?;
      PageQuestionCount(properties[1..], rest.value);
    }
  }

  /** The collected list has exactly one question per titled property of every page. */
  lemma {:induction false} QuestionCount(pages: seq<ScenePage>, qs: seq<string>)
    requires FlatMap(pages, PageQuestions) == Success(qs)
    ensures |qs| == PagesTitledCount(pages)
  {
    if pages != [] {
      var first := PageQuestions(pages[0]);
      var rest := FlatMap(pages[1..], PageQuestions);
      assert first.Success? && rest.Success?;
      PageQuestionCount(pages[0].properties, first.value);
      QuestionCount(pages[1..], rest.value);
    }
  }

  /** A page fails, with KeyError 'text', exactly when one of its titled properties has a first title item without text. */
  lemma PageQuestionsFailure(page: ScenePage)
    ensures PageQuestions(page).Failure? <==>
      exists p :: p in page.properties && Titled(p) && p.title.value[0].content.None?
    ensures PageQuestions(page).Failure? ==> PageQuestions(page).error == KeyError("text")
  {
    FlatMapFailure(page.properties, PropertyQuestions);
    if PageQuestions(page).Failure? {
      var i :| 0 <= i < |page.properties| && PropertyQuestions(page.properties[i]).Failure?
        && PropertyQuestions(page.properties[i]) == PageQuestions(page);
      assert page.properties[i] in page.properties;
    }
    if exists p :: p in page.properties && Titled(p) && p.title.value[0].content.None? {
      var p :| p in page.properties && Titled(p) && p.title.value[0].content.None?;
      var i :| 0 <= i < |page.properties| && page.properties[i] == p;
      assert PropertyQuestions(page.properties[i]).Failure?;
    }
  }

  /** Collecting fails, with KeyError 'text', exactly when some titled property's first title item has no text. */
  lemma QuestionsFailure(pages: seq<ScenePage>)
    ensures FlatMap(pages, PageQuestions).Failure? <==>
      exists page, p :: page in pages && p in page.properties && Titled(p) && p.title.value[0].content.None?
    ensures FlatMap(pages, PageQuestions).Failure? ==> FlatMap(pages, PageQuestions).error == KeyError("text")
  {
    FlatMapFailure(pages, PageQuestions);
    if FlatMap(pages, PageQuestions).Failure? {
      var i :| 0 <= i < |pages| && PageQuestions(pages[i]) == FlatMap(pages, PageQuestions)
        && forall j :: 0 <= j < i ==> PageQuestions(pages[j]).Success?;
      PageQuestionsFailure(pages[i]);
      assert pages[i] in pages;
    }
    if exists page, p :: page in pages && p in page.properties && Titled(p) && p.title.value[0].content.None? {
      var page, p :| page in pages && p in page.properties && Titled(p) && p.title.value[0].content.None?;
      var i :| 0 <= i < |pages| && pages[i] == page;
      PageQuestionsFailure(pages[i]);
    }
  }

  /** The nested loops of app.py:291-295. */
  method CollectQuestions(pages: seq<ScenePage>) returns (r: Result<seq<string>, Exception>)
    ensures r == FlatMap(pages, PageQuestions)
  {
    var questions: seq<string> := [];
    for i := 0 to |pages|
      invariant FlatMap(pages[..i], PageQuestions) == Success(questions)
    {
      var page := pages[i];
      assert pages[..i + 1] == pages[..i] + [page];
      FlatMapSnoc(pages[..i], page, PageQuestions);
      var found := CollectPageQuestions(page);
      if found.Failure? {
        FlatMapStopsEarly(pages, i, PageQuestions);
        return Failure(found.error);
      }
      questions := questions + found.value;
    }
    assert pages[..|pages|] == pages;
    r := Success(questions);
  }

  /** The inner loop over one page's properties. */
  method CollectPageQuestions(page: ScenePage) returns (r: Result<seq<string>, Exception>)
    ensures r == PageQuestions(page)
  {
    var properties := page.properties;
    var questions: seq<string> := [];
    for j := 0 to |properties|
      invariant FlatMap(properties[..j], PropertyQuestions) == Success(questions)
    {
      var p := properties[j];
      assert properties[..j + 1] == properties[..j] + [p];
      FlatMapSnoc(properties[..j], p, PropertyQuestions);
      if Titled(p) {
        match p.title.value[0].content
        case None =>
          FlatMapStopsEarly(properties, j, PropertyQuestions);
          return Failure(KeyError("text"));
        case Some(q) =>
          questions := questions + [q];
      } else {
        assert questions + [] == questions;
      }
    }
    assert properties[..|properties|] == properties;
    r := Success(questions);
  }

  /** The JSON reply of /questions: the "questions", a "message" or an "error". */
  datatype QuestionsReply =
    | QuestionList(questions: seq<string>)
    | QuestionsMessage(message: string)
    | QuestionsError(message: string)

  /**
   * get_questions (app.py:273-306). Only a non-empty question list is stored,
   * and storing it leaves the stored responses as they were.
   */
  method GetQuestions(query: Query<ScenePage>, store: SessionStore) returns (reply: QuestionsReply)
    modifies store
    ensures store.responses == old(store.responses)
    ensures !reply.QuestionList? ==> store.State() == old(store.State())
    ensures reply.QuestionList? ==> store.State() == WithQuestions(old(store.State()), reply.questions)
    ensures query.QueryRaised? ==> reply == QuestionsError(Str(query.error))
    ensures query.QueryAnswered? && query.status != 200 ==>
      reply == QuestionsError("Notion API error: " + query.body)
    ensures query.QueryAnswered? && query.status == 200 ==>
      match FlatMap(query.results, PageQuestions)
      case Failure(e) => reply == QuestionsError(Str(e))
      case Success(qs) =>
        if qs == [] then reply == QuestionsMessage(NoQuestionsFound) else reply == QuestionList(qs)
  {
    match query
    case QueryRaised(e) =>
      reply := QuestionsError(Str(e));
    case QueryAnswered(status, body, results) =>
      if status != 200 {
        return QuestionsError(Str(ValueError("Notion API error: " + body)));
      }
      var found := CollectQuestions(results);
      match found
      case Failure(e) =>
        reply := QuestionsError(Str(e));
      case Success(questions) =>
        if questions == [] {
          reply := QuestionsMessage(NoQuestionsFound);
        } else {
          store.StoreQuestions(questions);
          reply := QuestionList(questions);
        }
  }
}
