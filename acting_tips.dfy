/**
 * The acting-tips routes, home (app.py:110-190) and ask (app.py:335-403):
 * gather text fragments from the pages of the tips database, join them into
 * one summary, and ask the chat service to answer the user's question with it.
 */
module ActingTips {
  import opened Wrappers
  import opened Services
  import opened Text
  import opened Notion
  import opened Gather

  const NoTipsFound := "I couldn't find any relevant information in the Acting Tips database."
  const QuestionRequired := "Question is required"
  const NoQuestionProvided := "No question provided"

  /** t["text"]["content"] of one rich-text item, or the KeyError of an item without text. */
  function ItemText(item: RichText): Result<string, Exception>
  {
    match item.content
    case Some(t) => Success(t)
    case None => Failure(KeyError("text"))
  }

  /** The text contents of rich-text items that all have one, in order. */
  function Contents(items: seq<RichText>): (texts: seq<string>)
    requires forall i :: 0 <= i < |items| ==> items[i].content.Some?
    ensures |texts| == |items|
    ensures forall i :: 0 <= i < |items| ==> texts[i] == items[i].content.value
  {
    if items == [] then [] else [items[0].content.value] + Contents(items[1..])
  }

  /** "".join(t["text"]["content"] for t in rich_text) */
  function ParagraphText(items: seq<RichText>): (r: Result<string, Exception>)
    ensures r.Failure? <==> exists i :: 0 <= i < |items| && items[i].content.None?
    ensures r.Failure? ==> r.error == KeyError("text")
    ensures (forall i :: 0 <= i < |items| ==> items[i].content.Some?) ==> r == Success(Concat(Contents(items)))
  {
    FlatMapFailure(items, ItemText);
    ParagraphTextJoins(items);
    FlatMap(items, ItemText)
  }

  /** Items that all have text are joined with "" in their order. */
  lemma {:induction false} ParagraphTextJoins(items: seq<RichText>)
    ensures (forall i :: 0 <= i < |items| ==> items[i].content.Some?) ==>
      FlatMap(items, ItemText) == Success(Concat(Contents(items)))
  {
    if items != [] && forall i :: 0 <= i < |items| ==> items[i].content.Some? {
      ParagraphTextJoins(items[1..]);
      assert Contents(items)[1..] == Contents(items[1..]);
    }
  }

  /** The url of a file block (app.py:155-160): from the member that "type" names, which must be there. */
  function BlockFileUrl(file: FileRef): (r: Result<Option<string>, Exception>)
    ensures file.kind != "external" && file.kind != "file" ==> r == Success(None)
    ensures file.kind == "external" ==> r == MemberUrl(file.external, "external")
    ensures file.kind == "file" ==> r == MemberUrl(file.hosted, "file")
    ensures r.Failure? ==> r.error == KeyError(file.kind) || r.error == KeyError("url")
    ensures r.Success? && r.value.Some? ==>
      (file.kind == "external" && file.external.Some? && file.external.value.url == r.value) ||
      (file.kind == "file" && file.hosted.Some? && file.hosted.value.url == r.value)
  {
    if file.kind == "external" then MemberUrl(file.external, "external")
    else if file.kind == "file" then MemberUrl(file.hosted, "file")
    else Success(None)
  }

  /** file_data[key]["url"] */
  function MemberUrl(member: Option<FileObject>, key: string): (r: Result<Option<string>, Exception>)
    ensures member.None? ==> r == Failure(KeyError(key))
    ensures member.Some? && member.value.url.None? ==> r == Failure(KeyError("url"))
    ensures member.Some? && member.value.url.Some? ==> r == Success(member.value.url)
    ensures r.Success? ==> member.Some? && r == Success(member.value.url) && r.value.Some?
  {
    match member
    case None => Failure(KeyError(key))
    case Some(obj) =>
      match obj.url
      case None => Failure(KeyError("url"))
      case Some(u) => Success(Some(u))
  }

  /** What one block appends to relevant_info (app.py:150-162). */
  function BlockFragments(block: Block): (r: Result<seq<string>, Exception>)
    ensures r.Success? ==> |r.value| <= 1
    ensures block.OtherBlock? ==> r == Success([])
    ensures block.Paragraph? && block.richText != [] ==>
      (r.Success? <==> ParagraphText(block.richText).Success?) &&
      (r.Success? ==> r.value == [ParagraphText(block.richText).value])
    ensures block.Paragraph? && block.richText == [] ==> r == Success([])
    ensures block.FileBlock? && r.Success? && r.value != [] ==>
      exists u :: BlockFileUrl(block.file) == Success(Some(u)) && u != "" && r.value == ["File URL: " + u]
    ensures block.FileBlock? ==>
      forall u :: BlockFileUrl(block.file) == Success(Some(u)) && u != "" ==> r == Success(["File URL: " + u])
    ensures block.FileBlock? && BlockFileUrl(block.file).Failure? ==> r == Failure(BlockFileUrl(block.file).error)
    ensures block.FileBlock? && (BlockFileUrl(block.file) == Success(None) || BlockFileUrl(block.file) == Success(Some(""))) ==>
      r == Success([])
    ensures block.Paragraph? && ParagraphText(block.richText).Failure? ==> r == Failure(KeyError("text"))
  {
    match block
    case Paragraph(items) =>
      if items == [] then Success([])
      else
        (match ParagraphText(items)
         case Failure(e) => Failure(e)
         case Success(t) => Success([t]))
    case FileBlock(file) =>
      (match BlockFileUrl(file)
       case Failure(e) => Failure(e)
       case Success(None) => Success([])
       case Success(Some(u)) => if u == "" then Success([]) else Success(["File URL: " + u]))
    case OtherBlock(_) => Success([])
  }

  /** What one page appends: nothing without an id or on a non-200 children answer. */
  function PageInfo(page: TipPage): (r: Result<seq<string>, Exception>)
    ensures page.id == "" ==> r == Success([])
    ensures page.id != "" && page.children.ChildrenRaised? ==> r == Failure(page.children.error)
    ensures page.children.Children? && page.children.status != 200 ==> r == Success([])
    ensures page.id != "" && page.children.Children? && page.children.status == 200 ==>
      r == FlatMap(page.children.blocks, BlockFragments)
    ensures r.Success? && page.children.Children? ==> |r.value| <= |page.children.blocks|
  {
    FragmentCount(if page.children.Children? then page.children.blocks else []);
    if page.id == "" then Success([])
    else
      match page.children
      case ChildrenRaised(e) => Failure(e)
      case Children(status, blocks) =>
        if status == 200 then FlatMap(blocks, BlockFragments) else Success([])
  }

  /** Every block adds at most one fragment. */
  lemma {:induction false} FragmentCount(blocks: seq<Block>)
    ensures FlatMap(blocks, BlockFragments).Success? ==> |FlatMap(blocks, BlockFragments).value| <= |blocks|
  {
    if blocks != [] {
      FragmentCount(blocks[1..]);
    }
  }

  /** Blocks of any other type contribute nothing, wherever they stand. */
  lemma OtherBlocksContributeNothing(a: seq<Block>, kind: string, b: seq<Block>)
    ensures FlatMap(a + [OtherBlock(kind)] + b, BlockFragments) == FlatMap(a + b, BlockFragments)
  {
    FlatMapAppend(a + [OtherBlock(kind)], b, BlockFragments);
    FlatMapSnoc(a, OtherBlock(kind), BlockFragments);
    FlatMapAppend(a, b, BlockFragments);
    var r := FlatMap(a, BlockFragments);
    if r.Success? {
      assert r.value + [] == r.value;
    }
  }

  /** The relevant_info list built by the nested loops of app.py:136-162 (and 356-382). */
  method CollectRelevantInfo(pages: seq<TipPage>) returns (r: Result<seq<string>, Exception>)
    ensures r == FlatMap(pages, PageInfo)
  {
    var info: seq<string> := [];
    for i := 0 to |pages|
      invariant FlatMap(pages[..i], PageInfo) == Success(info)
    {
      var page := pages[i];
      assert pages[..i + 1] == pages[..i] + [page];
      FlatMapSnoc(pages[..i], page, PageInfo);
      assert info + [] == info;
      if page.id != "" {
        match page.children
        case ChildrenRaised(e) =>
          FlatMapStopsEarly(pages, i, PageInfo);
          return Failure(e);
        case Children(status, blocks) =>
          if status == 200 {
            var fragments := AppendBlockFragments(blocks);
            if fragments.Failure? {
              FlatMapStopsEarly(pages, i, PageInfo);
              return Failure(fragments.error);
            }
            info := info + fragments.value;
          }
      }
    }
    assert pages[..|pages|] == pages;
    r := Success(info);
  }

  /** The inner loop over one page's blocks. */
  method AppendBlockFragments(blocks: seq<Block>) returns (r: Result<seq<string>, Exception>)
    ensures r == FlatMap(blocks, BlockFragments)
  {
    var info: seq<string> := [];
    for j := 0 to |blocks|
      invariant FlatMap(blocks[..j], BlockFragments) == Success(info)
    {
      var fragments := BlockFragments(blocks[j]);
      assert blocks[..j + 1] == blocks[..j] + [blocks[j]];
      FlatMapSnoc(blocks[..j], blocks[j], BlockFragments);
      if fragments.Failure? {
        FlatMapStopsEarly(blocks, j, BlockFragments);
        return Failure(fragments.error);
      }
      info := info + fragments.value;
    }
    assert blocks[..|blocks|] == blocks;
    r := Success(info);
  }

  /** The condensed grounding text, or the short-circuit when there is nothing to ground on. */
  datatype Summary = NothingFound | Summary(text: string)

  /** app.py:166-170: no fragments means no summary; otherwise " ".join(relevant_info). */
  function Summarize(info: seq<string>): (s: Summary)
    ensures s == NothingFound <==> info == []
    ensures |info| == 1 ==> s == Summary(info[0])
  {
    if info == [] then NothingFound else Summary(Join(info, " "))
  }

  /** The summary of two runs of fragments is their two summaries joined by a space. */
  lemma SummaryOfTwoRuns(a: seq<string>, b: seq<string>)
    requires a != [] && b != []
    ensures Summarize(a + b) == Summary(Summarize(a).text + " " + Summarize(b).text)
  {
    JoinAppend(a, b, " ");
  }

  /** The summary splits back into exactly the fragments when no fragment holds a space. */
  lemma SummaryKeepsFragments(info: seq<string>)
    requires info != []
    requires forall i :: 0 <= i < |info| ==> ' ' !in info[i]
    ensures Summarize(info).Summary? && Split(Summarize(info).text, ' ') == info
  {
    SplitJoin(info, ' ');
  }

  /** The JSON reply of /api/ask: a "response" or an "error". */
  datatype AskReply = AskResponse(text: string) | AskError(message: string)

  /** The reply made from the chat service's answer or its exception. */
  function GeneratedReply(outcome: Result<string, Exception>): AskReply
  {
    match outcome
    case Success(text) => AskResponse(text)
    case Failure(e) => AskError(Str(e))
  }

  /** The ask route (app.py:335-403). */
  method Ask(question: string, query: Query<TipPage>, generate: Generator) returns (reply: AskReply)
    ensures question == "" ==> reply == AskError(QuestionRequired)
    ensures question != "" && query.QueryRaised? ==> reply == AskError(Str(query.error))
    ensures question != "" && query.QueryAnswered? && query.status != 200 ==>
      reply == AskError("Notion API error: " + query.body)
    ensures question != "" && query.QueryAnswered? && query.status == 200 ==>
      match FlatMap(query.results, PageInfo)
      case Failure(e) => reply == AskError(Str(e))
      case Success(info) =>
        if info == [] then reply == AskResponse(NoTipsFound)
        else reply == GeneratedReply(generate(MentorChat(Join(info, " "), question)))
  {
    if question == "" {
      return AskError(QuestionRequired);
    }
    match query
    case QueryRaised(e) =>
      reply := AskError(Str(e));
    case QueryAnswered(status, body, results) =>
      if status != 200 {
        return AskError("Notion API error: " + body);
      }
      var info := CollectRelevantInfo(results);
      match info
      case Failure(e) =>
        reply := AskError(Str(e));
      case Success(fragments) =>
        match Summarize(fragments)
        case NothingFound =>
          reply := AskResponse(NoTipsFound);
        case Summary(summary) =>
          reply := GeneratedReply(generate(MentorChat(summary, question)));
  }

  /** The two values the home page template is rendered with. */
  datatype HomePage = HomePage(answer: Option<string>, errorMessage: Option<string>)

  /** The error_message each except clause of home sets (app.py:183-188). */
  function HomeErrorMessage(e: Exception): (message: string)
    ensures e.ValueError? ==> message == Str(e)
    ensures |Str(e)| <= |message| && message[|message| - |Str(e)|..] == Str(e)
  {
    match e
    case RequestException(m) => "Error retrieving data from Notion: " + m
    case ValueError(m) => m
    case _ => "An unexpected error occurred: " + Str(e)
  }

  /** The home route (app.py:110-190); isPost tells a POST from a GET. */
  method Home(isPost: bool, question: string, query: Query<TipPage>, generate: Generator)
    returns (page: HomePage)
    ensures !isPost ==> page == HomePage(None, None)
    ensures isPost && question == "" ==> page == HomePage(None, Some(NoQuestionProvided))
    ensures isPost && question != "" && query.QueryRaised? ==>
      page == HomePage(None, Some(HomeErrorMessage(query.error)))
    ensures isPost && question != "" && query.QueryAnswered? && query.status != 200 ==>
      page == HomePage(None, Some("Notion API error: " + query.body))
    ensures isPost && question != "" && query.QueryAnswered? && query.status == 200 ==>
      match FlatMap(query.results, PageInfo)
      case Failure(e) => page == HomePage(None, Some(HomeErrorMessage(e)))
      case Success(info) =>
        if info == [] then page == HomePage(Some(NoTipsFound), None)
        else
          match generate(MentorChat(Join(info, " "), question))
          case Success(text) => page == HomePage(Some(text), None)
          case Failure(e) => page == HomePage(None, Some(HomeErrorMessage(e)))
  {
    if !isPost {
      return HomePage(None, None);
    }
    if question == "" {
      return HomePage(None, Some(HomeErrorMessage(ValueError(NoQuestionProvided))));
    }
    match query
    case QueryRaised(e) =>
      page := HomePage(None, Some(HomeErrorMessage(e)));
    case QueryAnswered(status, body, results) =>
      if status != 200 {
        return HomePage(None, Some(HomeErrorMessage(ValueError("Notion API error: " + body))));
      }
      var info := CollectRelevantInfo(results);
      match info
      case Failure(e) =>
        page := HomePage(None, Some(HomeErrorMessage(e)));
      case Success(fragments) =>
        match Summarize(fragments)
        case NothingFound =>
          page := HomePage(Some(NoTipsFound), None);
        case Summary(summary) =>
          match generate(MentorChat(summary, question))
          case Success(text) =>
            page := HomePage(Some(text), None);
          case Failure(e) =>
            page := HomePage(None, Some(HomeErrorMessage(e)));
  }
}
