/**
 * The scene-analysis route (app.py:192-271): the newest page of the scene
 * database gives a title and uploaded PDF files; the title line and the
 * text of every file make up the scene content, which the chat service
 * turns into leading questions for the actor.
 */
module SceneAnalysis {
  import opened Wrappers
  import opened Services
  import opened Notion
  import opened Gather
  import opened PdfText
  import opened ActingTips

  const NoScenesFound := "No scenes found in the Scene Analysis database."
  const NoFilesFound := "No files found in the Upload Scene property."
  const UrlNotFound := "File URL not found"
  const AccessErrorPrefix := "Error accessing file URL: "
  const ExtractErrorPrefix := "Error extracting text from PDF: "

  /**
   * The url the file loop reads (app.py:232-238): from the member that "type"
   * names when that member is there, and None otherwise. It is the url the
   * acting-tips routes read, except that a missing member or url is None here
   * rather than a KeyError.
   */
  function SceneFileUrl(file: FileRef): (url: Option<string>)
    ensures url.Some? <==> BlockFileUrl(file).Success? && BlockFileUrl(file).value.Some?
    ensures url.Some? ==> BlockFileUrl(file) == Success(url)
  {
    if file.kind == "file" && file.hosted.Some? then file.hosted.value.url
    else if file.kind == "external" && file.external.Some? then file.external.value.url
    else None
  }

  /**
   * What one file adds to the scene content, or the error message the route
   * returns for it (app.py:229-254): a file without a url, a download that
   * failed and a parse that raised each end the route.
   */
  function FileChunk(file: FileRef, fetch: string -> Download): (r: Result<string, string>)
    ensures (SceneFileUrl(file) == None || SceneFileUrl(file) == Some("")) ==>
      r == Failure(AccessErrorPrefix + Str(KeyError(UrlNotFound)))
    ensures r.Success? ==> exists url :: (SceneFileUrl(file) == Some(url) && url != "" &&
      fetch(url).Downloaded? &&
      r.value == "File: " + url + "\n" + "Extracted Text: " + Text.Concat(KeptTexts(fetch(url).pages)) + "\n")
    ensures forall url :: SceneFileUrl(file) == Some(url) && url != "" ==> r == FetchedChunk(url, fetch(url))
  {
    match SceneFileUrl(file)
    case None => Failure(AccessErrorPrefix + Str(KeyError(UrlNotFound)))
    case Some(url) =>
      if url == "" then Failure(AccessErrorPrefix + Str(KeyError(UrlNotFound)))
      else FetchedChunk(url, fetch(url))
  }

  /** The part of a file's chunk that follows from what fetching its url gave. */
  function FetchedChunk(url: string, download: Download): (r: Result<string, string>)
    ensures download.DownloadFailed? ==>
      r == Failure(ExtractErrorPrefix + "Unable to download the file from " + url + ".")
    ensures download.ParseFailed? && download.error.KeyError? ==>
      r == Failure(AccessErrorPrefix + Str(download.error))
    ensures download.ParseFailed? && !download.error.KeyError? ==>
      r == Failure(ExtractErrorPrefix + Str(download.error))
    ensures r.Success? <==> download.Downloaded?
  {
    match ExtractedText(download)
    case Success(None) => Failure(ExtractErrorPrefix + "Unable to download the file from " + url + ".")
    case Failure(e) =>
      // a KeyError is caught by the first except clause, anything else by the second
      if e.KeyError? then Failure(AccessErrorPrefix + Str(e)) else Failure(ExtractErrorPrefix + Str(e))
    case Success(Some(text)) => Success("File: " + url + "\n" + "Extracted Text: " + text + "\n")
  }

  /** FileChunk with the fetcher fixed, as the function the file loop maps over the files. */
  function ChunkOf(fetch: string -> Download): FileRef -> Result<string, string>
  {
    file => FileChunk(file, fetch)
  }

  /**
   * The file loop stops at the first file that fails, with that file's
   * message; it fails exactly when some file fails.
   */
  lemma FirstFailingFileDecides(files: seq<FileRef>, fetch: string -> Download)
    ensures FlatMap(files, ChunkOf(fetch)).Failure? <==> exists i :: 0 <= i < |files| && FileChunk(files[i], fetch).Failure?
    ensures FlatMap(files, ChunkOf(fetch)).Failure? ==>
      exists i :: 0 <= i < |files| && FlatMap(files, ChunkOf(fetch)) == FileChunk(files[i], fetch) &&
        forall j :: 0 <= j < i ==> FileChunk(files[j], fetch).Success?
  {
    FlatMapFailure(files, ChunkOf(fetch));
  }

  /** A file without a url after files that all succeed ends the loop with the url message. */
  lemma FileWithoutUrlStops(files: seq<FileRef>, fetch: string -> Download, i: nat)
    requires i < |files|
    requires forall j :: 0 <= j < i ==> FileChunk(files[j], fetch).Success?
    requires SceneFileUrl(files[i]) == None || SceneFileUrl(files[i]) == Some("")
    ensures FlatMap(files, ChunkOf(fetch)) == Failure(AccessErrorPrefix + Str(KeyError(UrlNotFound)))
  {
    var f := ChunkOf(fetch);
    forall j | 0 <= j < i
      ensures f(files[j]).Success?
    {
    }
    assert f(files[i]) == Failure(AccessErrorPrefix + Str(KeyError(UrlNotFound)));
    FlatMapFailsAt(files, f, i);
  }

  /** The chunks of two runs of files that both succeed are the chunks of the first run, then those of the second. */
  lemma ChunksInFileOrder(first: seq<FileRef>, second: seq<FileRef>, fetch: string -> Download)
    requires FlatMap(first, ChunkOf(fetch)).Success? && FlatMap(second, ChunkOf(fetch)).Success?
    ensures FlatMap(first + second, ChunkOf(fetch))
         == Success(FlatMap(first, ChunkOf(fetch)).value + FlatMap(second, ChunkOf(fetch)).value)
  {
    FlatMapAppend(first, second, ChunkOf(fetch));
  }

  /** The file loop of app.py:229-254, extracting each PDF with the extraction routine. */
  method AssembleSceneContent(titleLine: string, files: seq<FileRef>, fetch: string -> Download)
    returns (r: Result<string, string>)
    ensures match FlatMap(files, ChunkOf(fetch))
      case Failure(m) => r == Failure(m)
      case Success(chunks) => r == Success(titleLine + chunks)
  {
    var content := "";
    for i := 0 to |files|
      invariant FlatMap(files[..i], ChunkOf(fetch)) == Success(content)
    {
      var file := files[i];
      FlatMapStep(files, i, ChunkOf(fetch), content);
      var url := SceneFileUrl(file);
      if url == None || url == Some("") {
        return Failure(AccessErrorPrefix + Str(KeyError(UrlNotFound)));
      }
      var extracted := ExtractTextFromPdf(fetch(url.value));
      match extracted
      case Success(None) =>
        return Failure(ExtractErrorPrefix + "Unable to download the file from " + url.value + ".");
      case Failure(e) =>
        if e.KeyError? {
          return Failure(AccessErrorPrefix + Str(e));
        }
        return Failure(ExtractErrorPrefix + Str(e));
      case Success(Some(text)) =>
        content := content + ("File: " + url.value + "\n" + "Extracted Text: " + text + "\n");
    }
    assert files[..|files|] == files;
    r := Success(titleLine + content);
  }

  /** The title list of the newest scene: properties["Title"]["title"], [] when either is missing. */
  function SceneTitle(properties: seq<Property>): (title: seq<RichText>)
    ensures title != [] ==> exists p :: p in properties && p.name == "Title" && p.title == Some(title)
    ensures Lookup(properties, "Title").Some? && Lookup(properties, "Title").value.title.Some? ==>
      title == Lookup(properties, "Title").value.title.value
  {
    match Lookup(properties, "Title")
    case None => []
    case Some(p) => p.title.GetOr([])
  }

  /** The JSON reply of /scene_analysis: the generated "questions", a "message" or an "error". */
  datatype SceneReply =
    | GeneratedQuestions(text: string)
    | SceneMessage(message: string)
    | SceneError(message: string)

  /** The route's reply to what the chat service gave for the scene content. */
  function SceneGenerated(outcome: Result<string, Exception>): SceneReply
  {
    match outcome
    case Success(text) => GeneratedQuestions(text)
    case Failure(e) => SceneError(Str(e))
  }

  /**
   * scene_analysis (app.py:192-271) on the answer to the query for the
   * newest scene. Every error the route raises is caught by its outer
   * handler and replied with str(e); the file loop's errors are replied
   * with their own messages.
   */
  method Analyze(query: Query<ScenePage>, fetch: string -> Download, generate: Generator)
    returns (reply: SceneReply)
    ensures query.QueryRaised? ==> reply == SceneError(Str(query.error))
    ensures query.QueryAnswered? && query.status != 200 ==>
      reply == SceneError("Scene Analysis API error: " + query.body)
    ensures query.QueryAnswered? && query.status == 200 && query.results == [] ==>
      reply == SceneError(Str(IndexError))
    ensures query.QueryAnswered? && query.status == 200 && query.results != [] ==>
      var properties := query.results[0].properties;
      var title := SceneTitle(properties);
      var upload := Lookup(properties, "Upload Scene");
      if title == [] || upload.None? then reply == SceneMessage(NoScenesFound)
      else if title[0].content.None? then reply == SceneError(Str(KeyError("text")))
      else if upload.value.files.GetOr([]) == [] then reply == SceneError(NoFilesFound)
      else
        match FlatMap(upload.value.files.value, ChunkOf(fetch))
        case Failure(m) => reply == SceneError(m)
        case Success(chunks) =>
          reply == SceneGenerated(generate(SceneChat("Title: " + title[0].content.value + "\n" + chunks)))
  {
    match query
    case QueryRaised(e) =>
      reply := SceneError(Str(e));
    case QueryAnswered(status, body, results) =>
      if status != 200 {
        return SceneError(Str(ValueError("Scene Analysis API error: " + body)));
      }
      if results == [] {
        return SceneError(Str(IndexError));
      }
      var properties := results[0].properties;
      var title := SceneTitle(properties);
      var upload := Lookup(properties, "Upload Scene");
      if title == [] || upload.None? {
        return SceneMessage(NoScenesFound);
      }
      if title[0].content.None? {
        return SceneError(Str(KeyError("text")));
      }
      var titleLine := "Title: " + title[0].content.value + "\n";
      var files := upload.value.files.GetOr([]);
      if files == [] {
        return SceneError(NoFilesFound);
      }
      var content := AssembleSceneContent(titleLine, files, fetch);
      match content
      case Failure(m) =>
        reply := SceneError(m);
      case Success(sceneContent) =>
        reply := SceneGenerated(generate(SceneChat(sceneContent)));
  }
}
