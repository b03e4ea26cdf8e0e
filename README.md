# SAC acting coach: a Dafny model of app.py

The system is a small Flask backend for actors, in the single file `app.py`.
It does four things:
- it answers questions about acting using the pages of a Notion "Acting Tips" database (`home` and `ask`);
- it reads the newest uploaded scene PDF and asks the chat service for leading questions about it (`scene_analysis`);
- it loads a list of interview questions from the titles in the scene database (`get_questions`) and walks one user through them, storing the answers in the Flask session (`submit_answer`);
- when the last question is answered, it asks the chat service for feedback on the question/answer transcript (`generate_final_feedback`).

This project models that logic in Dafny and proves properties of the model. Everything outside the process becomes an input:
- the Notion answers (`Notion` datatypes);
- the PDF download and PyPDF2's page texts (`PdfText.Download`);
- S3's `put_object` outcome (`S3Upload.PutOutcome`);
- the chat-completion call, a function parameter `Services.Generator` from a `Services.ChatRequest` to text or an exception. There are three kinds of request: the mentor question, the scene and the feedback transcript. `Services.SystemMessage` and `Services.UserMessage` give each request's two messages, with the prompt texts of app.py:176-177, 260-261 and 466-467. A request is determined by its kind and its two messages (`Services.MessagesDetermineRequest`). So a function of the request is as general as a function of the messages.

The modules follow the program's parts:
- `Wrappers`: `Option` and `Result`.
- `Services`: the exception kinds the handlers tell apart, Python's `str(e)` for each, and the chat requests.
- `Text`: `"".join`, `sep.join` and `split`.
- `Gather`: `FlatMap`, the shape of every append loop in `app.py`. It visits the elements in order, appends what each contributes, and stops at the first exception. The append loops of the routes are proved equal to a `FlatMap`. The transcript loop of `generate_final_feedback` is proved equal to `Feedback.Render` of the zipped pairs, and the page loop of `extract_text_from_pdf` to the concatenation of the kept page texts.
- `PdfText`: `extract_text_from_pdf`.
- `S3Upload`: `upload_file_to_s3`.
- `Notion`: the JSON shapes the routes read.
- `ActingTips`: `home` and `ask`.
- `SceneAnalysis`: `scene_analysis`.
- `SceneQuestions`: `get_questions`.
- `Feedback`: `generate_final_feedback`.
- `Interview`: the session and `submit_answer`. The session is a class, `SessionStore`, whose methods change its `questions` and `responses` fields. `SubmitAnswer` is proved against the pure step function `Interview.Step`, and `StoreQuestions` against `Interview.WithQuestions`. The lemmas about `Interview.Run` (several submits in a row) carry the interview's properties. They hold for any `Interview.Reviewer`, the function that turns the questions and responses into the final reply. `SubmitAnswer` uses `Interview.GeneratedFeedback`, which is `generate_final_feedback` with the chat service fixed. A run fixes one reviewer, so the lemmas about runs say which feedback request each final reply answers. They do not say that two calls of the chat service give the same text.

The model follows `app.py`, including these behaviours:
- Submits after the last question are not refused. Each is appended and answered with feedback again, asked for with the same request (`Interview.SubmitsAfterLastQuestion`).
- Storing a new question list keeps the stored responses (`Interview.WithQuestions`, `Interview.NewQuestionsContinueAfterOldResponses`). So `len(responses) <= len(questions)` is not an invariant.
- The interview's question list is not parsed from generated text. `get_questions` takes the first title text of every titled property of every page of the scene database. The text that `scene_analysis` generates is only returned to the caller.
- The final submit returns the generated feedback, not the transcript. The transcript is only the content of the feedback request.
- A PDF that fails to download makes `extract_text_from_pdf` return `None`. A parse error is not caught there.

## Model

| member | source | states |
|---|---|---|
| Interview.Step | app.py:308-333 | an empty answer gives "Answer is required" and changes nothing; without stored questions the reply is "Questions are missing in session." and nothing changes; otherwise the answer is appended, and the reply is `questions[len(responses)]` exactly when that index exists, else the reviewer's feedback on the new responses; the questions never change |
| Interview.WithQuestions | app.py:301 | storing a question list keeps the stored responses |
| Interview.SessionStore.constructor | app.py:316-319 | a new session holds no questions and no responses |
| Interview.SessionStore.StoreQuestions | app.py:301 | the new state is the old one with the question list replaced |
| Interview.SessionStore.SubmitAnswer | app.py:308-333 | the new state and the reply are those of `Step` on the old state, with the generated feedback as reviewer; responses grow by exactly the answer or stay as they were; questions never change |
| Interview.Run | app.py:308-333 | a run of submits gives one reply per answer |
| Interview.RunAppends | app.py:319-321 | non-empty answers against a stored list are all appended, in order |
| Interview.RunReplyAt | app.py:325-330 | the reply to the i-th answer is the question at the new response count while one exists, and otherwise the feedback on the responses up to that answer |
| Interview.NextReplies | app.py:325-327 | in a run that does not pass the last question, every answer but the last gets the next question |
| Interview.LastReply | app.py:328-330 | the answer that reaches the question count gets the feedback on all responses |
| Interview.InterviewWalk | app.py:308-333 | answering the remaining questions returns questions k+1 … n-1 in order, then the feedback on the whole transcript, and leaves all answers stored |
| Interview.ReplyAfterLast | app.py:325-330 | once the responses reach the question count, every further answer is answered with feedback, and the feedback request built from the responses so far is the one built at the last question |
| Interview.SubmitsAfterLastQuestion | app.py:319-330 | after the last question, answers keep being appended, and every reply is feedback asked for with the same request |
| Interview.NewQuestionsContinueAfterOldResponses | app.py:319-327 | after a new list is stored over k responses (app.py:301), the next answer gets question k+1 of the new list, or feedback |
| Interview.TwoQuestionInterview | app.py:308-333 | the two-question run: "What is at stake?", then the feedback on the two transcript lines |
| Feedback.Zip | app.py:460 | the pairs are min(len(questions), len(responses)) in number, and the i-th pairs the i-th question with the i-th response |
| Feedback.ZipTruncates | app.py:460 | only the first min(len(questions), len(responses)) entries of each list matter |
| Feedback.ZipAnswered | app.py:460 | answering an existing question adds exactly its pair at the end |
| Feedback.ZipIgnoresExtraAnswers | app.py:460 | answers beyond the last question never reach the transcript |
| Feedback.RenderAppend | app.py:459-461 | the transcript of two runs of pairs is their transcripts concatenated |
| Feedback.Line | app.py:461 | the line of a pair is 8 characters longer than its question and answer, and both can be read back from it |
| Feedback.Render | app.py:459-461 | the transcript is empty exactly when there are no pairs |
| Feedback.RenderSnoc | app.py:459-461 | one more pair adds exactly its line at the end of the transcript |
| Feedback.TranscriptGrows | app.py:459-461 | answering an existing question adds exactly "Q: q\nA: a\n" at the end of the transcript |
| Feedback.FeedbackRequestIgnoresExtraAnswers | app.py:459-467 | once every question has a response, more responses do not change the request sent to the chat service |
| Feedback.FeedbackRequest | app.py:459-467 | the feedback request carries the transcript, which is empty exactly when there are no questions or no responses |
| Feedback.FeedbackRequestMessages | app.py:466-467 | the request's system message is the fixed feedback instruction and its user message is the transcript between the fixed lead-in and closing line |
| Feedback.FeedbackOf | app.py:457-474 | the feedback is the service's text for the feedback request, or "An error occurred while generating feedback: " + str(e) when the call raises |
| Feedback.GenerateFinalFeedback | app.py:457-474 | the loop builds the transcript of the zipped pairs; the result is the generated text, or "An error occurred while generating feedback: " + str(e) when the call raises |
| PdfText.KeptTexts | app.py:88-92 | the appended page texts are non-empty, are page texts, and are no more than the pages |
| PdfText.ExtractedText | app.py:74-97 | None exactly for a failed download; a failure exactly for a parse exception, which propagates; otherwise the concatenation of the kept page texts |
| PdfText.KeptTextsAppend | app.py:88-92 | the kept texts of two page runs are the kept texts of each, in order |
| PdfText.PdfTextAppend | app.py:88-92 | the text of a document is the text of its first pages followed by that of the rest |
| PdfText.BlankPageContributesNothing | app.py:90-92 | a page with None or "" text changes nothing wherever it stands |
| PdfText.PdfTextSnoc | app.py:89-92 | one more page appends its text exactly when it has one |
| PdfText.ExtractTextFromPdf | app.py:74-97 | a failed download gives None; a parse exception propagates; otherwise the result is the in-order concatenation of the non-empty page texts |
| S3Upload.ObjectKey | app.py:105 | a key is found only in a URL of the bucket and region |
| S3Upload.PublicUrl | app.py:105 | the URL is the bucket-and-region prefix followed by exactly the key |
| S3Upload.ObjectKeyOfPublicUrl | app.py:105 | the key is recovered from the public URL |
| S3Upload.PublicUrlInjective | app.py:105 | different keys get different URLs |
| S3Upload.UploadFileToS3 | app.py:99-108 | missing credentials give None; any other exception propagates; a stored object's URL names exactly its key in that bucket and region |
| Notion.Lookup | app.py:217-218 | a found property is in the list and has the name; None only when no property has it |
| ActingTips.ParagraphText | app.py:153 | joining the rich-text contents fails, with KeyError 'text', exactly when some item has no text; otherwise it is the in-order concatenation of the item texts |
| ActingTips.ParagraphTextJoins | app.py:153 | when every item has text, the join is the concatenation of the item texts in order |
| ActingTips.Contents | app.py:153 | the texts of the items, one per item, in order |
| ActingTips.BlockFileUrl | app.py:155-160 | a file of another type has no url; the url is read from the member that the type names; a missing member or url raises its KeyError |
| ActingTips.MemberUrl | app.py:157-160 | a missing member raises KeyError of its key, a missing url KeyError 'url'; otherwise the member's url |
| ActingTips.BlockFragments | app.py:150-162 | a block adds at most one fragment; other blocks add none; a non-empty paragraph adds its joined text, or raises KeyError 'text'; an empty paragraph adds nothing; a file block whose type-named member has a non-empty url adds exactly "File URL: " + that url, adds nothing else, adds nothing for an empty url or another file type, and raises the KeyError of a missing member or url |
| ActingTips.FragmentCount | app.py:149-162 | the blocks of a page add at most one fragment each |
| ActingTips.PageInfo | app.py:138-164 | a page without an id or with a non-200 children answer adds nothing; a raised children request propagates; a page with an id and a 200 answer adds its blocks' fragments in block order, at most one per block |
| ActingTips.OtherBlocksContributeNothing | app.py:149-162 | a block of any other type changes nothing wherever it stands |
| ActingTips.CollectRelevantInfo | app.py:136-162 | the nested loops give the in-order fragments of the pages that have an id and a 200 children answer, or the first exception |
| ActingTips.AppendBlockFragments | app.py:149-162 | the inner loop gives the in-order fragments of the blocks, or the first exception |
| ActingTips.Summarize | app.py:166-170 | there is no summary exactly when there are no fragments; a single fragment is its own summary |
| ActingTips.SummaryOfTwoRuns | app.py:170 | the summary of two runs of fragments is their summaries joined by one space |
| ActingTips.SummaryKeepsFragments | app.py:170 | when no fragment holds a space, splitting the summary on spaces gives back the fragments |
| ActingTips.Ask | app.py:335-403 | an empty question gives "Question is required"; a raised query gives str(e); a non-200 answer gives "Notion API error: " + body; an extraction exception gives str(e); no fragments gives the fixed reply without using the generator; otherwise the reply is the answer to the summary-grounded request, or str(e) |
| ActingTips.Home | app.py:110-190 | a GET renders nothing; each failure sets the error message of its except clause; no fragments renders the fixed answer without using the generator; otherwise the generated answer |
| ActingTips.HomeErrorMessage | app.py:183-188 | a ValueError's message is str(e); every message ends with str(e) |
| SceneQuestions.PropertyQuestions | app.py:294-295 | a titled property gives its first title text, or KeyError 'text'; any other property gives nothing |
| SceneQuestions.PageQuestions | app.py:293-295 | a page that does not fail gives one question per titled property |
| SceneQuestions.PageQuestionsAreTitles | app.py:293-295 | a page's questions are exactly the first title texts of its titled properties |
| SceneQuestions.QuestionsAreTitles | app.py:291-295 | every question comes from a titled property of some page, and every titled property of every page gave its title text |
| SceneQuestions.PageQuestionCount | app.py:293-295 | a page gives exactly one question per titled property |
| SceneQuestions.QuestionCount | app.py:291-295 | the list has exactly one question per titled property of every page |
| SceneQuestions.PageQuestionsFailure | app.py:293-295 | a page fails, with KeyError 'text', exactly when one of its titled properties has a first item without text |
| SceneQuestions.QuestionsFailure | app.py:291-306 | collecting fails, with KeyError 'text', exactly when some titled property's first item has no text |
| SceneQuestions.CollectQuestions | app.py:291-295 | the nested loops give the questions page by page, then property by property, or the first exception |
| SceneQuestions.CollectPageQuestions | app.py:293-295 | the inner loop gives one page's questions in property order |
| SceneQuestions.GetQuestions | app.py:273-306 | a raised query or a non-200 answer gives an error and stores nothing; an empty list gives the "No questions found" message and stores nothing; otherwise exactly the collected list is stored, the responses stay as they were, and the list is returned |
| SceneAnalysis.SceneFileUrl | app.py:232-238 | the url is found exactly when the acting-tips file-block rule finds one, and it is the same url |
| SceneAnalysis.FileChunk | app.py:229-254 | a file with no url or an empty one fails with "Error accessing file URL: 'File URL not found'"; a file with a non-empty url gets the chunk of its download; a successful chunk is "File: " + url + "\n" + "Extracted Text: " + the PDF text + "\n" |
| SceneAnalysis.FetchedChunk | app.py:244-254 | a failed download gives "Error extracting text from PDF: Unable to download the file from <url>."; a raised KeyError is reported as a url-access error, any other exception as an extraction error; success exactly when the PDF was read |
| SceneAnalysis.FirstFailingFileDecides | app.py:229-254 | the file loop fails exactly when some file fails, with the message of the first one that fails |
| SceneAnalysis.FileWithoutUrlStops | app.py:237-251 | a file without a url after files that all succeed ends the loop with the url message |
| SceneAnalysis.ChunksInFileOrder | app.py:229-254 | when two runs of files both succeed, the chunks of their concatenation are the first run's chunks followed by the second's |
| SceneAnalysis.AssembleSceneContent | app.py:223-254 | the loop's content is the title line followed by every file's chunk in order, or the message of the first failing file |
| SceneAnalysis.SceneTitle | app.py:217 | when the "Title" property has a "title" list, that list is returned; a non-empty result is always that list |
| SceneAnalysis.Analyze | app.py:192-271 | a raised query gives str(e); a non-200 answer gives "Scene Analysis API error: " + body; no results gives "list index out of range"; no title or no upload gives the "No scenes found" message; a title without text gives "'text'"; no files gives "No files found in the Upload Scene property."; a failing file gives its message; otherwise the reply is the generated text for the scene request, or str(e) |
| Text.Split | app.py:170 | the inverse of the `" ".join` at these lines, used for the round-trip lemma: splitting yields at least one piece, and a string without the separator is its own only piece |
| Text.SplitJoin | app.py:170 | joining with a one-character separator and splitting again gives back the parts when no part holds the separator |
| Text.Concat | app.py:153 | the joined text is as long as all parts together |
| Text.Join | app.py:170 | one part is its own join; otherwise the join adds one separator between each two neighbouring parts |
| Gather.FlatMapFailure | app.py:136-162 | an append loop fails exactly when some element fails, with the first such failure |
| Gather.FlatMapMembers | app.py:136-162 | everything an append loop gathered was contributed by some element |
| Gather.FlatMapIncludes | app.py:291-295 | everything any element contributed is in what the append loop gathered |
| Gather.FlatMapStep | app.py:229-254 | one more element either appends its contribution to what the loop gathered or, when it raises, decides the whole loop |
| Gather.FlatMapFailsAt | app.py:229-254 | an element that fails after elements that all succeed decides the loop's failure |
| Gather.FlatMap | app.py:136-162 | the append loop over one element gives exactly what that element contributes |
| Services.MessagesDetermineRequest | app.py:466-467 | two requests of the same kind with the same system and user messages (these lines, and app.py:176-177 and 260-261) are the same request |
| Services.Str | app.py:186 | str of a KeyError is its key between single quotes; str of an IndexError is "list index out of range" |
| Services.SystemMessage | app.py:260 | the mentor system message is the fixed instruction followed by the summary (app.py:176); the scene and feedback system messages are their fixed instructions (app.py:466) |
| Services.UserMessage | app.py:261 | the mentor user message is the question (app.py:177); the scene and feedback user messages hold their content between a fixed lead-in and closing text (app.py:467) |

## Left out

- The chat service is modelled as a function of its request. The live service can answer the same request differently on repeated calls, or fail once and succeed later. So the model does not promise that repeated submits after the last question get the same text. It promises only that they send the same request (`Interview.SubmitsAfterLastQuestion`).
- Request bodies are read with `data.get(..., '')`, which accepts any JSON value. `if not answer` also rejects 0, false, null, [] and {}, and a truthy non-string answer is appended as is. The model takes the answer and the question as strings, with "" standing for a missing or falsy value.
- Exception messages: a KeyError's key is assumed to hold no quote, backslash or control character, so that `str(e)` is the key between single quotes (`Services.Str`). Python prints such keys with double quotes or escapes. Every key app.py raises itself ('text', 'url', 'external', 'file', 'File URL not found') meets this, but KeyErrors given as inputs (a failed parse, the chat service, a raised Notion request) may not.
- Notion property names are assumed unique within a page. Python's JSON decoding keeps the last of duplicate keys. `Notion.Lookup` takes the first match and `SceneQuestions.PageQuestions` visits every entry, so the two readings agree only when names are unique.

- Flask routing, `request`, `jsonify`, `render_template` and HTTP status codes. Replies keep only which JSON key they set (error, message, next question, feedback and so on).
- The Notion, PDF-download, OpenAI and S3 calls. Their answers are inputs. `response.json()` decoding errors are not modelled.
- Temporary files and PyPDF2's parsing. A download is given as its list of page texts, or as a request failure, or as a parse exception.
- Environment loading and the startup S3 probe (app.py:15-63). Bucket and region are parameters.
- The upload route (app.py:405-455): its file-part guards, the temporary file and the Notion page payload. Only `upload_file_to_s3`, which it calls, is modelled.
- The filesystem-backed session store's concurrency. One session is one `SessionStore` object.
- JSON keys that the code indexes without a default are assumed present: `block["paragraph"]`, `file["type"]` and the content inside a rich-text item's "text". A missing "text" object, file member or "url" is modelled as the KeyError it raises.
- A property present under "Upload Scene" is assumed to be a non-empty dictionary, so `not upload_scene` holds exactly when the property is missing.
- The `print` calls, the model names and `max_tokens` of the chat requests.
