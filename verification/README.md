# Logo generator: prompt assembly and the generation protocol

A Dafny model of the decision logic of a small Flask web application that
draws company logos through a remote asynchronous image-generation API
(Yandex Art). Two endpoints are modelled:

- `POST /generate` takes a company name, an optional preset style key and
  optional free text. It builds a Russian prompt of the form
  `Создай логотип для компании "<name>".`, followed by the style's catalog
  phrase and the custom text, each as ` <text>.`. A blank company name is
  answered with 400 and nothing is generated.
- `POST /refine` takes an earlier prompt, a refinement and the earlier seed.
  It sends `<prompt> Дополнительно: <refinement>` with the same seed, so that
  the image keeps its structure. A blank prompt or refinement is answered
  with 400.

Both endpoints call the generation client. The client picks the seed (the
caller's, or the clock's), submits one creation request, then checks the
returned operation at most 60 times. It ends in exactly one success (image
and seed) or one failure kind. On failure the handler answers 500.

Modules, in dependency order:

- `Wrappers`: `Option` and `Result`.
- `Text`: Python's `str.strip()`. Whitespace is exactly the set of
  characters for which `str.isspace()` holds. The strip is given a
  declarative characterisation (`IsStripOf`), and the model proves it sound
  and complete.
- `Styles`: the preset style catalog.
- `Prompt`: prompt assembly for both endpoints, with validation errors as
  an explicit `Err`. The builder takes the style catalog as a parameter;
  the handler passes `PresetStyles`.
- `Generation`: the client. The creation reply is a parameter. The status
  checks are answered by a function `service`, where `service(k)` is the
  reply to the check numbered `k`. Timeouts and raised exceptions are
  replies of their own. `Poll` is the recursive classifier, with the check
  counter bounded by `MaxAttempts`. `PollOperation` and `RunGeneration` are
  the same loop and the same sequence of checks as imperative code, and are
  proved equal to the functions.
- `Handlers`: each endpoint reduced to its status code, its reply body and
  the generation request it made, if any.

## Model

| member | source | states |
|---|---|---|
| Text.Strip | app.py:131-132 | The stripped text has no whitespace at either end and is no longer than the input. It is empty exactly when every input character is whitespace, which is when Python treats the stripped field as false. |
| Text.StripIsStripOf | app.py:131-132 | Soundness of strip: the result is a contiguous slice of the input, only whitespace lies outside it, and neither of its ends is whitespace. |
| Text.StripOfUnique | app.py:131-132 | Completeness of strip: any slice with only whitespace around it and none at its ends is the strip, so the characterisation determines the result. |
| Text.StripTrimmed | app.py:168-169 | A text with no whitespace at either end is returned unchanged by strip. |
| Text.StripIdempotent | app.py:168-169 | Stripping an already stripped text changes nothing. |
| Prompt.StyleSegment | app.py:141-142 | The style adds text exactly when its key is non-empty and present in the catalog, and then it adds a space, the key's catalog phrase and a full stop; otherwise it adds nothing. |
| Prompt.CustomSegment | app.py:144-145 | The custom text adds nothing exactly when it is blank. Otherwise it adds a space, the stripped text and a full stop. |
| Prompt.AssembledPromptShape | app.py:139-145 | Any assembled prompt begins with the base sentence and carries the company name right after the opening words. It is non-empty and starts and ends with non-whitespace, since it ends in a full stop. |
| Prompt.BuildPrompt | app.py:131-145 | The create prompt is rejected with the missing-name error exactly when the name is blank. Otherwise it begins with the base sentence around the stripped name, which sits at a fixed offset, and it is non-empty and trimmed. |
| Prompt.BuildPromptParts | app.py:139-145 | For every non-blank company name, in every style and custom-text case, the prompt is the base sentence around the stripped name, then the style contribution, then the custom-text contribution, in that order. |
| Prompt.BuildPromptPlain | app.py:139 | With no catalog style and blank custom text, the prompt is exactly the base sentence around the stripped name. |
| Prompt.BuildPromptIgnoresUnknownStyle | app.py:141 | An empty or unknown style key gives the same result as no style at all. |
| Prompt.BuildPromptOrder | app.py:141-145 | With a catalog style and custom text, the prompt is the base sentence, then the style phrase, then the stripped custom text. Each of the last two is appended as a space, the text and a full stop. |
| Prompt.BuildPromptStyleOnly | app.py:141-142 | A catalog style with blank custom text appends exactly one sentence: the style's phrase. |
| Prompt.BuildPromptCustomOnly | app.py:141-145 | Custom text without a catalog style appends exactly one sentence after the base sentence: a space, the stripped custom text and a full stop. |
| Prompt.BuildPromptStripInvariant | app.py:131-132 | Whitespace around the name or the custom text never changes the create result, error or prompt. |
| Prompt.RefinePrompt | app.py:168-176 | Refine is rejected with the missing-input error exactly when the earlier prompt or the refinement is blank. Otherwise the result is the two stripped texts joined by " Дополнительно: ", and it is non-empty and trimmed. |
| Prompt.RefinePromptStripInvariant | app.py:168-169 | Whitespace around either refine input never changes the result. |
| Prompt.RefineTrimmed | app.py:176 | Inputs with nothing to strip are joined verbatim around the separator. |
| Prompt.RefineBuiltPrompt | app.py:168-176 | A prompt produced by the create handler, sent back to refine, is kept character for character, with the separator and refinement appended. |
| Prompt.RefineChain | app.py:168-176 | Refining a refined prompt appends a second separator and refinement after the first, keeping both refinements in order. |
| Prompt.RefineExamplePrompt | app.py:176 | Refining "Logo for X" with "make it blue" gives exactly "Logo for X Дополнительно: make it blue". |
| Generation.AcceptCreation | app.py:72-78 | Polling starts exactly when the creation call answered 200 with a non-empty operation id, and the verdict carries that id. A non-200 answer fails with the provider's text. A 200 answer without a usable id fails as missing id. A timeout and any other exception fail with their own kinds. |
| Generation.Settle | app.py:93-117 | A check lets the loop go on exactly when it answered 200 and is not done. It settles on a success exactly when it is done, has no error key and has a non-empty image; the success carries the image and the seed. Each other check fails with its own kind: a non-200 answer with the provider's text, a done check with an error key with that error, a done check without an image as image not found, a timeout as a request timeout, and any other exception with its message. No single check yields the generation-timeout failure. |
| Generation.Poll | app.py:81-112 | The loop makes at most 60 checks, and at least one more check whenever budget remains. A success carries the seed unchanged. The generation-timeout failure occurs only after all 60 checks. |
| Generation.PollOperation | app.py:81-112 | The counted while loop that returns from inside produces exactly the classifier's outcome and check count. |
| Generation.PollFirstSettled | app.py:84-110 | If check k is the first check that is not pending, and it is within the budget, the loop ends after exactly k + 1 checks with that check's verdict. |
| Generation.PollLastCheck | app.py:84-112 | On a generation timeout every check was pending. Otherwise every check but the last was pending, and the last check's verdict is the outcome. |
| Generation.PollTimeoutIff | app.py:110-112 | The loop times out exactly when all 60 checks are pending, and it then reports exactly 60 checks. |
| Generation.PollSuccessIff | app.py:98-106 | The loop succeeds exactly when some check within the budget delivers an image after only pending checks. The success carries that image and the seed, after exactly that many checks. |
| Generation.PollReadsOnlyChecksMade | app.py:84-91 | The outcome depends only on the replies to the checks actually made: a service agreeing on those checks gives the same result. |
| Generation.GenerateImage | app.py:42-117 | The request carries the prompt, a square aspect ratio, and either the explicit seed or the clock. A success returns the request's seed. At most 60 checks are made. A rejected or unusable creation reply ends in its failure with no checks. |
| Generation.RunGeneration | app.py:42-117 | The client written as app.py's statement sequence gives exactly the functional model's result. |
| Generation.GenerateImageStages | app.py:72-84 | A non-200 creation answer or a missing or empty id ends with that failure and zero checks. An accepted creation hands over to the loop with the request's seed. |
| Handlers.HandleGenerate | app.py:126-160 | The status is 400, 200 or 500. It is 400 exactly when the company name is blank, and exactly when no generation was requested. A request, when made, is the client call on the built prompt with the clock seed. The reply is 200 exactly when that call succeeded, with its image, the prompt and the clock seed. Otherwise it is 500 with the call's failure. |
| Handlers.HandleRefine | app.py:163-189 | The status is 400, 200 or 500. It is 400 exactly when either input is blank, and exactly when no generation was requested. A request is the client call on the joined prompt, reusing the client's seed, or the clock when none was sent. The reply is 200 exactly when that call succeeded, with its image, the joined prompt and the request's seed. Otherwise it is 500 with the call's failure. |
| Handlers.RefineExample | app.py:176 | Refining "Logo for X" with "make it blue" sends "Logo for X Дополнительно: make it blue" with the seed sent back. |
| Handlers.RefineAfterGenerate | app.py:155-189 | The page's round trip: the prompt and seed from a successful create, sent back with a non-blank refinement, yield a request that extends that prompt verbatim and reuses that seed. |

## Left out

- Flask routing, the `GET /` index page, `request.json` parsing and `jsonify`. A missing JSON field is modelled as the empty string, or as no seed. The `success: true` field of the 200 body is implied by the `Generated` body.
- A field of the wrong JSON type, such as a number where a string is expected, is not modelled. Strip on a non-string raises, and Flask answers 500 for that. The refine seed is modelled as an optional integer; JSON `null` is an absent seed.
- HTTP itself is not modelled: `requests`, the headers, the API key, the model URI built from `FOLDER_ID`, the message weight and the unused `model` parameter. The service's replies are parameters. The operation id is not passed to `service`, because the function stands for the replies of one operation.
- Generation.Poll: the status-check replies are a total function from check number to reply, not a finite list. Every check the loop makes has a reply, and the model requires no length of the caller.
- `time.sleep(2)` between checks is not modelled. `time.time()` is the `clock` parameter.
- The Russian error texts are modelled as the closed `FailureKind` enumeration. Each kind keeps the provider text or exception text that its message interpolates.
- Raised exceptions are folded into the replies `CreateRaised` and `PollRaised`. This includes a body that is not JSON, which app.py parses only after the status test, and a `response` field that is not an object. They carry the exception text as an uninterpreted string.
- JSON truthiness is modelled only where it decides a branch. `done` is a boolean. `error` is key presence. The operation id and the image are optional strings, and an empty string counts as absent.
- The image is an opaque string; base64 content is not modelled.
- The browser script (`static/script.js`) is display logic and is not modelled. Its one contract with the server, sending back the returned prompt and seed, is the round trip stated by `Handlers.RefineAfterGenerate`.
