# Pictures Re-imaginer: the submit pipeline, its session state and the upload gate

A single-page app lets a user upload a photo and type a creative direction. On submit it
reads the photo as a data URL, strips the `data:<mime>;base64,` envelope, asks a
vision model to describe the photo, puts the description and the direction into a fixed
prompt template, asks an image model for one new picture, and shows the result as a
`data:image/png;base64,` URI. Every failure becomes one message on the page.

This project models that core in Dafny:

- `Common` (`common.dfy`): `Option` for JavaScript's `null`/`undefined`, `Result` for a
  value or a thrown error's message, and the browser `File`.
- `GeminiService` (`gemini_service.dfy`): `describeImage` and `generateImage`. These are
  pure functions. The SDK calls are function-typed parameters from request to response or
  error. The model covers the request each function builds, the value it selects, and the
  single message each function's failures become.
- `Envelope` (`envelope.dfy`): JavaScript's `split` with a one-character separator, the
  `split(',')[1]` envelope strip, and the PNG data-URI wrap.
- `App` (`app.dfy`): the `App` component's five state fields as class `Editor`. Its
  `HandleImageUpload` and `HandleSubmit` methods change those fields step by step. The
  button's enabled condition is `Editor.SubmitEnabled`. `HandleSubmit` is proved to equal
  the pure function `Submit`, and the lemmas are stated about `Submit`. The outside world
  of one run is a `Services` value. It holds the FileReader read and the two SDK calls, and
  the caller chooses how each of them answers. `HandleSubmit` returns the steps it awaited,
  in order. Each step carries the state shown while it is pending, so you can check the
  sequencing, the short-circuit on failure and the loading flag.
- `ImageUploader` (`image_uploader.dfy`): the `handleFile` media-type gate and the
  first-file choice of the drop and change handlers. Class `Uploader` holds the
  `isDragging` and `imagePreview` fields. Each handler returns what it passed to
  `onImageUpload`, or says that it did not call it.

Some behaviours of the code are easy to misread:

- Only the empty prompt is refused. A prompt of blanks passes the guard (`BlankPromptPasses`).
- The upload gate accepts every `image/` type, `image/gif` included, not only png, jpeg and webp (`GateExamples`).
- The description is used as returned. An empty description is not an error.
- The inline image is always declared as `image/jpeg`, whatever the upload's real type (`DescribeRequestShape`).

## Model

| member | source | states |
|---|---|---|
| `App.Editor.constructor` | App.tsx:10-14 | the session starts with no file, an empty prompt, no image, not loading, no error |
| `App.Editor.SetPrompt` | App.tsx:77 | typing replaces the prompt and changes nothing else |
| `App.Editor.HandleImageUpload` | App.tsx:16-19 | the state becomes `Upload(old state, file)`: file stored, image cleared, the rest unchanged |
| `App.UploadClearsOutputOnly` | App.tsx:16-19 | an upload sets the file and clears the image; prompt, loading flag and an earlier error survive |
| `App.Editor.HandleSubmit` | App.tsx:30-59 | running the handler to completion leaves exactly the state `Submit` gives and awaits exactly its steps |
| `App.Editor.SubmitEnabled` | App.tsx:84 | the button is enabled exactly when `ButtonEnabled` holds of the fields (not loading, a file, a prompt other than ""), and then the submit guard passes |
| `App.ButtonEnabledMeansGuardPasses` | App.tsx:84 | the button is enabled iff nothing is loading and the guard (file present, prompt not "") passes |
| `App.GuardRejects` | App.tsx:31-34 | a click with no file or an empty prompt awaits nothing and only sets the validation message; an accepted click awaits at least one step |
| `App.BlankPromptPasses` | App.tsx:31 | any non-empty prompt made only of blanks is not rejected: the file is read |
| `App.AcceptedRunShowsLoadingThenClears` | App.tsx:36-38 | every step of an accepted click is awaited with loading on and no error or image shown; for a run whose steps all settle, it ends not loading, with file and prompt unchanged |
| `App.SuccessShowsImage` | App.tsx:50-51 | when the read, the description and the generation all succeed, the shown image is `data:image/png;base64,` + the generated bytes and no error is shown |
| `App.ImageOnlyAfterAllSteps` | App.tsx:40-51 | after an accepted click, an image is shown only if the read, the description and the generation all succeeded |
| `App.FailureShowsMessage` | App.tsx:53-58 | if the read, the description or the generation fails, the run ends with the single pipeline failure message and no image |
| `App.StepsShortCircuit` | App.tsx:40-55 | the steps are awaited in the order read, describe, generate, each only after the one before succeeded; describe gets the stripped payload and the fixed description prompt, generate gets the composed prompt |
| `App.DescribeFailureSkipsGenerate` | App.tsx:46-50 | when the describe call fails, generation is never awaited and the failure message is shown |
| `App.GenerationPromptQuotesBoth` | App.tsx:48 | the generation prompt begins with the fixed lead, ends with the fixed tail, and holds the description and the direction verbatim between double quotes |
| `App.GenerationPromptKeepsDirection` | App.tsx:48 | under one description, different directions give different prompts |
| `App.GenerationPromptKeepsDescription` | App.tsx:48 | under one direction, different descriptions give different prompts |
| `App.InitialAtRest` | App.tsx:10-14 | the initial state is at rest: not loading and no image shown |
| `App.ActionsKeepAtRest` | App.tsx:16-59 | upload, typing and a click on an enabled button keep the state at rest: not loading, and a shown image is a PNG data URI with no error beside it |
| `App.RejectedClickBesideImage` | App.tsx:31-34 | the guard's rejection, reachable only with the button disabled, can leave an image and an error shown together |
| `App.UploadedFileIsImage` | components/ImageUploader.tsx:14-26 | wired to the uploader, the session holds either no file or the first offered file, and only when its type starts with `image/` |
| `App.WorkedExample` | App.tsx:40-51 | a PNG upload with direction "vintage polaroid", description "a red bicycle on a beach" and generated bytes "AAAA" awaits the three expected steps and ends showing `data:image/png;base64,AAAA` |
| `Envelope.Split` | App.tsx:42 | `split` yields at least one piece and no piece holds the separator |
| `Envelope.JoinSplit` | App.tsx:42 | joining the pieces of a split with the separator gives back the original string |
| `Envelope.SplitJoin` | App.tsx:42 | splitting a join of separator-free pieces gives back those pieces |
| `Envelope.StripEnvelopeNoneIffNoComma` | App.tsx:42 | `split(',')[1]` is `undefined` exactly when the data URL holds no comma |
| `Envelope.StripEnvelopeTakesSecondPiece` | App.tsx:42 | after the first comma, the payload is the comma-free text up to the next comma or to the end |
| `Envelope.StripEnvelopeOfDataUrl` | App.tsx:42 | for `data:<mime>;base64,<b64>` with no comma in either part, the payload sent is exactly `<b64>` |
| `Envelope.PngImageSource` | App.tsx:51 | the shown source is the PNG envelope followed by the generated bytes unchanged |
| `Envelope.PngImageSourceRoundTrip` | App.tsx:42-51 | stripping the PNG wrap of comma-free bytes gives the bytes back |
| `GeminiService.DescribeRequestRoundTrip` | services/geminiService.ts:17-32 | the describe request carries the image data and the prompt unchanged and both can be read back from it |
| `GeminiService.DescribeRequestShape` | services/geminiService.ts:17-32 | the request has two parts, inline image first and text second; model and mime type `image/jpeg` are the same for all arguments; different arguments give different requests |
| `GeminiService.DescribeImage` | services/geminiService.ts:16-39 | success iff the SDK call succeeds, and then the response text unchanged; every failure is "Failed to get image description from API." |
| `GeminiService.GenerateRequestFixedConfig` | services/geminiService.ts:48-56 | the image request always uses model `imagen-3.0-generate-002`, one image, PNG output and aspect ratio 1:1; only the prompt varies |
| `GeminiService.FirstImageBytes` | services/geminiService.ts:58-62 | success iff the image list is present, non-empty and its first entry has an image, and then it is that image's bytes; a missing or empty list gives "API did not return any images." |
| `GeminiService.FirstImageIgnoresRest` | services/geminiService.ts:58-59 | entries after the first never change the result |
| `GeminiService.GenerateImage` | services/geminiService.ts:46-67 | success iff the SDK call succeeds and the first image exists, and then its bytes; every failure is "Failed to generate image from API." |
| `GeminiService.EmptyResponseCollapses` | services/geminiService.ts:60-66 | an empty or missing image list raises "API did not return any images.", which the caller only sees as the generation failure |
| `ImageUploader.Forwarded` | components/ImageUploader.tsx:14-26 | `handleFile` passes on the file iff it is present and its type starts with `image/`, and `null` otherwise |
| `ImageUploader.FirstFile` | components/ImageUploader.tsx:44-46 | the handlers look at `files[0]` exactly when the list is present and non-empty |
| `ImageUploader.FilesCallbackUsesFirstOnly` | components/ImageUploader.tsx:44-54 | drop and change call back iff the list holds a file; they pass on the gated first file, and later files never matter |
| `ImageUploader.GateExamples` | components/ImageUploader.tsx:15 | png, jpeg, webp and gif are accepted; `text/plain`, `Image/png`, `image`, the empty type and no file are refused |
| `ImageUploader.Uploader.constructor` | components/ImageUploader.tsx:10-11 | no preview and not dragging at first |
| `ImageUploader.Uploader.HandleFile` | components/ImageUploader.tsx:14-26 | calls back with the gated file; a refused file clears the preview; an accepted one leaves it until the reader finishes |
| `ImageUploader.Uploader.PreviewLoaded` | components/ImageUploader.tsx:17-19 | the reader's `onloadend` sets the preview to its result |
| `ImageUploader.Uploader.HandleDragOver` | components/ImageUploader.tsx:28-32 | dragging becomes true and the preview is unchanged |
| `ImageUploader.Uploader.HandleDragLeave` | components/ImageUploader.tsx:34-38 | dragging becomes false and the preview is unchanged |
| `ImageUploader.Uploader.HandleDrop` | components/ImageUploader.tsx:40-48 | dragging becomes false; the first dropped file, if any, goes through `handleFile`; an empty or missing list calls nothing |
| `ImageUploader.Uploader.HandleFileChange` | components/ImageUploader.tsx:50-55 | the first chosen file, if any, goes through `handleFile`; an empty or missing list calls nothing; dragging is unchanged |

## Left out

- The SDK calls `ai.models.generateContent` and `ai.models.generateImages` belong to a foreign library. They are parameters of type `ContentRequest -> Result<...>` and `ImagesRequest -> Result<...>`.
- `fileToBase64` and its `FileReader` do browser I/O. The read is the `readAsDataUrl` parameter, which may fail. The base64 encoding itself is not modelled.
- The preview `FileReader` in the uploader is left out. Its result arrives through `Uploader.PreviewLoaded`.
- A step that never settles is not modelled: every `Services` answer is a total function. In the code an aborted file read never calls `onload` or `onerror`, and the SDK calls have no time-out; such a run never reaches `finally` and stays loading.
- App.AcceptedRunShowsLoadingThenClears: "ends not loading" holds only for runs whose three steps settle, for the reason above.
- Asynchronous interleaving is not modelled. `HandleSubmit` is one sequential run: no other handler runs while a step is pending, and a second click during a run is not modelled.
- The `API_KEY` check when the module loads depends on the environment.
- The `console.error` logging is left out.
- All JSX, styling and DOM event handling are left out: the view branches, `Header.tsx`, `Loader.tsx`, `handleLabelClick`, which clicks the hidden input, and the `preventDefault()`/`stopPropagation()` calls of the drag handlers.
- GeminiService.DescribeImage: the SDK's `text` getter may yield `undefined`. The model treats the text as always present.
- GeminiService.FirstImageBytes: an entry's `imageBytes` may be `undefined` in the SDK. The model treats it as always present. A missing `image` is modelled, as a thrown `TypeError`. The text of that error depends on the JavaScript engine, and callers never see it.
- App.WorkedExample: the expected generation prompt is stated as `GenerationPrompt` of the two strings, not written out as one literal. `GenerationPromptQuotesBoth` states what that prompt contains.
