# Virtual try-on: a verified model of its core

The application takes a photo of a fabric texture and asks an image model to
show that texture on a model. The user picks five options: the garment
category, the pose, the background, the gender and the number of images. The
results are shown in a grid, where each image can be downloaded or shared.
This project models the logic behind that in Dafny and proves what it does:

- **History** (`History.dfy`, module `HistoryState`): the undo/redo
  container. It is a class holding the list of values and a cursor, and it
  keeps the invariant that the cursor lies inside the list.
- **Service** (`GeminiService.dfy`):
  - the MIME type sniffed from the base64 prefix of the upload;
  - the pose, background and garment clauses;
  - the prompt with its model descriptor;
  - the nested loops that turn the responses into `data:` URIs;
  - the error cases of generation.
  The image service itself is a parameter `send` that maps a request to how
  the concurrent calls settled: all responses, or the rejection that ended
  the join.
- **Results view** (`ImageGrid.dfy`):
  - the file extension and file name taken from a data URI;
  - the header regular expression `/:(.*?);/`;
  - the `dataURIToFile` copy loop over a byte array;
  - the staggered "download all" schedule;
  - the loading / error / empty / grid choice.
- **Application** (`App.dfy`, module `AppState`): the state held by the
  application's top component, as a class with one field per state variable.
  Its handlers are methods that state the whole new state. Generation is split
  at its `await`: `BeginGenerate` runs before the call and `FinishGenerate`
  runs after it, in the `try`/`catch`/`finally`.
- **Enumerations** (`Types.dfy`): the five enumerations as datatypes, each
  with its string label.
- **Supporting modules**: `Text.dfy` models the JavaScript string operations
  the code relies on:
  - `split` on one character, which always yields at least one piece;
  - the decimal text of a number in a template literal;
  - ASCII `toLowerCase`.
  `Wrappers.dfy` holds `Option` and `Result`. The signature test
  `indexOf(s) === 0` of the MIME sniffing is a prefix test, modelled as
  `s <= base64` in `GeminiService.FirstMatch`; `Text.FirstIndex`, a
  one-character search, only serves the proofs about file names.

JavaScript semantics are kept where they matter:

- `split(',')[1]` can be `undefined`. Sniffing `undefined` throws before
  anything is sent, and `GenerateModelImages` returns that error.
- A MIME text without `/` turns into the extension `"undefined"`.
- An empty error string or image string is falsy.
- `Uint8Array` stores each character code modulo 256.

## Model

| member | source | states |
|---|---|---|
| Text.Split | components/ImageGrid.tsx:40 | `split` on one character yields at least one piece, and none contains the separator |
| Text.Field | services/geminiService.ts:102 | `s.split(sep)[k]`, absent when there are not enough pieces; a present piece has no separator |
| Text.SplitJoin | components/ImageGrid.tsx:40 | joining the pieces of a split gives back the text |
| Text.JoinSplit | components/ImageGrid.tsx:40 | splitting a join of separator-free pieces gives back the pieces |
| Text.Decimal | components/ImageGrid.tsx:42 | the text of a number in a template literal is a non-empty string of digits |
| Text.DecimalRoundTrip | components/ImageGrid.tsx:42 | the digit string of `n` denotes `n` |
| Text.LowerAscii | services/geminiService.ts:65 | `toLowerCase` keeps the length and lowers each ASCII capital |
| Types.Enumerations | types.ts:1-34 | the enumerations have exactly 6, 7, 3, 3 and 1 variants, each listed once |
| Types.LabelsDistinct | types.ts:1-30 | labels are pairwise distinct within each enumeration |
| Types.SpecialLabels | types.ts:4-17 | the labels `T-Shirt`, `Dynamic Action`, `Hands on Hips` and `Looking Away` |
| Types.ClothingCategory.Label | types.ts:1-8 | computes the run-time string of each garment category: `Shirt`, `Kurta`, `T-Shirt`, `Dress`, `Jacket`, `Saree` |
| Types.ModelPose.Label | types.ts:10-18 | computes the run-time string of each pose: `Standing`, `Walking`, `Sitting`, `Dynamic Action`, `Hands on Hips`, `Leaning`, `Looking Away` |
| Types.BackgroundStyle.Label | types.ts:20-24 | computes the run-time string of each background: `Studio`, `Outdoor`, `Abstract` |
| Types.ModelGender.Label | types.ts:26-30 | computes the run-time string of each gender: `Female`, `Male`, `Unspecified` |
| Types.ModelAppearance.Label | types.ts:32-34 | computes the run-time string of the one appearance, `Indian` |
| Types.LowerGenderLabels | types.ts:26-30 | lower-casing the gender labels gives `female`, `male` and `unspecified` |
| GeminiService.SignaturesExclusive | services/geminiService.ts:11-15 | no text starts with two different signatures |
| GeminiService.SniffedType | services/geminiService.ts:10-22 | the sniffed type is that of whichever signature matches, JPEG when none does, and always one of the three image types, whatever the visiting order |
| GeminiService.FirstMatch | services/geminiService.ts:16-21 | computes the type of the first table entry whose signature is a prefix of the text (`indexOf(s) === 0`), the JPEG default when none is |
| GeminiService.GetMimeType | services/geminiService.ts:10-22 | the loop with early return yields the type of the first matching signature, else JPEG |
| GeminiService.PoseDescription | services/geminiService.ts:24-42 | computes the pose clause: each of the six listed poses its own sentence; `Standing` takes the default arm's standing clause |
| GeminiService.BackgroundDescription | services/geminiService.ts:44-54 | computes the background clause: the outdoor and abstract sentences; `Studio` takes the default arm's studio clause |
| GeminiService.GarmentPhrase | services/geminiService.ts:70-89 | computes the garment wording that follows the descriptor for each of the six categories |
| GeminiService.ModelDescription | services/geminiService.ts:62-67 | computes "A professional", a space and the appearance, then a space and the lower-cased gender unless `Unspecified`, then " model" |
| GeminiService.Prompt | services/geminiService.ts:95 | computes the category sentence, pose clause, common clause and background clause joined by single spaces |
| GeminiService.CategoryDescription | services/geminiService.ts:69-93 | every category sentence starts with the model descriptor |
| GeminiService.ConstructPrompt | services/geminiService.ts:57-96 | the descriptor built with `+=`, then the category, pose, common and background clauses joined by single spaces, equal `Prompt` |
| GeminiService.ModelDescriptions | services/geminiService.ts:62-67 | the descriptor is "A professional", the appearance, `female` or `male` and "model"; with `Unspecified` no gender word appears |
| GeminiService.PromptOpening | services/geminiService.ts:69-95 | every prompt opens with the model descriptor |
| GeminiService.PromptExample | services/geminiService.ts:57-96 | the default options give "A professional Indian female model wearing a crisp, long-sleeve button-up shirt made of this texture." followed by the standing, common and studio clauses |
| GeminiService.DataUri | services/geminiService.ts:128 | computes `data:` + MIME type + `;base64,` + data |
| GeminiService.PartImage | services/geminiService.ts:125-129 | a part yields exactly one image, the data URI of its inline data, when it has inline data, and none otherwise |
| GeminiService.PartImages | services/geminiService.ts:124-130 | a list of parts yields at most one image per part |
| GeminiService.ResponseImages | services/geminiService.ts:123-131 | computes the images of the first candidate only, none when there are no candidates |
| GeminiService.ImagesOf | services/geminiService.ts:122-132 | computes the images of all responses, response by response, in order |
| GeminiService.ImagesOfAppend | services/geminiService.ts:121-132 | the images of two batches of responses are those of the first followed by those of the second |
| GeminiService.NoCandidatesNoImages | services/geminiService.ts:122-123 | a response without candidates contributes nothing, wherever it stands |
| GeminiService.Aggregate | services/geminiService.ts:134-144 | the result is an error exactly when no image was collected, with the message "Model did not return any images."; otherwise it is every collected image, even fewer than requested |
| GeminiService.Settle | services/geminiService.ts:119-144 | computes the outcome of the join: a rejection's reason as the error, otherwise the aggregation |
| GeminiService.AggregateExamples | services/geminiService.ts:121-144 | two images among three responses are returned in order; responses that are all empty fail |
| GeminiService.CollectImages | services/geminiService.ts:121-132 | the nested loops push one `data:<mime>;base64,<data>` per inline part of each first candidate, in order |
| GeminiService.SettleResponses | services/geminiService.ts:119-144 | a rejected join is rethrown; otherwise the collected images, none being an error |
| GeminiService.GenerationOutcome | services/geminiService.ts:98-144 | a data URL without a comma fails before sending; a success always holds at least one image |
| GeminiService.RequestFor | services/geminiService.ts:99-112 | computes the request: the model name, the payload with its sniffed type, the prompt, and the count |
| GeminiService.GenerateModelImages | services/geminiService.ts:98-144 | without a payload, the `indexOf` type error; otherwise the aggregation of what `send` returns for the request with the payload, its sniffed type, the prompt and the count |
| ImageGrid.MimeTypeField | components/ImageGrid.tsx:40 | the text after the first `:` up to the next `:` or the first `;`, free of both; absent when the header has no `:` |
| ImageGrid.Extension | components/ImageGrid.tsx:40-41 | the extension has no `;`, `:` or `/` |
| ImageGrid.Filename | components/ImageGrid.tsx:42 | computes `virtual-try-on-model-` + the one-based index + `.` + the extension, the name used by download and share alike (line 66) |
| ImageGrid.MimeTypeFieldOfDataUri | components/ImageGrid.tsx:40 | the MIME text of `data:<mime>;base64,<data>` is `<mime>` |
| ImageGrid.ExtensionOfDataUri | components/ImageGrid.tsx:40-41 | the extension of a data URI of type `t/s` is `s` |
| ImageGrid.ExtensionFallback | components/ImageGrid.tsx:40-41 | a header without `:` before the first `;`, or an empty MIME text, gives `jpeg` |
| ImageGrid.FilenameInjective | components/ImageGrid.tsx:42 | different positions give different file names `virtual-try-on-model-<n>.<ext>` |
| ImageGrid.LazyGroup | components/ImageGrid.tsx:51 | the lazy group has neither a `;` nor a line terminator and is followed by `;` |
| ImageGrid.MimeMatch | components/ImageGrid.tsx:51 | computes `/:(.*?);/`: the group of the leftmost `:` from which the lazy group reaches a `;` |
| ImageGrid.MimeMatchOf | components/ImageGrid.tsx:51-53 | without a line break, the match runs from the first `:` to the next `;` |
| ImageGrid.MimeMatchNeedsColon | components/ImageGrid.tsx:51-52 | a header without `:` does not match |
| ImageGrid.MimeMatchNeedsSemicolon | components/ImageGrid.tsx:51-52 | a header without `;` does not match |
| ImageGrid.HeaderReadings | components/ImageGrid.tsx:40-53 | for a plain MIME type, the regular expression and the split both read the type from the header |
| ImageGrid.DataUriToFile | components/ImageGrid.tsx:48-61 | no file exactly when there is no comma or no regex match; otherwise the file has the given name and the matched type, its length is that of the decoded text, and byte `k` is character `k`'s code modulo 256 |
| ImageGrid.PrepareShare | components/ImageGrid.tsx:63-73 | a shared file is named as its download would be and carries the matched type and the decoded bytes (code `k` modulo 256); if conversion fails, "Could not prepare image for sharing." |
| ImageGrid.DownloadAll | components/ImageGrid.tsx:95-103 | one download per image, image `i` at `i*300` ms under its own name; delays strictly increase and names are distinct |
| ImageGrid.HasError | components/ImageGrid.tsx:116 | computes whether the error is truthy: present and not empty |
| ImageGrid.SelectView | components/ImageGrid.tsx:106-137 | loading shows `numImages` skeletons; else a non-empty error shows the panel; else no images show the placeholder; else the grid |
| HistoryState.History.constructor | hooks/useHistoryState.ts:28-33 | the history is the initial value alone, with the cursor on it |
| HistoryState.History.CurrentState | hooks/useHistoryState.ts:33 | the current value is one of the history's values |
| HistoryState.History.CanUndo | hooks/useHistoryState.ts:62 | undo is possible exactly when the cursor is past the first value |
| HistoryState.History.CanRedo | hooks/useHistoryState.ts:63 | redo is possible exactly when the cursor is before the last value |
| HistoryState.History.UpdateState | hooks/useHistoryState.ts:35-48 | a value equal to the current one changes nothing; any other value replaces everything after the cursor, becomes current, and leaves nothing to redo; the cursor stays in range |
| HistoryState.History.Undo | hooks/useHistoryState.ts:50-54 | the cursor steps back exactly when undo is possible; the history is unchanged |
| HistoryState.History.Redo | hooks/useHistoryState.ts:56-60 | the cursor steps forward exactly when redo is possible; the history is unchanged |
| HistoryState.UndoThenRedo | hooks/useHistoryState.ts:50-63 | when undo is possible, undo then redo restores the state |
| HistoryState.UpdateThenUndo | hooks/useHistoryState.ts:35-63 | pushing a new value and undoing brings the old value back, with the pushed value left to redo |
| HistoryState.FreshHistory | hooks/useHistoryState.ts:28-63 | a fresh history can be neither undone nor redone |
| AppState.HasImage | App.tsx:51 | computes whether the texture is truthy: present and not empty |
| AppState.ErrorText | App.tsx:73 | an empty message becomes "An unknown error occurred during image generation."; any other message is kept |
| AppState.App.constructor | App.tsx:12-27 | Shirt, Standing, Studio, Female, two images, not loading, no error, camera closed, no texture and no results |
| AppState.App.IsDisabled | App.tsx:109 | generation is disabled exactly when there is no non-empty texture |
| AppState.App.ResultsView | App.tsx:115-120 | computes what the results grid shows from the current images, loading flag, error and image count, as `SelectView` of those props |
| AppState.App.HandleImageSelected | App.tsx:29-31 | the texture is set and nothing else changes |
| AppState.App.HandleRemoveImage | App.tsx:33-35 | the texture is cleared, nothing else changes, and generation is disabled |
| AppState.App.HandleOpenCamera | App.tsx:37-39 | the camera opens and nothing else changes |
| AppState.App.HandleCloseCamera | App.tsx:41-43 | the camera closes and nothing else changes |
| AppState.App.HandleCapture | App.tsx:45-48 | the captured photo becomes the texture and the camera closes |
| AppState.App.SetClothingCategory | App.tsx:98 | only the category changes |
| AppState.App.SetModelPose | App.tsx:100 | only the pose changes |
| AppState.App.SetBackgroundStyle | App.tsx:102 | only the background changes |
| AppState.App.SetModelGender | App.tsx:104 | only the gender changes |
| AppState.App.SetNumImages | App.tsx:106 | only the image count changes |
| AppState.App.BeginGenerate | App.tsx:50-58 | without a texture only the error becomes "Please upload a cloth texture image first." and nothing is sent; otherwise loading starts, the error is cleared, the results are emptied and the view shows the skeletons |
| AppState.App.FinishGenerate | App.tsx:70-76 | a success stores the images, a failure stores its message or the fallback, and loading ends either way |
| AppState.App.HandleGenerate | App.tsx:50-77 | the service gets the texture, the current options and the Indian appearance; success leaves its images in the grid; failure leaves no results and the error panel |

## Left out

- The image service client, the API key check and the network calls are
  left out. They are foreign calls with ambient configuration.
  - `send` receives the request once, with its count, and returns how the
    calls settled.
  - The model does not tie the number of responses to the count.
- The concurrent fan-out and `Promise.all` are left out. Only the join is
  modelled: all responses, or a rejection whose reason becomes the error.
- The `console.warn` for fewer images than requested is left out. It is
  logging only.
- Response parts with a missing `content` or `parts` are not modelled.
  Neither are inline data with an undefined `data` or `mimeType`. In the
  model, a response either lists its candidates or has none.
- `atob` is left out. It is a browser primitive and is a parameter here; its
  decoding and its exception on malformed input are not modelled.
- Also left out are `File`, DOM link clicks, `alert`, `navigator.share` and
  `canShare`, and the `AbortError` handling. They are browser I/O;
  `PrepareShare` covers only the file preparation before the share.
- Real `setTimeout` timing is left out. `DownloadAll` returns the schedule
  instead of waiting.
- The React closure semantics of the history hook are left out: stale
  `currentState` captures and functional `setState`. The sequential meaning
  is modelled.
- `JSON.stringify` equality becomes structural `==`.
- `toLowerCase` is modelled on ASCII only, which is all the gender labels use.
- The default arms of the pose, background and category `switch`es are left
  out. They cannot be reached with an argument of the enumeration type; the
  `Standing` and `Studio` arms that share them are modelled.
- GeminiService.PoseDescription: that the seven pose clauses are pairwise
  distinct is not proved. The same holds for the background clauses and the
  garment phrases: Dafny runs out of resources comparing these long
  literals.
- Text.Decimal: numbers of 10^21 or more are written in exponent notation by
  JavaScript. The model always writes plain digits.
- ImageGrid.DataUriToFile:
  - JavaScript strings are UTF-16.
  - A decoded character beyond U+FFFF would count as two code units there,
    but as one character here.
  - `atob` only produces characters below 256.
- The camera view, the image uploader, the controls and the header are left
  out. They are rendering and device I/O.
- `numImages` is a natural number. A negative or fractional count, which
  `Array(n)` would reject, is not modelled.
- GeminiService.UndefinedPayloadMessage is the text V8 gives the
  `TypeError` raised when `getMimeType` receives `undefined`. Other engines
  word that message differently; the model fixes V8's wording.
