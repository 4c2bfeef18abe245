# Grape leaf disease detector: decision logic in Dafny

This project models the two pieces of sequential decision logic in the grape
leaf disease detector.

- **The browser app** (`project/src/App.tsx`):
  - the green-pixel heuristic that decides whether an uploaded picture looks
    like a leaf;
  - the state bundle behind the page (active view, selected file, preview,
    prediction, loading flag, error message) and the handlers that update it:
    file selection, scan, clear and navigation;
  - the builder of the fabricated "mock" disease result.
- **The Flask server** (`app.py`):
  - the keyword filter that decides from a general image classifier's top
    labels whether the upload shows a leaf;
  - the branch of the `/` route that turns the disease model's prediction
    vector into a result, a cure or an error.

Files:

- `wrappers.dfy`: `Option`, standing for `null` / `None`.
- `leaf_heuristic.dfy` (module `LeafHeuristic`): the heuristic. It is a
  method with a loop over the RGBA buffer. The loop invariant ties the running
  count to a recursive specification function, `GreenCount`. The acceptance
  rule `green / total > 0.15` is stated without division as
  `20 * green > 3 * total`. The lemma `RatioThreshold` proves this equals the
  real-number comparison whenever there is at least one pixel. On an empty
  buffer both expressions reject: in JavaScript `0 / 0` is NaN, and NaN is
  not above 0.15.
- `mock_classifier.dfy` (module `MockClassifier`): the mock result.
  - Every `Math.random()` value is a parameter of type `Draw` (a real in
    [0, 1)).
  - An index is `Math.floor(draw * n)`, with the product taken exactly, so
    indices in range are proved, not assumed.
- `scan_page.dfy` (module `ScanPage`): the class `App`.
  - It has one field per React state variable and one method per handler.
  - Its invariant `Valid()` says:
    - a known view is active;
    - nothing is loading between events;
    - a selected file passed the type and size checks;
    - a prediction has the shape the mock builder gives it.
  - The FileReader's load callback is its own method, `OnPreviewLoaded`. Its
    load event is queued, so it always runs after the synchronous type and
    size checks. After a type or size rejection it therefore brings back the
    preview the handler had just cleared.
  - `ScanOffered()` says when the scan button is on screen and enabled: the
    scan view is shown, a preview is present, no error is shown and nothing is
    loading (App.tsx:617, 655-656).
- `disease_server.dfy` (module `DiseaseServer`): the keyword filter
  (`IsLeafImage`), numpy's `argmax` (the first index of a largest element) and
  the route (`Index`).

Behaviour of the program that the model makes visible:

- **Error and prediction can both be set.** The scan handler clears the error
  when a scan starts (App.tsx:101) and never clears the prediction
  (App.tsx:147). So a successful scan followed by a rejected one leaves both
  set, with both scans made while the button is offered
  (`StalePredictionAfterRejectedScan`).
- **A file that fails the leaf check stays selected** (App.tsx:86-92). The
  page then hides the scan button, because the error is shown. The scan
  handler does not look at the error, so it would still predict if called
  (`RejectedLeafScanHidden`).
- **Two extra paths lead to the server's processing error.**
  - An empty prediction vector: taking its maximum raises.
  - An argmax past the four known classes: the class lookup raises an index
    error. In that case the confidence has already been set when the error is
    reported.

## Model

| member | source | states |
|---|---|---|
| `LeafHeuristic.ValidateGrapeLeaf` | project/src/App.tsx:13-55 | accepts exactly when the image decoded, pixel data exists, and strictly more than 15% of pixels are greenish (`LooksLikeLeaf`); a decode failure or missing data rejects; the loop's count equals `GreenCount` over the pixels seen |
| `LeafHeuristic.GreenCountBound` | project/src/App.tsx:32-45 | the green count never exceeds the number of pixels, `data.length / 4` |
| `LeafHeuristic.AllGreenishCounted` | project/src/App.tsx:36-44 | when every pixel is greenish, every pixel is counted |
| `LeafHeuristic.NoGreenishCounted` | project/src/App.tsx:36-44 | when no pixel is greenish, the count is zero |
| `LeafHeuristic.EmptyImageRejected` | project/src/App.tsx:33-49 | the counting and ratio expressions reject an empty buffer (`0 / 0` is NaN, not above 0.15) |
| `LeafHeuristic.PureGreenAccepted` | project/src/App.tsx:42-49 | a non-empty image of (0, 255, 0) pixels, any alpha, is accepted |
| `LeafHeuristic.PureRedRejected` | project/src/App.tsx:42-49 | an image of (255, 0, 0) pixels is rejected: green does not dominate red |
| `LeafHeuristic.PureBlueRejected` | project/src/App.tsx:42-49 | an image of (0, 0, 255) pixels is rejected: green does not dominate blue |
| `LeafHeuristic.RatioThreshold` | project/src/App.tsx:47-49 | for a non-empty image, the integer rule holds iff the real ratio green/total is strictly above 0.15, so exactly 15% is rejected |
| `MockClassifier.PickIndex` | project/src/App.tsx:124-144 | `floor(draw * n)` for a draw in [0, 1) is a valid index below `n` |
| `MockClassifier.BuildMockResult` | project/src/App.tsx:123-145 | the disease is one of the five listed; "Healthy" gets severity and urgency "None" and the 4 healthy recommendations; any other disease gets a severity in Mild/Moderate/Severe, an urgency in Low/Medium/High and the 5 treatment recommendations; the confidence text is carried unchanged |
| `MockClassifier.EveryDiseaseReachable` | project/src/App.tsx:123-124 | for every real draw `d`, disease `k` is produced iff `k/5 <= d < (k+1)/5`: the draw splits [0, 1) into five equal parts, one per disease |
| `MockClassifier.EverySeverityAndUrgencyReachable` | project/src/App.tsx:129-144 | for a diseased leaf, every severity level and every urgency level can be drawn, independently of each other |
| `ScanPage.RenderedViews` | project/src/App.tsx:748-750 | at most one view is rendered, and exactly one iff the selector is "home", "features" or "scan"; a rendered view's name equals the selector |
| `ScanPage.App.Rendered` | project/src/App.tsx:748-750 | in every valid state exactly one view is rendered, the one the selector names |
| `ScanPage.App.constructor` | project/src/App.tsx:5-10 | starts on "home" with no file, preview, prediction or error and not loading |
| `ScanPage.App.SetActiveSection` | project/src/App.tsx:178-276 | a navigation button switches the view and changes nothing else |
| `ScanPage.App.ScanOffered` | project/src/App.tsx:617-656 | the scan button is shown and enabled iff the scan view is active, a preview is present, no error is set and nothing is loading; when it is offered, the scan view is the one rendered (App.tsx:750) |
| `ScanPage.App.HandleFileSelect` | project/src/App.tsx:57-95 | no file: no change; otherwise the prediction is cleared; a non-`image/` MIME type gives the type error with file and preview cleared; then a size over 10485760 bytes gives the size error with file and preview cleared (exactly 10485760 is accepted); otherwise the file is selected, and the error is set to the leaf message iff the heuristic rejects |
| `ScanPage.App.OnPreviewLoaded` | project/src/App.tsx:64-68 | the reader's result becomes the preview whatever the handler decided, and nothing else changes |
| `ScanPage.App.HandleScan` | project/src/App.tsx:97-154 | no file: no change; otherwise loading is false on exit; a draw below 0.1 gives the server-rejection error, below 0.15 the untrained-variety error, both leaving the prediction as it was; any other draw clears the error and stores the mock result |
| `ScanPage.App.ClearSelection` | project/src/App.tsx:156-161 | clears file, preview, prediction and error; leaves view and loading flag |
| `ScanPage.StalePredictionAfterRejectedScan` | project/src/App.tsx:97-154 | with the scan button offered before each scan, a successful scan then a rejected one leaves the error and the old prediction both set |
| `ScanPage.RejectedLeafScanHidden` | project/src/App.tsx:79-118 | a file of exactly 10 MB that fails the leaf heuristic stays selected with the leaf error; the scan button is then not offered, though the handler would still predict if called |
| `DiseaseServer.CuresCoverClasses` | app.py:18-24 | every class of the disease model has a cure, so the cure lookup never fails |
| `DiseaseServer.Lower` | app.py:57 | lower-casing keeps the length and lowers each character |
| `DiseaseServer.AnyLabelMatches` | app.py:56-59 | the loop with early return is true iff some label matches some keyword |
| `DiseaseServer.IsLeafImage` | app.py:34-62 | true iff the classifier produced labels and some label, lower-cased, contains one of the 17 keywords; an exception gives false |
| `DiseaseServer.KeywordInLabelMakesLeaf` | app.py:49-59 | a label containing a keyword anywhere, in any ASCII case, makes the image a leaf |
| `DiseaseServer.LabelMatchIgnoresCase` | app.py:57 | the keyword match gives the same answer on a label and on its lower-cased form |
| `DiseaseServer.Argmax` | app.py:97 | returns an index of a largest value, and no earlier index holds that value |
| `DiseaseServer.JoinPath` | app.py:76 | the upload path is the folder, then `/`, then the file name; or the file name itself when it is absolute |
| `DiseaseServer.Index` | app.py:66-104 | GET: all fields None. POST, not a leaf: the leaf error; result, cure and confidence None. Classification raised or empty vector: the processing error, no confidence. Confidence strictly below 75: the low-confidence error, confidence kept, no result or cure (exactly 75 is accepted). Otherwise the result is the first maximal class with the confidence, and the cure is that class's cure; an argmax past the class list gives the processing error. Result is set iff cure is set, and only with no error |

## Left out

- Rendering: the JSX markup, CSS classes, icons and marketing text of `App.tsx`. The only logic there is the view selector, which is modelled.
- Browser decoding: `Image`, the canvas `drawImage`/`getImageData`, `URL.createObjectURL` and `FileReader`. The decoded RGBA buffer, or its absence, is a parameter of the file-selection handler. The data URL is a parameter of `OnPreviewLoaded`.
- Event ordering: the model does not schedule asynchronous completions. The reader's callback always fires after the type and size checks, but it may fire before or after the leaf heuristic's result arrives; the model runs it after. A scan clicked while the heuristic is still decoding is not modelled. The file-selection handler runs to completion in one step.
- LeafHeuristic.EmptyImageRejected: is about the expressions only. The program never evaluates them on zero pixels: for a zero-width or zero-height image, `getImageData` throws inside the load callback, so the heuristic never resolves. The handler then stays pending with the file selected and no error. That hang is not modelled.
- The two-second `setTimeout` delay and the visible loading state during it. At method boundaries the loading flag is always down.
- Randomness: `Math.random()` values are explicit `Draw` parameters.
- ScanPage.App.HandleScan: the thresholds 0.1 and 0.15 are exact decimals here. JavaScript compares against the nearest doubles, and the double nearest 0.15 lies just below 0.15. The two therefore disagree for exactly one draw: the double nearest 0.15 itself.
- MockClassifier.PickIndex: floors the exact product `draw * n`, while JavaScript floors the product after rounding it to a double. For a few draws just below a boundary the two differ. The double nearest 0.6 times 5 rounds to exactly 3, so the program picks index 3 ("Anthracnose") where the model picks 2 ("Powdery Mildew"). Likewise the double nearest 2/3 times 3 rounds to 2, giving "Severe" where the model gives "Moderate". The five equal parts of `EveryDiseaseReachable` hold for real draws only.
- The generic fallback message "An error occurred during analysis": every error thrown in the scan handler is an `Error`, so that branch never runs.
- Number formatting: the mock confidence's `toFixed(1)` is carried as an opaque string. So is the file size shown in MB.
- LeafHeuristic.ValidateGrapeLeaf: the ratio is compared exactly, not as a floating-point quotient. The two can differ only for images of more than about 10^15 pixels, far beyond any canvas.
- The `accept="image/*"` attribute of the file input is a browser-side filter. The handler's own MIME check is modelled.
- Flask plumbing: routing, `request.files` and `file.save`, `os.makedirs`, `render_template` and the `print` logging. A failed save, or a missing `image` field, escapes the route's `try` and is Flask's error response. That path is not modelled.
- TensorFlow and Keras: model loading, `predict`, `preprocess_input` and `decode_predictions`. The top labels (default `top_k = 5`) and the prediction vector are inputs.
- The confidence `round(100 * np.max(prediction), 2)` is an input, as a real. NaN and other floating-point values are not modelled.
- DiseaseServer.Lower: lower-cases ASCII letters only. Python's `str.lower()` also lowers non-ASCII letters, which the model leaves unchanged. The 17 keywords are plain ASCII.
- DiseaseServer.Index: the `result` text (the class name followed by the confidence in parentheses) is kept as its two parts (`Verdict`), because the float formatting is left out.
- train_grape_model.py is not part of this model: it is a training script with no decision logic of its own.
