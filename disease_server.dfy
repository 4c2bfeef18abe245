/**
 * The Flask server's accept/reject decision (app.py): the keyword filter
 * that decides whether a general-purpose classifier's top labels describe a
 * leaf, and the branch of the `/` route that turns the disease model's
 * prediction vector into a result, a cure and an error message. The two
 * neural networks are not modelled: their outputs are inputs here.
 */
module DiseaseServer {
  import opened Wrappers

  const Classes: seq<string> := ["Black Rot", "Esca (Black Measles)", "Leaf Blight", "Healthy"]

  const Cures: map<string, string> := map[
    "Black Rot" := "Remove infected leaves and apply fungicide like Mancozeb.",
    "Esca (Black Measles)" := "Prune affected vines and avoid overwatering.",
    "Leaf Blight" := "Use copper-based fungicides and ensure proper air circulation.",
    "Healthy" := "No disease detected. Maintain regular vineyard monitoring."
  ]

  const UploadFolder := "static/uploads"

  const ConfidenceThreshold: real := 75.0

  const LeafKeywords: seq<string> := [
    "leaf", "plant", "tree", "foliage", "flower",
    "vegetation", "herb", "shrub", "vine",
    "maize", "corn", "banana", "sunflower", "potato",
    "cabbage", "lettuce", "grape"
  ]

  const NotLeafError := "This image doesn't seem to contain a grape leaf. Please upload a clear leaf image."
  const LowConfidenceError := "This image doesn't appear to be a grape leaf. Please upload a clear leaf image."
  const ProcessingError := "Error processing image. Please upload a valid image."

  /** Every class the disease model can name has a cure. */
  lemma CuresCoverClasses()
    ensures forall i :: 0 <= i < |Classes| ==> Classes[i] in Cures
  {
  }

  // ---------------------------------------------------------------------
  // The leaf filter
  // ---------------------------------------------------------------------

  /** Lower-casing of one character (ASCII letters only). */
  function LowerChar(c: char): char
  {
    if 'A' <= c <= 'Z' then (c as int + 32) as char else c
  }

  /** `str.lower()`, character by character. */
  function Lower(s: string): (r: string)
    ensures |r| == |s|
    ensures forall i :: 0 <= i < |s| ==> r[i] == LowerChar(s[i])
  {
    if s == [] then [] else [LowerChar(s[0])] + Lower(s[1..])
  }

  /** Python's `sub in s` on strings: `sub` occurs in `s` at some offset. */
  predicate IsSubstring(sub: string, s: string)
  {
    exists j | 0 <= j <= |s| :: OccursAt(sub, s, j)
  }

  predicate OccursAt(sub: string, s: string, j: int)
  {
    0 <= j <= |s| - |sub| && s[j..j + |sub|] == sub
  }

  /** A label matches when its lower-cased form contains at least one leaf keyword. */
  predicate LabelMatches(text: string)
  {
    exists k :: k in LeafKeywords && IsSubstring(k, Lower(text))
  }

  /**
   * The loop over the decoded labels with its early return: true at the
   * first label that matches a keyword, false after the last.
   */
  function AnyLabelMatches(labels: seq<string>): (r: bool)
    ensures r <==> exists i :: 0 <= i < |labels| && LabelMatches(labels[i])
  {
    if labels == [] then false
    else if LabelMatches(labels[0]) then true
    else
      var rest := AnyLabelMatches(labels[1..]);
      assert forall i :: 1 <= i < |labels| ==> labels[i] == labels[1..][i - 1];
      rest
  }

  /**
   * What the general classifier gives the filter: it raised (unreadable
   * file, model failure), or it produced its top labels, best first.
   */
  datatype LeafCheck = CheckRaised | TopLabels(labels: seq<string>)

  /** `is_leaf_image`: any exception makes it false. */
  function IsLeafImage(check: LeafCheck): (r: bool)
    ensures r <==> check.TopLabels? && exists i :: 0 <= i < |check.labels| && LabelMatches(check.labels[i])
  {
    match check
    case CheckRaised => false
    case TopLabels(labels) => AnyLabelMatches(labels)
  }

  /**
   * A label that contains a keyword anywhere, in any mix of ASCII upper and
   * lower case, makes the image a leaf.
   */
  lemma KeywordInLabelMakesLeaf(labels: seq<string>, i: nat, before: string, keyword: string, after: string)
    requires i < |labels| && keyword in LeafKeywords
    requires Lower(labels[i]) == before + keyword + after
    ensures IsLeafImage(TopLabels(labels))
  {
    var s := Lower(labels[i]);
    assert s[|before|..|before| + |keyword|] == keyword;
    assert OccursAt(keyword, s, |before|);
    assert LabelMatches(labels[i]);
  }

  /** Lower-casing twice is lower-casing once (from the element-wise contract of `Lower`). */
  lemma LowerIdempotent(s: string)
    ensures Lower(Lower(s)) == Lower(s)
  {
  }

  /** The filter depends on labels only up to ASCII case. */
  lemma LabelMatchIgnoresCase(text: string)
    ensures LabelMatches(Lower(text)) == LabelMatches(text)
  {
    LowerIdempotent(text);
  }

  // ---------------------------------------------------------------------
  // The classification branch of the route
  // ---------------------------------------------------------------------

  /**
   * `np.argmax`: the first index holding the largest value.
   */
  function Argmax(v: seq<real>): (k: nat)
    requires |v| > 0
    ensures k < |v|
    ensures forall j :: 0 <= j < |v| ==> v[j] <= v[k]
    ensures forall j :: 0 <= j < k ==> v[j] < v[k]
  {
    if |v| == 1 then 0
    else
      var k := Argmax(v[1..]) + 1;
      assert forall j :: 1 <= j < |v| ==> v[j] == v[1..][j - 1];
      if v[0] >= v[k] then 0 else k
  }

  /**
   * What the disease model gives the route: it raised while loading or
   * predicting, or it produced a prediction vector and the confidence
   * derived from its maximum (a percentage rounded to two decimals).
   */
  datatype Classification = ClassifyRaised | Predicted(prediction: seq<real>, confidence: real)

  /** A request to `/`: a page view, or an upload with what the two models make of it. */
  datatype Request =
    | Get
    | Post(filename: string, leafCheck: LeafCheck, classification: Classification)

  /** The result text (class name followed by the confidence percentage), kept as its two parts. */
  datatype Verdict = Verdict(className: string, confidence: real)

  /** The variables the route passes to the template. */
  datatype Page = Page(
    result: Option<Verdict>,
    imageUrl: Option<string>,
    error: Option<string>,
    cure: Option<string>,
    confidence: Option<real>)

  /** `os.path.join(folder, name)` for a folder without a trailing slash. */
  function JoinPath(folder: string, name: string): (path: string)
    ensures StartsWithSlash(name) ==> path == name
    ensures !StartsWithSlash(name) ==>
      |path| == |folder| + 1 + |name| && path[..|folder|] == folder && path[|folder|] == '/' && path[|folder| + 1..] == name
  {
    if StartsWithSlash(name) then name else folder + "/" + name
  }

  predicate StartsWithSlash(s: string)
  {
    |s| > 0 && s[0] == '/'
  }

  /**
   * The `/` route. A page view returns an empty page. An upload that the
   * leaf filter rejects stops there; otherwise the prediction is judged:
   * an exception, or an empty vector (whose maximum raises), gives the
   * processing error; a confidence strictly below the threshold gives the
   * low-confidence error; otherwise the first maximal class is the result
   * and its cure is looked up. An argmax past the class list raises an
   * `IndexError`, which also gives the processing error.
   */
  method Index(request: Request) returns (page: Page)
    ensures request.Get? ==> page == Page(None, None, None, None, None)
    ensures request.Post? ==> page.imageUrl == Some(JoinPath(UploadFolder, request.filename))
    ensures request.Post? && !IsLeafImage(request.leafCheck) ==>
      page.error == Some(NotLeafError) && page.result == None && page.cure == None && page.confidence == None
    ensures request.Post? && IsLeafImage(request.leafCheck) ==>
      match request.classification
      case ClassifyRaised =>
        page.error == Some(ProcessingError) && page.result == None && page.cure == None && page.confidence == None
      case Predicted(v, c) =>
        if |v| == 0 then
          page.error == Some(ProcessingError) && page.result == None && page.cure == None && page.confidence == None
        else if c < ConfidenceThreshold then
          page.error == Some(LowConfidenceError) && page.result == None && page.cure == None && page.confidence == Some(c)
        else if Argmax(v) >= |Classes| then
          page.error == Some(ProcessingError) && page.result == None && page.cure == None && page.confidence == Some(c)
        else
          page.error == None && page.confidence == Some(c)
          && page.result == Some(Verdict(Classes[Argmax(v)], c))
          && page.cure == Some(Cures[Classes[Argmax(v)]])
    ensures page.result.Some? <==> page.cure.Some?
    ensures page.result.Some? ==>
      && page.error == None
      && page.result.value.className in Classes
      && page.cure == Some(Cures[page.result.value.className])
      && page.confidence == Some(page.result.value.confidence)
      && page.result.value.confidence >= ConfidenceThreshold
  {
    var result: Option<Verdict> := None;
    var imageUrl: Option<string> := None;
    var error: Option<string> := None;
    var cure: Option<string> := None;
    var confidence: Option<real> := None;

    if request.Post? {
      imageUrl := Some(JoinPath(UploadFolder, request.filename));

      if !IsLeafImage(request.leafCheck) {
        error := Some(NotLeafError);
        return Page(result, imageUrl, error, cure, confidence);
      }

      match request.classification {
        case ClassifyRaised =>
          error := Some(ProcessingError);
        case Predicted(prediction, c) =>
          if |prediction| == 0 {
            error := Some(ProcessingError);
          } else {
            confidence := Some(c);
            if c < ConfidenceThreshold {
              error := Some(LowConfidenceError);
            } else {
              var k := Argmax(prediction);
              if k >= |Classes| {
                error := Some(ProcessingError);
              } else {
                var predictedClass := Classes[k];
                result := Some(Verdict(predictedClass, c));
                cure := Some(Cures[predictedClass]);
              }
            }
          }
      }
    }

    page := Page(result, imageUrl, error, cure, confidence);
  }
}
