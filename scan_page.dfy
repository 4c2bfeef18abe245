/**
 * The state bundle of the single-page app (project/src/App.tsx): the active
 * view, the selected upload, its preview, the prediction, the loading flag
 * and the error message, and the handlers that update them. Each React
 * `useState` pair is a field; each handler is a method that runs its
 * setters in order. Asynchronous completions (the FileReader preview, the
 * decode behind the heuristic, the artificial delay) are not scheduled:
 * the decoded image and the random draws are parameters, and the preview's
 * arrival is its own method.
 */
module ScanPage {
  import opened Wrappers
  import LeafHeuristic
  import opened MockClassifier

  /** The three views the `activeSection` selector chooses between. */
  datatype View = HomeView | FeaturesView | ScanView

  function SectionName(v: View): string
  {
    match v
    case HomeView => "home"
    case FeaturesView => "features"
    case ScanView => "scan"
  }

  const SectionNames: set<string> := {"home", "features", "scan"}

  /**
   * The views rendered for a value of `activeSection`: each view is shown
   * when the selector equals its name.
   */
  function RenderedViews(activeSection: string): (views: seq<View>)
    ensures |views| <= 1
    ensures |views| == 1 <==> activeSection in SectionNames
    ensures forall v :: v in views <==> SectionName(v) == activeSection
  {
    (if activeSection == "home" then [HomeView] else [])
    + (if activeSection == "features" then [FeaturesView] else [])
    + (if activeSection == "scan" then [ScanView] else [])
  }

  /** The selected file as the handlers see it: its name, MIME type and size in bytes. */
  datatype FileInfo = FileInfo(name: string, mimeType: string, size: nat)

  const MaxFileSize: nat := 10 * 1024 * 1024

  const InvalidTypeError := "Please upload a valid image file (PNG, JPG, JPEG)"
  const TooLargeError := "File size must be less than 10MB"
  const NotGrapeLeafError := "This doesn't appear to be a grape leaf image. Please upload a clear image of a grape leaf for accurate disease detection."
  const ServerRejectionError := "Server validation failed: This image does not contain a recognizable grape leaf. Please ensure the image shows a clear, well-lit grape leaf."
  const UntrainedVarietyError := "This grape leaf variety or condition is not in our training dataset. Please try with a different image or contact support to expand our model."

  /** Draws below this are the simulated server rejection. */
  const ServerRejectionBelow: real := 0.1
  /** Draws below this (and not below the previous one) are the untrained-variety rejection. */
  const UntrainedVarietyBelow: real := 0.15

  predicate StartsWith(s: string, prefix: string)
  {
    |prefix| <= |s| && s[..|prefix|] == prefix
  }

  predicate IsImageType(mimeType: string)
  {
    StartsWith(mimeType, "image/")
  }

  /** A file passes the type and size checks of the upload handler. */
  predicate AcceptableUpload(f: FileInfo)
  {
    IsImageType(f.mimeType) && f.size <= MaxFileSize
  }

  class App {
    var activeSection: string
    var selectedFile: Option<FileInfo>
    var preview: Option<string>
    var prediction: Option<MockResult>
    var isLoading: bool
    var error: Option<string>

    /**
     * What holds between events: a known view is selected, nothing is
     * loading, a selected file passed the type and size checks (but not
     * necessarily the leaf heuristic), and a prediction has the shape the
     * mock builder gives it.
     */
    ghost predicate Valid()
      reads this
    {
      && activeSection in SectionNames
      && !isLoading
      && (selectedFile.Some? ==> AcceptableUpload(selectedFile.value))
      && (prediction.Some? ==> WellFormed(prediction.value))
    }

    /**
     * The scan button is on screen and enabled: the scan view is shown, a
     * preview is present and no error is displayed (the button sits in the
     * preview panel, which is hidden while an error shows), and no scan is
     * in progress.
     */
    predicate ScanOffered()
      reads this
      ensures ScanOffered() ==> RenderedViews(activeSection) == [ScanView]
      ensures ScanOffered() ==> error.None? && !isLoading
    {
      activeSection == "scan" && preview.Some? && error.None? && !isLoading
    }

    function Rendered(): (views: seq<View>)
      reads this
      requires Valid()
      ensures |views| == 1 && SectionName(views[0]) == activeSection
    {
      RenderedViews(activeSection)
    }

    constructor ()
      ensures Valid()
      ensures activeSection == "home"
      ensures selectedFile == None && preview == None && prediction == None
      ensures !isLoading && error == None
    {
      activeSection := "home";
      selectedFile := None;
      preview := None;
      prediction := None;
      isLoading := false;
      error := None;
    }

    /** A navigation button: switches the view and nothing else. */
    method SetActiveSection(target: View)
      requires Valid()
      modifies this
      ensures Valid()
      ensures activeSection == SectionName(target)
      ensures selectedFile == old(selectedFile) && preview == old(preview)
      ensures prediction == old(prediction) && isLoading == old(isLoading) && error == old(error)
    {
      activeSection := SectionName(target);
    }

    /**
     * The file input's change handler. `file` is the first chosen file, if
     * any; `image` is what decoding it gives the leaf heuristic, which runs
     * only once the type and size checks pass. A file that fails the
     * heuristic stays selected; only the error is written.
     */
    method HandleFileSelect(file: Option<FileInfo>, image: LeafHeuristic.ImageLoad)
      requires Valid()
      modifies this
      ensures Valid()
      ensures activeSection == old(activeSection) && isLoading == old(isLoading)
      ensures file.None? ==>
        selectedFile == old(selectedFile) && preview == old(preview)
        && prediction == old(prediction) && error == old(error)
      ensures file.Some? ==> prediction == None
      ensures file.Some? && !IsImageType(file.value.mimeType) ==>
        error == Some(InvalidTypeError) && selectedFile == None && preview == None
      ensures file.Some? && IsImageType(file.value.mimeType) && file.value.size > MaxFileSize ==>
        error == Some(TooLargeError) && selectedFile == None && preview == None
      ensures file.Some? && AcceptableUpload(file.value) ==>
        selectedFile == file && preview == old(preview)
        && (error == None <==> LeafHeuristicAccepts(image))
        && (error != None ==> error == Some(NotGrapeLeafError))
    {
      if file.None? {
        return;
      }
      var f := file.value;
      error := None;
      prediction := None;
      if !IsImageType(f.mimeType) {
        error := Some(InvalidTypeError);
        selectedFile := None;
        preview := None;
        return;
      }
      if f.size > MaxFileSize {
        error := Some(TooLargeError);
        selectedFile := None;
        preview := None;
        return;
      }
      selectedFile := Some(f);
      var isGrapeLeaf := LeafHeuristic.ValidateGrapeLeaf(image);
      if !isGrapeLeaf {
        error := Some(NotGrapeLeafError);
        return;
      }
    }

    /**
     * The FileReader's load callback: the data URL becomes the preview,
     * whatever the upload handler decided meanwhile.
     */
    method OnPreviewLoaded(dataUrl: string)
      requires Valid()
      modifies this
      ensures Valid()
      ensures preview == Some(dataUrl)
      ensures activeSection == old(activeSection) && selectedFile == old(selectedFile)
      ensures prediction == old(prediction) && isLoading == old(isLoading) && error == old(error)
    {
      preview := Some(dataUrl);
    }

    /**
     * The scan button's handler. Without a selected file it does nothing.
     * Otherwise `validationDraw` routes to one of the two simulated
     * rejections or to a fabricated prediction; an existing prediction is
     * not cleared on a rejection, and the loading flag is down on exit.
     */
    method HandleScan(validationDraw: Draw, diseaseDraw: Draw, confidence: string, severityDraw: Draw, urgencyDraw: Draw)
      requires Valid()
      modifies this
      ensures Valid()
      ensures activeSection == old(activeSection) && selectedFile == old(selectedFile) && preview == old(preview)
      ensures !isLoading
      ensures old(selectedFile).None? ==> prediction == old(prediction) && error == old(error)
      ensures old(selectedFile).Some? && validationDraw < ServerRejectionBelow ==>
        error == Some(ServerRejectionError) && prediction == old(prediction)
      ensures old(selectedFile).Some? && ServerRejectionBelow <= validationDraw < UntrainedVarietyBelow ==>
        error == Some(UntrainedVarietyError) && prediction == old(prediction)
      ensures old(selectedFile).Some? && UntrainedVarietyBelow <= validationDraw ==>
        error == None && prediction == Some(BuildMockResult(diseaseDraw, confidence, severityDraw, urgencyDraw))
    {
      if selectedFile.None? {
        return;
      }
      isLoading := true;
      error := None;
      if validationDraw < ServerRejectionBelow {
        error := Some(ServerRejectionError);
      } else if validationDraw < UntrainedVarietyBelow {
        error := Some(UntrainedVarietyError);
      } else {
        prediction := Some(BuildMockResult(diseaseDraw, confidence, severityDraw, urgencyDraw));
      }
      isLoading := false;
    }

    /** The clear button: drops the file, preview, prediction and error; leaves the view and loading flag. */
    method ClearSelection()
      requires Valid()
      modifies this
      ensures Valid()
      ensures selectedFile == None && preview == None && prediction == None && error == None
      ensures activeSection == old(activeSection) && isLoading == old(isLoading)
    {
      selectedFile := None;
      preview := None;
      prediction := None;
      error := None;
    }
  }

  /** The heuristic's verdict on a decoded image, as a predicate. */
  predicate LeafHeuristicAccepts(image: LeafHeuristic.ImageLoad)
  {
    image.Loaded? && image.imageData.Some? && LeafHeuristic.LooksLikeLeaf(image.imageData.value)
  }

  /** A one-pixel opaque pure-green image. */
  const GreenPixelImage: LeafHeuristic.RgbaBuffer := [0, 255, 0, 255]
  /** A one-pixel opaque pure-red image. */
  const RedPixelImage: LeafHeuristic.RgbaBuffer := [255, 0, 0, 255]

  /**
   * A successful scan followed by a rejected one leaves both the error and
   * the earlier prediction set: selecting a new file clears them together,
   * but a scan only clears the error. Both scans are made while the page
   * offers the scan button.
   */
  method StalePredictionAfterRejectedScan() returns (bothOffered: bool, errorSet: bool, predictionSet: bool)
    ensures bothOffered && errorSet && predictionSet
  {
    var app := new App();
    app.SetActiveSection(ScanView);
    assert LeafHeuristic.PixelAt(GreenPixelImage, 0) == LeafHeuristic.Rgba(0, 255, 0, 255);
    app.HandleFileSelect(Some(FileInfo("leaf.png", "image/png", 1024)), LeafHeuristic.Loaded(Some(GreenPixelImage)));
    app.OnPreviewLoaded("data:image/png;base64,AAAA");
    var firstOffered := app.ScanOffered();
    app.HandleScan(0.5, 0.0, "80.0", 0.0, 0.0);
    var secondOffered := app.ScanOffered();
    app.HandleScan(0.05, 0.0, "80.0", 0.0, 0.0);
    bothOffered := firstOffered && secondOffered;
    errorSet, predictionSet := app.error.Some?, app.prediction.Some?;
  }

  /**
   * A file the leaf heuristic rejects stays selected, yet the page hides
   * the scan button while the leaf error shows; the scan handler itself
   * does not look at the error and would still predict if called.
   */
  method RejectedLeafScanHidden() returns (rejected: bool, offered: bool, predictsIfCalled: bool)
    ensures rejected && !offered && predictsIfCalled
  {
    var app := new App();
    app.SetActiveSection(ScanView);
    assert LeafHeuristic.PixelAt(RedPixelImage, 0) == LeafHeuristic.Rgba(255, 0, 0, 255);
    app.HandleFileSelect(Some(FileInfo("apple.jpg", "image/jpeg", MaxFileSize)), LeafHeuristic.Loaded(Some(RedPixelImage)));
    app.OnPreviewLoaded("data:image/jpeg;base64,AAAA");
    rejected := app.selectedFile.Some? && app.error == Some(NotGrapeLeafError);
    offered := app.ScanOffered();
    app.HandleScan(0.5, 0.0, "80.0", 0.0, 0.0);
    predictsIfCalled := app.prediction.Some? && app.error.None?;
  }
}
