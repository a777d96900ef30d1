/**
 * The photo health check (app/photo-health-check.tsx): ask for the camera
 * permission, show the camera, take a picture, walk through six canned
 * analysis steps on an interval timer, then show the results. The camera
 * permission, the camera itself and the two timers are outside the model:
 * their results arrive as parameters, and each timer firing is one method call.
 */
module PhotoCheck {
  import opened Wrappers

  /** Which camera is used. */
  datatype Facing = Front | Back

  /** The camera starts on the front. */
  const InitialFacing: Facing := Front

  function ToggleCameraFacing(current: Facing): (r: Facing)
    ensures r != current
  {
    if current == Back then Front else Back
  }

  /** Toggling twice gives back the original camera. */
  lemma ToggleTwiceIsIdentity(f: Facing)
    ensures ToggleCameraFacing(ToggleCameraFacing(f)) == f
  {
  }

  // ---------------------------------------------------------------------------
  // Severity display
  // ---------------------------------------------------------------------------

  /** The three severities the canned results use: high, medium and low. */
  const SeverityHigh: string := "عالي"
  const SeverityMedium: string := "متوسط"
  const SeverityLow: string := "منخفض"

  predicate KnownSeverity(severity: string)
  {
    severity == SeverityHigh || severity == SeverityMedium || severity == SeverityLow
  }

  const DefaultColor: string := "#7F8C8D"
  const DefaultIcon: string := "❓"

  /** The colour of a severity badge; any other string gets the grey default. */
  function GetSeverityColor(severity: string): (color: string)
    ensures severity == SeverityHigh ==> color == "#F44336"
    ensures severity == SeverityMedium ==> color == "#FF9800"
    ensures severity == SeverityLow ==> color == "#4CAF50"
    ensures color == DefaultColor <==> !KnownSeverity(severity)
  {
    if severity == SeverityHigh then "#F44336"
    else if severity == SeverityMedium then "#FF9800"
    else if severity == SeverityLow then "#4CAF50"
    else DefaultColor
  }

  /** The icon of a severity badge; any other string gets the question mark. */
  function GetSeverityIcon(severity: string): (icon: string)
    ensures severity == SeverityHigh ==> icon == "🚨"
    ensures severity == SeverityMedium ==> icon == "⚠️"
    ensures severity == SeverityLow ==> icon == "✅"
    ensures icon == DefaultIcon <==> !KnownSeverity(severity)
  {
    if severity == SeverityHigh then "🚨"
    else if severity == SeverityMedium then "⚠️"
    else if severity == SeverityLow then "✅"
    else DefaultIcon
  }

  /** Colour and icon agree: distinct severities get distinct badges, and both fall back together. */
  lemma SeverityBadgesAgree(s1: string, s2: string)
    requires KnownSeverity(s1) && KnownSeverity(s2)
    ensures GetSeverityColor(s1) == GetSeverityColor(s2) <==> s1 == s2
    ensures GetSeverityIcon(s1) == GetSeverityIcon(s2) <==> s1 == s2
  {
  }

  // ---------------------------------------------------------------------------
  // Analysis progress
  // ---------------------------------------------------------------------------

  /** The texts of the analysis steps, shown one per interval tick. */
  const AnalysisSteps: seq<string> := [
    "تحليل جودة الصورة...",
    "فحص تراكم البلاك...",
    "تقييم صحة اللثة...",
    "البحث عن التسوس...",
    "إنشاء التوصيات الشخصية...",
    "اكتمل التحليل!"
  ]

  /** The fraction of the progress bar filled while step `step` is shown. */
  function ProgressFraction(step: nat): (fraction: real)
    requires step < |AnalysisSteps|
    ensures 0.0 < fraction <= 1.0
    ensures fraction == 1.0 <==> step == |AnalysisSteps| - 1
  {
    (step + 1) as real / |AnalysisSteps| as real
  }

  /** A later step fills more of the bar. */
  lemma ProgressIncreases(s1: nat, s2: nat)
    requires s1 < s2 < |AnalysisSteps|
    ensures ProgressFraction(s1) < ProgressFraction(s2)
  {
  }

  /** The outcome of takePictureAsync. */
  datatype Capture =
    | Photo(uri: string)   // a picture; an empty uri counts as no image
    | NoPhoto              // the call returned nothing
    | CaptureFailed        // the call threw; an alert is shown

  /**
   * The screen's state. `permissionGranted` is the camera permission the
   * hook reports. `intervalStep` is the counter the interval callback keeps;
   * `intervalActive` says that the interval still fires, `finishPending` that
   * the closing one-second timeout is scheduled.
   */
  class PhotoCheckScreen {
    var permissionGranted: bool
    var facing: Facing
    var showCamera: bool
    var analyzing: bool
    var showResults: bool
    var capturedImage: Option<string>
    var analysisStep: nat
    var intervalStep: nat
    var intervalActive: bool
    var finishPending: bool

    ghost predicate Valid()
      reads this
    {
      && analysisStep < |AnalysisSteps|
      && intervalStep <= |AnalysisSteps|
      && !(intervalActive && finishPending)
      && (analyzing <==> intervalActive || finishPending)
      && (intervalActive ==> intervalStep < |AnalysisSteps|)
      && (finishPending ==> intervalStep == |AnalysisSteps|)
      && (analyzing && intervalStep > 0 ==> analysisStep == intervalStep - 1)
      && (analyzing ==> !showCamera && !showResults)
      && (showCamera ==> !showResults)
      && (capturedImage.Some? ==> capturedImage.value != "")
    }

    /** The start screen, with its start button, is shown. */
    predicate OnStartScreen()
      reads this
    {
      !showCamera && !analyzing && !showResults
    }

    constructor (permissionGranted: bool)
      ensures Valid() && OnStartScreen()
      ensures this.permissionGranted == permissionGranted && facing == InitialFacing
      ensures capturedImage.None? && analysisStep == 0
    {
      this.permissionGranted := permissionGranted;
      facing := InitialFacing;
      showCamera := false;
      analyzing := false;
      showResults := false;
      capturedImage := None;
      analysisStep := 0;
      intervalStep := 0;
      intervalActive := false;
      finishPending := false;
    }

    /** Open the camera, asking for the permission first when it is not granted yet. */
    method StartPhotoCheck(grantedOnRequest: bool)
      requires Valid() && OnStartScreen()
      modifies this`permissionGranted, this`showCamera
      ensures Valid()
      ensures permissionGranted == (old(permissionGranted) || grantedOnRequest)
      ensures showCamera == permissionGranted
    {
      if !permissionGranted {
        permissionGranted := grantedOnRequest;
        if !grantedOnRequest {
          return;
        }
      }
      showCamera := true;
    }

    /** The cancel button of the camera view. */
    method CancelCamera()
      requires Valid() && showCamera
      modifies this`showCamera
      ensures Valid() && !showCamera
    {
      showCamera := false;
    }

    /** The flip button of the camera view. */
    method ToggleFacing()
      requires Valid() && showCamera
      modifies this`facing
      ensures Valid() && facing == ToggleCameraFacing(old(facing))
    {
      facing := ToggleCameraFacing(facing);
    }

    /** Take a picture; on success hide the camera and start the analysis interval. */
    method TakePicture(cameraMounted: bool, capture: Capture)
      requires Valid() && showCamera
      modifies this
      ensures Valid()
      ensures !cameraMounted || capture.CaptureFailed? ==>
                showCamera && !analyzing && capturedImage == old(capturedImage) && intervalStep == old(intervalStep)
      ensures cameraMounted && !capture.CaptureFailed? ==>
                && !showCamera && analyzing && intervalActive && intervalStep == 0
                && capturedImage == (if capture.Photo? && capture.uri != "" then Some(capture.uri) else None)
      ensures facing == old(facing) && permissionGranted == old(permissionGranted)
      ensures showResults == old(showResults) && analysisStep == old(analysisStep)
    {
      if cameraMounted {
        if capture.CaptureFailed? {
          return;
        }
        capturedImage := if capture.Photo? && capture.uri != "" then Some(capture.uri) else None;
        showCamera := false;
        analyzing := true;
        intervalStep := 0;
        intervalActive := true;
        finishPending := false;
      }
    }

    /** One firing of the analysis interval: show the next step, and stop after the last one. */
    method IntervalTick()
      requires Valid() && intervalActive
      modifies this`analysisStep, this`intervalStep, this`intervalActive, this`finishPending
      ensures Valid()
      ensures analysisStep == old(intervalStep) && intervalStep == old(intervalStep) + 1
      ensures intervalActive == (intervalStep < |AnalysisSteps|)
      ensures finishPending == !intervalActive
    {
      analysisStep := intervalStep;
      intervalStep := intervalStep + 1;
      if intervalStep >= |AnalysisSteps| {
        intervalActive := false;
        finishPending := true;
      }
    }

    /** The one-second timeout after the last step: leave the analysis and show the results. */
    method FinishTimeout()
      requires Valid() && finishPending
      modifies this`analyzing, this`showResults, this`finishPending
      ensures Valid()
      ensures !analyzing && showResults && !finishPending
    {
      analyzing := false;
      showResults := true;
      finishPending := false;
    }

    /** The "new analysis" button of the result screen. */
    method ResetAnalysis()
      requires Valid() && showResults
      modifies this`showResults, this`capturedImage, this`analysisStep
      ensures Valid()
      ensures !showResults && capturedImage.None? && analysisStep == 0
    {
      showResults := false;
      capturedImage := None;
      analysisStep := 0;
    }
  }

  /**
   * Let the interval fire until it stops: it shows the steps 0, 1, ..., 5 in
   * order, clears itself after exactly six firings and leaves the closing
   * timeout pending; that timeout then reveals the results.
   */
  method RunAnalysis(screen: PhotoCheckScreen) returns (shown: seq<nat>)
    requires screen.Valid() && screen.intervalActive && screen.intervalStep == 0
    modifies screen
    ensures screen.Valid() && !screen.analyzing && screen.showResults
    ensures |shown| == |AnalysisSteps|
    ensures forall k :: 0 <= k < |shown| ==> shown[k] == k
  {
    shown := [];
    while screen.intervalActive
      invariant screen.Valid()
      invariant |shown| == screen.intervalStep
      invariant forall k :: 0 <= k < |shown| ==> shown[k] == k
      invariant !screen.intervalActive ==> screen.finishPending
      decreases |AnalysisSteps| - screen.intervalStep
    {
      screen.IntervalTick();
      shown := shown + [screen.analysisStep];
    }
    screen.FinishTimeout();
  }
}
