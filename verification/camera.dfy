/**
 * The per-frame posture state of the camera session: the smoothing window,
 * the smoothed neck inclination, the posture status and the selected theme,
 * and the operations that read and update them.
 *
 * The camera device, the pose detector and the image codec are left
 * abstract: a frame arrives as a Capture, which says whether the read
 * succeeded and, if so, whether a person was detected and in which
 * direction the ear lies from the shoulder.
 */
module Camera {
  import opened Wrappers
  import opened Geometry
  import opened Smoothing
  import opened Posture
  import opened Theme

  /**
   * What the pose detector reports for one frame: nobody, or a person whose
   * left ear lies at `earBearing` as seen from the left shoulder.
   */
  datatype Detection = NoPerson | Person(earBearing: Bearing)

  /** The outcome of reading one frame from the camera device. */
  datatype Capture = ReadFailed | Captured(detection: Detection)

  /**
   * An encoded output frame, modelled by the palette of the skeleton overlay
   * drawn on it; None when the frame passed through without an overlay.
   */
  datatype Jpeg = Jpeg(overlay: Option<Palette>)

  /** The telemetry snapshot served to the browser: the status string and the angle in whole degrees. */
  datatype Telemetry = Telemetry(status: string, angle: int)

  /** Conversion of a real to an integer by truncation toward zero. */
  function Truncate(x: real): (r: int)
    ensures 0.0 <= x ==> r as real <= x < r as real + 1.0
    ensures x < 0.0 ==> r as real - 1.0 < x <= r as real
  {
    if x >= 0.0 then x.Floor else -((-x).Floor)
  }

  /**
   * The raw neck inclination of a detected person: the angle at the shoulder
   * between the ear and the point straight below the shoulder. It is 180
   * less the tilt of the ear away from straight up.
   */
  function NeckAngle(ear: Bearing): (r: real)
    ensures 0.0 <= r <= 180.0
    ensures r == 180.0 - VectorAngle(ear, UPWARD_BEARING)
  {
    NeckAngleIsSupplementOfTilt(ear);
    VectorAngle(ear, VERTICAL_BEARING)
  }

  class VideoCamera {
    var status: Status
    var neckInclination: real
    var currentMode: string
    /** The smoothing window of raw neck angles, oldest first. */
    var angleHistory: seq<real>
    /** Every smoothed angle classified so far, oldest first. */
    ghost var smoothedTrace: seq<real>

    /**
     * The object invariant: the window is within capacity and holds angles
     * in [0, 180]; the inclination is the window's mean (0 before any
     * detection) and the latest smoothed angle; the status is what the
     * classifier makes of every smoothed angle so far, starting from Normal;
     * the mode names a theme.
     */
    ghost predicate Valid()
      reads this
    {
      && |angleHistory| <= CAPACITY
      && AllWithin(angleHistory, 0.0, 180.0)
      && (angleHistory == [] <==> smoothedTrace == [])
      && neckInclination == (if angleHistory == [] then 0.0 else Mean(angleHistory))
      && 0.0 <= neckInclination <= 180.0
      && (smoothedTrace != [] ==> smoothedTrace[|smoothedTrace| - 1] == neckInclination)
      && status == Run(Normal, smoothedTrace)
      && currentMode in THEMES
    }

    constructor ()
      ensures Valid()
      ensures status == Normal && neckInclination == 0.0
      ensures currentMode == DEFAULT_MODE && angleHistory == [] && smoothedTrace == []
    {
      status := Normal;
      neckInclination := 0.0;
      currentMode := DEFAULT_MODE;
      angleHistory := [];
      smoothedTrace := [];
    }

    /** Selects the theme `mode`; a name outside the theme table is ignored. */
    method SetMode(mode: string)
      requires Valid()
      modifies this`currentMode
      ensures Valid()
      ensures currentMode == if mode in THEMES then mode else old(currentMode)
    {
      if mode in THEMES {
        currentMode := mode;
      }
    }

    /**
     * Feeds one smoothed angle to the hysteresis classifier. This is an
     * internal step of GetFrame, which calls it right after recording the
     * angle; on its own it does not keep the status in step with the
     * recorded angles, so it neither needs nor restores Valid().
     */
    method UpdateStatus(angle: real)
      modifies this`status
      ensures status == NextStatus(old(status), angle)
    {
      if angle < SLOUCH_THRESH {
        status := Slouching;
      } else if angle > RECOVERY_THRESH {
        status := Normal;
      }
    }

    /**
     * The palette the overlay is drawn with: the selected theme's, or the
     * default theme's for an unknown mode, which a valid camera never has.
     */
    function OverlayPalette(): (p: Palette)
      reads this
      ensures p in THEMES.Values
      ensures Valid() ==> p == THEMES[currentMode]
    {
      ThemeFor(currentMode)
    }

    /**
     * Processes one frame. A failed read yields nothing and a frame without
     * a person passes through without an overlay; neither changes any state.
     * A frame with a person pushes the raw neck angle into the window, makes
     * the window's mean the new inclination, classifies it and draws the
     * overlay in the selected theme.
     */
    method GetFrame(capture: Capture) returns (frame: Option<Jpeg>)
      requires Valid()
      modifies this
      ensures Valid()
      ensures capture.ReadFailed? ==> frame == None && unchanged(this)
      ensures capture == Captured(NoPerson) ==> frame == Some(Jpeg(None)) && unchanged(this)
      ensures capture.Captured? && capture.detection.Person? ==>
        && angleHistory == Push(old(angleHistory), NeckAngle(capture.detection.earBearing))
        && neckInclination == Mean(angleHistory)
        && status == NextStatus(old(status), neckInclination)
        && smoothedTrace == old(smoothedTrace) + [neckInclination]
        && currentMode == old(currentMode)
        && frame == Some(Jpeg(Some(THEMES[currentMode])))
    {
      match capture
      case ReadFailed =>
        frame := None;
      case Captured(NoPerson) =>
        frame := Some(Jpeg(None));
      case Captured(Person(ear)) =>
        var rawAngle := NeckAngle(ear);
        PushKeepsBounds(angleHistory, rawAngle, 0.0, 180.0);
        angleHistory := Push(angleHistory, rawAngle);
        var avgAngle := Mean(angleHistory);
        MeanWithin(angleHistory, 0.0, 180.0);
        neckInclination := avgAngle;
        ghost var before := smoothedTrace;
        smoothedTrace := smoothedTrace + [avgAngle];
        assert smoothedTrace[..|smoothedTrace| - 1] == before;
        UpdateStatus(avgAngle);
        frame := Some(Jpeg(Some(OverlayPalette())));
    }

    /**
     * The telemetry snapshot. It reports the status string and the
     * inclination truncated to whole degrees: of a valid camera, the floor
     * of the current mean, within [0, 180], and 0 before any detection.
     */
    function GetData(): (t: Telemetry)
      reads this
      ensures t.status == Label(status)
      ensures Valid() ==> 0 <= t.angle <= 180 && t.angle == neckInclination.Floor
      ensures Valid() && angleHistory == [] ==> t.angle == 0
    {
      Telemetry(Label(status), Truncate(neckInclination))
    }
  }

  /**
   * The status a valid camera reports is decided by the most recent smoothed
   * angle outside the dead band, and is Normal while there has been none.
   */
  lemma StatusFollowsLastDecisive(cam: VideoCamera)
    requires cam.Valid()
    ensures cam.GetData().status == Label(match LastDecisive(cam.smoothedTrace)
      case None => Normal
      case Some(a) => if a < SLOUCH_THRESH then Slouching else Normal)
  {
    RunFollowsLastDecisive(Normal, cam.smoothedTrace);
  }

  /**
   * End to end: a fresh camera that sees five frames with the ear straight
   * above the shoulder reports Normal and an angle of 180 degrees.
   */
  method UprightScenario() returns (t: Telemetry)
    ensures t == Telemetry("Normal", 180)
  {
    var cam := new VideoCamera();
    var upright := Captured(Person(UPWARD_BEARING));
    assert NeckAngle(UPWARD_BEARING) == 180.0;
    var frames := 0;
    while frames < 5
      invariant cam.Valid() && AllWithin(cam.angleHistory, 180.0, 180.0)
      invariant frames > 0 ==> cam.neckInclination == 180.0 && cam.status == Normal
    {
      ghost var window := cam.angleHistory;
      var frame := cam.GetFrame(upright);
      PushKeepsBounds(window, 180.0, 180.0, 180.0);
      MeanOfConstant(cam.angleHistory, 180.0);
      frames := frames + 1;
    }
    t := cam.GetData();
  }

  /**
   * End to end, smoothing and hysteresis together: after five frames with
   * the head tilted 40 degrees forward the camera warns, and one upright
   * frame that follows does not clear the warning, because the window's
   * mean, 148, lies in the dead band.
   */
  method SlouchScenario() returns (t: Telemetry)
    ensures t == Telemetry("Warning: Slouching!", 148)
  {
    var cam := new VideoCamera();
    var leaning := Captured(Person(-50.0));
    assert NeckAngle(-50.0) == 140.0;
    var frames := 0;
    while frames < CAPACITY
      invariant frames <= CAPACITY && |cam.angleHistory| == frames
      invariant cam.Valid() && AllWithin(cam.angleHistory, 140.0, 140.0)
      invariant frames > 0 ==> cam.neckInclination == 140.0 && cam.status == Slouching
    {
      ghost var window := cam.angleHistory;
      var frame := cam.GetFrame(leaning);
      PushKeepsBounds(window, 140.0, 140.0, 140.0);
      MeanOfConstant(cam.angleHistory, 140.0);
      frames := frames + 1;
    }
    assert cam.angleHistory == [140.0, 140.0, 140.0, 140.0, 140.0];
    assert NeckAngle(UPWARD_BEARING) == 180.0;
    var frame := cam.GetFrame(Captured(Person(UPWARD_BEARING)));
    assert cam.angleHistory == [140.0, 140.0, 140.0, 140.0, 180.0];
    ghost var window := cam.angleHistory;
    SumOfConstant(window[..4], 140.0);
    SumAppend(window[..4], 180.0);
    assert window[..4] + [180.0] == window;
    t := cam.GetData();
  }
}
