/**
 * The camera screen: sorting raw sensor degrees into logical orientations,
 * classifying the orientation register into a named transition, choosing the
 * rotation animations and flash icons, the flash and lens buttons, the photo
 * capture calls and the placeholders that decide the focus marker.
 */
module Camera {
  import opened Wrappers
  import opened ViewModel

  datatype FlashMode = Auto | On | Off
  datatype LensFacing = Front | Back

  /** The display rotations `Surface.ROTATION_0` .. `Surface.ROTATION_270`. */
  datatype SurfaceRotation = Rotation0 | Rotation90 | Rotation180 | Rotation270

  function SurfaceDegrees(r: SurfaceRotation): int
  {
    match r
    case Rotation0 => 0
    case Rotation90 => 90
    case Rotation180 => 180
    case Rotation270 => 270
  }

  /** The degrees `changeViewRotation` gives a button for the current orientation. */
  function ViewRotation(o: ScreenOrientation): (d: int)
    ensures 0 <= d < 360 && d % 90 == 0
  {
    match o
    case Portrait => 0
    case ReversePortrait => 180
    case Landscape => 90
    case ReverseLandscape => 270
  }

  /** Distinct orientations turn the buttons to distinct angles. */
  lemma ViewRotationInjective(a: ScreenOrientation, b: ScreenOrientation)
    ensures ViewRotation(a) == ViewRotation(b) ==> a == b
  {
  }

  /** What one sensor reading yields: the logical orientation and the capture target rotation. */
  datatype Reading = Reading(orientation: ScreenOrientation, rotation: SurfaceRotation)

  /**
   * The orientation listener's bucketing. It is total: every int lands in a
   * bucket, including the sensor's "unknown" value -1, which falls to Portrait.
   */
  function Bucket(degrees: int): (r: Reading)
    ensures r.orientation == ReverseLandscape <==> 45 <= degrees < 135
    ensures r.orientation == ReversePortrait <==> 135 <= degrees < 225
    ensures r.orientation == Landscape <==> 225 <= degrees < 315
    ensures r.orientation == Portrait <==> degrees < 45 || 315 <= degrees
    ensures SurfaceDegrees(r.rotation) == ViewRotation(r.orientation)
  {
    if 45 <= degrees < 135 then Reading(ReverseLandscape, Rotation270)
    else if 135 <= degrees < 225 then Reading(ReversePortrait, Rotation180)
    else if 225 <= degrees < 315 then Reading(Landscape, Rotation90)
    else Reading(Portrait, Rotation0)
  }

  /** The register after a stream of readings, starting from (Portrait, Portrait). */
  function Track(readings: seq<int>): OrientationPair
    decreases |readings|
  {
    if readings == [] then INITIAL_ORIENTATION
    else Shift(Track(readings[..|readings| - 1]), Bucket(readings[|readings| - 1]).orientation)
  }

  /**
   * The register holds exactly the buckets of the last two readings, or
   * Portrait and the only reading; nothing earlier is remembered and equal
   * readings are not collapsed.
   */
  lemma {:induction false} TrackHoldsLastTwo(readings: seq<int>)
    requires |readings| >= 1
    ensures var n := |readings|;
      Track(readings) == OrientationPair(
        if n == 1 then Portrait else Bucket(readings[n - 2]).orientation,
        Bucket(readings[n - 1]).orientation)
  {
    var n := |readings|;
    var prefix := readings[..n - 1];
    if n == 1 {
      assert prefix == [];
    } else {
      TrackHoldsLastTwo(prefix);
      assert prefix[|prefix| - 1] == readings[n - 2];
    }
  }

  /** Two readings in the same bucket leave the register at (v, v). */
  lemma {:induction false} RepeatedReadingFillsBothSlots(readings: seq<int>, d: int, e: int)
    requires Bucket(d).orientation == Bucket(e).orientation
    ensures Track(readings + [d, e]) == OrientationPair(Bucket(d).orientation, Bucket(d).orientation)
  {
    var all := readings + [d, e];
    TrackHoldsLastTwo(all);
    assert all[|all| - 2] == d && all[|all| - 1] == e;
  }

  /** The nine named transitions; XtoY turns buttons from X to Y degrees. */
  datatype ScreenOrientationPair =
    | ScreenOrientation0to0
    | ScreenOrientation0to270
    | ScreenOrientation0to90
    | ScreenOrientation90to0
    | ScreenOrientation90to180
    | ScreenOrientation180to270
    | ScreenOrientation180to90
    | ScreenOrientation270to0
    | ScreenOrientation270to180

  /** X of the name XtoY. */
  function FromDegrees(p: ScreenOrientationPair): int
  {
    match p
    case ScreenOrientation0to0 => 0
    case ScreenOrientation0to270 => 0
    case ScreenOrientation0to90 => 0
    case ScreenOrientation90to0 => 90
    case ScreenOrientation90to180 => 90
    case ScreenOrientation180to270 => 180
    case ScreenOrientation180to90 => 180
    case ScreenOrientation270to0 => 270
    case ScreenOrientation270to180 => 270
  }

  /** Y of the name XtoY. */
  function ToDegrees(p: ScreenOrientationPair): int
  {
    match p
    case ScreenOrientation0to0 => 0
    case ScreenOrientation0to270 => 270
    case ScreenOrientation0to90 => 90
    case ScreenOrientation90to0 => 0
    case ScreenOrientation90to180 => 180
    case ScreenOrientation180to270 => 270
    case ScreenOrientation180to90 => 90
    case ScreenOrientation270to0 => 0
    case ScreenOrientation270to180 => 180
  }

  /** The register value each transition is chosen for. Its name is its degrees. */
  function Endpoints(p: ScreenOrientationPair): (s: OrientationPair)
    ensures ViewRotation(s.first) == FromDegrees(p)
    ensures ViewRotation(s.second) == ToDegrees(p)
  {
    match p
    case ScreenOrientation0to0 => OrientationPair(Portrait, Portrait)
    case ScreenOrientation0to270 => OrientationPair(Portrait, ReverseLandscape)
    case ScreenOrientation0to90 => OrientationPair(Portrait, Landscape)
    case ScreenOrientation90to0 => OrientationPair(Landscape, Portrait)
    case ScreenOrientation90to180 => OrientationPair(Landscape, ReversePortrait)
    case ScreenOrientation180to270 => OrientationPair(ReversePortrait, ReverseLandscape)
    case ScreenOrientation180to90 => OrientationPair(ReversePortrait, Landscape)
    case ScreenOrientation270to0 => OrientationPair(ReverseLandscape, Portrait)
    case ScreenOrientation270to180 => OrientationPair(ReverseLandscape, ReversePortrait)
  }

  /** The seven register values the collector has no branch for. */
  const UNMAPPED: set<OrientationPair> := {
    OrientationPair(Landscape, Landscape),
    OrientationPair(ReversePortrait, ReversePortrait),
    OrientationPair(ReverseLandscape, ReverseLandscape),
    OrientationPair(ReversePortrait, Portrait),
    OrientationPair(Portrait, ReversePortrait),
    OrientationPair(Landscape, ReverseLandscape),
    OrientationPair(ReverseLandscape, Landscape)
  }

  /**
   * The collector's `if`/`else if` chain over the register. Its conditions are
   * disjoint, so it is written as one match with a case per branch.
   */
  function ClassifyPair(s: OrientationPair): (r: Option<ScreenOrientationPair>)
    ensures r.Some? ==> Endpoints(r.value) == s
    ensures r.None? <==> s in UNMAPPED
  {
    match (s.first, s.second)
    case (Portrait, Portrait) => Some(ScreenOrientation0to0)
    case (Landscape, Portrait) => Some(ScreenOrientation90to0)
    case (ReverseLandscape, Portrait) => Some(ScreenOrientation270to0)
    case (ReversePortrait, Landscape) => Some(ScreenOrientation180to90)
    case (Portrait, Landscape) => Some(ScreenOrientation0to90)
    case (Landscape, ReversePortrait) => Some(ScreenOrientation90to180)
    case (ReverseLandscape, ReversePortrait) => Some(ScreenOrientation270to180)
    case (Portrait, ReverseLandscape) => Some(ScreenOrientation0to270)
    case (ReversePortrait, ReverseLandscape) => Some(ScreenOrientation180to270)
    case _ => None
  }

  /** Every named transition is reached from its own endpoints and from nothing else. */
  lemma ClassifyInvertsEndpoints(p: ScreenOrientationPair)
    ensures ClassifyPair(Endpoints(p)) == Some(p)
  {
  }

  /** Distinct transitions have distinct endpoints, so exactly nine register values are classified. */
  lemma EndpointsInjective(p: ScreenOrientationPair, q: ScreenOrientationPair)
    ensures Endpoints(p) == Endpoints(q) ==> p == q
  {
  }

  /** The nine classified register values. */
  const CLASSIFIED: set<OrientationPair> := {
    OrientationPair(Portrait, Portrait), OrientationPair(Portrait, ReverseLandscape),
    OrientationPair(Portrait, Landscape), OrientationPair(Landscape, Portrait),
    OrientationPair(Landscape, ReversePortrait), OrientationPair(ReversePortrait, ReverseLandscape),
    OrientationPair(ReversePortrait, Landscape), OrientationPair(ReverseLandscape, Portrait),
    OrientationPair(ReverseLandscape, ReversePortrait)
  }

  /** Exactly nine of the sixteen register values are classified: those in CLASSIFIED. */
  lemma ExactlyNineClassified(s: OrientationPair)
    ensures ClassifyPair(s).Some? <==> s in CLASSIFIED
    ensures |CLASSIFIED| == 9 && |UNMAPPED| == 7
  {
  }

  /**
   * Drawable resources, by the parts of their names:
   * `animated_vector_switch_camera_<from>_<to>`,
   * `animated_vector_flash_<mode>_<from>_<to>` and `flash_<mode>_button_default`.
   */
  datatype Drawable =
    | SwitchCameraAnimation(from: int, to: int)
    | FlashAnimation(mode: FlashMode, from: int, to: int)
    | FlashButtonDefault(mode: FlashMode)

  datatype ButtonAnimations = ButtonAnimations(flip: Drawable, flash: Drawable)

  /**
   * The animations the collector starts for a transition: the flip button's
   * and, picked by the flash mode, the flash button's. 0to0 starts none.
   */
  function RotationAnimations(p: ScreenOrientationPair, m: FlashMode): (r: Option<ButtonAnimations>)
    ensures r.None? <==> p == ScreenOrientation0to0
    ensures r.Some? ==> r.value.flip == SwitchCameraAnimation(FromDegrees(p), ToDegrees(p))
    ensures r.Some? ==> r.value.flash == FlashAnimation(m, FromDegrees(p), ToDegrees(p))
  {
    match p
    case ScreenOrientation0to0 => None
    case ScreenOrientation90to0 => Some(ButtonAnimations(SwitchCameraAnimation(90, 0), FlashAnimation(m, 90, 0)))
    case ScreenOrientation270to0 => Some(ButtonAnimations(SwitchCameraAnimation(270, 0), FlashAnimation(m, 270, 0)))
    case ScreenOrientation180to90 => Some(ButtonAnimations(SwitchCameraAnimation(180, 90), FlashAnimation(m, 180, 90)))
    case ScreenOrientation0to90 => Some(ButtonAnimations(SwitchCameraAnimation(0, 90), FlashAnimation(m, 0, 90)))
    case ScreenOrientation90to180 => Some(ButtonAnimations(SwitchCameraAnimation(90, 180), FlashAnimation(m, 90, 180)))
    case ScreenOrientation270to180 => Some(ButtonAnimations(SwitchCameraAnimation(270, 180), FlashAnimation(m, 270, 180)))
    case ScreenOrientation0to270 => Some(ButtonAnimations(SwitchCameraAnimation(0, 270), FlashAnimation(m, 0, 270)))
    case ScreenOrientation180to270 => Some(ButtonAnimations(SwitchCameraAnimation(180, 270), FlashAnimation(m, 180, 270)))
  }

  /** The flash click's mode cycle: Auto, then Off, then On, then Auto again. */
  function NextFlashMode(m: FlashMode): (n: FlashMode)
    ensures n != m
    ensures m == Auto ==> n == Off
    ensures m == Off ==> n == On
    ensures m != Auto && m != Off ==> n == Auto
  {
    match m
    case Auto => Off
    case Off => On
    case _ => Auto
  }

  /** Three flash clicks come back to the starting mode, and no fewer do. */
  lemma FlashCycleHasPeriodThree(m: FlashMode)
    ensures NextFlashMode(NextFlashMode(NextFlashMode(m))) == m
    ensures NextFlashMode(NextFlashMode(m)) != m
  {
  }

  /**
   * The icon a flash click sets for the new mode `m` under the current
   * transition `p`. It always shows `m` and follows `p` in direction, except
   * that 0to90 takes the `_90_0` resource.
   */
  function FlashClickIcon(m: FlashMode, p: ScreenOrientationPair): (d: Drawable)
    ensures !d.SwitchCameraAnimation? && d.mode == m
    ensures p == ScreenOrientation0to0 ==> d == FlashButtonDefault(m)
    ensures p == ScreenOrientation0to90 ==> d == FlashAnimation(m, 90, 0)
    ensures p != ScreenOrientation0to0 && p != ScreenOrientation0to90 ==>
              d == FlashAnimation(m, FromDegrees(p), ToDegrees(p))
  {
    match p
    case ScreenOrientation0to0 => FlashButtonDefault(m)
    case ScreenOrientation0to90 => FlashAnimation(m, 90, 0)
    case ScreenOrientation0to270 => FlashAnimation(m, 0, 270)
    case ScreenOrientation90to0 => FlashAnimation(m, 90, 0)
    case ScreenOrientation90to180 => FlashAnimation(m, 90, 180)
    case ScreenOrientation180to90 => FlashAnimation(m, 180, 90)
    case ScreenOrientation180to270 => FlashAnimation(m, 180, 270)
    case ScreenOrientation270to0 => FlashAnimation(m, 270, 0)
    case ScreenOrientation270to180 => FlashAnimation(m, 270, 180)
  }

  /** On 0to90 the click icon and the rotation animation point in opposite directions. */
  lemma ZeroToNinetyIconIsReversed(m: FlashMode)
    ensures var icon := FlashClickIcon(m, ScreenOrientation0to90);
            var anim := RotationAnimations(ScreenOrientation0to90, m).value.flash;
            icon.from == anim.to && icon.to == anim.from && icon != anim
  {
  }

  /** The lens toggle: Front becomes Back, anything else becomes Front. */
  function ToggledLens(l: LensFacing): (t: LensFacing)
    ensures t != l
    ensures t == Front <==> l != Front
  {
    if l == Front then Back else Front
  }

  datatype CameraErrorCode =
    | StreamConfig | CameraInUse | MaxCamerasInUse | OtherRecoverableError
    | CameraDisabled | CameraFatalError | DoNotDisturbModeEnabled

  const GENERIC_ERROR_TEXT: string := "An unexpected error has occurred"
  const CAMERA_IN_USE_TEXT: string := "The camera is in use. Please, close other apps, tha uses the camera."
  const MAX_CAMERAS_IN_USE_TEXT: string := "All the cameras are in use. Please, close other apps, that uses the cameras."
  const CAMERA_DISABLED_TEXT: string := "Camera is disabled. Please, enable system camera in the device settings and reopen the app."
  const FATAL_ERROR_TEXT: string := "Fatal error is occurred. Please, reboot the device to restore camera function."
  const DO_NOT_DISTURB_TEXT: string := "Do not disturb mode enabled. Please, disable the \"Do Not Disturb\" mode, then reopen the camera"

  /** The two codes whose placeholder shows the generic text. */
  predicate ShowsGenericText(code: CameraErrorCode)
  {
    code == StreamConfig || code == OtherRecoverableError
  }

  /**
   * The placeholder text for each camera error code: exactly the two
   * recoverable codes share the generic text, and every other code has a
   * text of its own.
   */
  function CameraErrorText(code: CameraErrorCode): (t: string)
    ensures t == GENERIC_ERROR_TEXT <==> ShowsGenericText(code)
  {
    match code
    case StreamConfig => GENERIC_ERROR_TEXT
    case CameraInUse => CAMERA_IN_USE_TEXT
    case MaxCamerasInUse => MAX_CAMERAS_IN_USE_TEXT
    case OtherRecoverableError => GENERIC_ERROR_TEXT
    case CameraDisabled => CAMERA_DISABLED_TEXT
    case CameraFatalError => FATAL_ERROR_TEXT
    case DoNotDisturbModeEnabled => DO_NOT_DISTURB_TEXT
  }

  /** Two codes show the same text exactly when they are equal or both show the generic one. */
  lemma ErrorTextsDistinguishCodes(c: CameraErrorCode, d: CameraErrorCode)
    ensures CameraErrorText(c) == CameraErrorText(d) <==> c == d || (ShowsGenericText(c) && ShowsGenericText(d))
  {
  }

  const CAPTURE_ERROR_NOTICE: string := "An unexpected error occurred while making the photo."

  datatype Button = FlipButton | FlashButton

  class CameraFragment {
    const viewModel: MainViewModel

    var screenOrientationPair: ScreenOrientationPair
    var lensFacing: LensFacing
    var flashMode: FlashMode
    var flippedHorizontally: bool
    var currentImageResourceFlashButton: Drawable

    /** The flip button's image; `None` while it still shows the layout's own icon. */
    var flipButtonImage: Option<Drawable>
    var flashButtonImage: Drawable
    var flashButtonEnabled: bool
    /** The flash button's `rotation`, in degrees. */
    var flashButtonRotation: int
    /** Every button animation started, oldest first. */
    var startedAnimations: seq<(Button, Drawable)>

    /** The "no camera permission" placeholder (image and text). */
    var noAccessVisible: bool
    /** The camera error placeholder (text, image and background) and its text. */
    var errorPlaceholderVisible: bool
    var errorText: string
    /** The capture, flip and flash buttons, always shown and hidden together. */
    var controlsVisible: bool
    var focusVisible: bool
    var progressBarVisible: bool
    var atPhotoScreen: bool
    var toasts: seq<string>

    /** The fields' initial values, and the flash icon `onCreateView` sets for the default mode. */
    constructor (viewModel: MainViewModel)
      ensures this.viewModel == viewModel
      ensures screenOrientationPair == ScreenOrientation0to0
      ensures lensFacing == Back && flashMode == Auto && !flippedHorizontally
      ensures currentImageResourceFlashButton == FlashButtonDefault(Auto)
      ensures flipButtonImage == None && flashButtonImage == FlashButtonDefault(Auto)
      ensures flashButtonEnabled && flashButtonRotation == 0 && startedAnimations == []
      ensures !noAccessVisible && !errorPlaceholderVisible && errorText == [] && controlsVisible
      ensures !focusVisible && !progressBarVisible && !atPhotoScreen && toasts == []
    {
      this.viewModel := viewModel;
      screenOrientationPair := ScreenOrientation0to0;
      lensFacing := Back;
      flashMode := Auto;
      flippedHorizontally := false;
      currentImageResourceFlashButton := FlashButtonDefault(Auto);
      flipButtonImage := None;
      flashButtonImage := FlashButtonDefault(Auto);
      flashButtonEnabled := true;
      flashButtonRotation := 0;
      startedAnimations := [];
      noAccessVisible := false;
      errorPlaceholderVisible := false;
      errorText := [];
      controlsVisible := true;
      focusVisible := false;
      progressBarVisible := false;
      atPhotoScreen := false;
      toasts := [];
    }

    /** The orientation listener: buckets a reading, pushes it into the register, returns the capture rotation. */
    method OnOrientationChanged(degrees: int) returns (rotation: SurfaceRotation)
      modifies viewModel`screenOrientationState
      ensures rotation == Bucket(degrees).rotation
      ensures viewModel.screenOrientationState ==
                OrientationPair(old(viewModel.screenOrientationState).second, Bucket(degrees).orientation)
    {
      var reading := Bucket(degrees);
      viewModel.UpdateScreenOrientation(reading.orientation);
      rotation := reading.rotation;
    }

    /** Sets a button's image and starts it; only the flash button's field is named after it, but both write it. */
    method StartImageButtonRotationAnimation(button: Button, animation: Drawable)
      modifies this`currentImageResourceFlashButton, this`flipButtonImage, this`flashButtonImage, this`startedAnimations
      ensures currentImageResourceFlashButton == animation
      ensures flipButtonImage == if button == FlipButton then Some(animation) else old(flipButtonImage)
      ensures flashButtonImage == if button == FlashButton then animation else old(flashButtonImage)
      ensures startedAnimations == old(startedAnimations) + [(button, animation)]
    {
      currentImageResourceFlashButton := animation;
      if button == FlipButton {
        flipButtonImage := Some(animation);
      } else {
        flashButtonImage := animation;
      }
      startedAnimations := startedAnimations + [(button, animation)];
    }

    /** The collector of the orientation register. */
    method ObserveScreenOrientation()
      modifies this`flashButtonRotation, this`screenOrientationPair, this`currentImageResourceFlashButton,
               this`flipButtonImage, this`flashButtonImage, this`startedAnimations
      ensures flashButtonRotation == 0
      ensures var c := ClassifyPair(viewModel.screenOrientationState);
              screenOrientationPair == if c.Some? then c.value else old(screenOrientationPair)
      ensures var c := ClassifyPair(viewModel.screenOrientationState);
              var a := if c.Some? then RotationAnimations(c.value, flashMode) else None;
              if a.Some? then
                && flipButtonImage == Some(a.value.flip)
                && flashButtonImage == a.value.flash
                && currentImageResourceFlashButton == a.value.flash
                && startedAnimations == old(startedAnimations) + [(FlipButton, a.value.flip), (FlashButton, a.value.flash)]
              else
                && flipButtonImage == old(flipButtonImage)
                && flashButtonImage == old(flashButtonImage)
                && currentImageResourceFlashButton == old(currentImageResourceFlashButton)
                && startedAnimations == old(startedAnimations)
    {
      flashButtonRotation := 0;
      var classified := ClassifyPair(viewModel.screenOrientationState);
      if classified.Some? {
        screenOrientationPair := classified.value;
        var animations := RotationAnimations(classified.value, flashMode);
        if animations.Some? {
          StartImageButtonRotationAnimation(FlipButton, animations.value.flip);
          StartImageButtonRotationAnimation(FlashButton, animations.value.flash);
        }
      }
    }

    method OnFlipClick()
      modifies this`lensFacing
      ensures lensFacing == ToggledLens(old(lensFacing))
    {
      lensFacing := ToggledLens(lensFacing);
    }

    /**
     * The flash button; `hasFlashUnit` is what the bound camera reports (false
     * when none is bound). Only this listener ever sets the button's enabled
     * flag, and a disabled button receives no clicks, so once a click finds no
     * flash unit the button stays disabled for the rest of the view's life.
     */
    method OnFlashClick(hasFlashUnit: bool)
      requires flashButtonEnabled
      modifies this`flashButtonEnabled, this`flashButtonRotation, this`flashMode, this`flashButtonImage
      ensures flashButtonEnabled == hasFlashUnit
      ensures hasFlashUnit ==>
                && flashButtonRotation == ViewRotation(viewModel.screenOrientationState.second)
                && flashMode == NextFlashMode(old(flashMode))
                && flashButtonImage == FlashClickIcon(flashMode, screenOrientationPair)
      ensures !hasFlashUnit ==>
                && flashButtonRotation == old(flashButtonRotation)
                && flashMode == old(flashMode)
                && flashButtonImage == old(flashButtonImage)
    {
      if hasFlashUnit {
        flashButtonEnabled := true;
        flashButtonRotation := ViewRotation(viewModel.screenOrientationState.second);
        flashMode := NextFlashMode(flashMode);
        flashButtonImage := FlashClickIcon(flashMode, screenOrientationPair);
      } else {
        flashButtonEnabled := false;
      }
    }

    /**
     * The shutter: marks the photo Started before looking for a capture use
     * case, so without one the state stays Started. Returns whether a picture
     * was requested.
     */
    method TakePhoto(hasImageCapture: bool) returns (pictureRequested: bool)
      modifies this`flippedHorizontally, viewModel`photoState
      ensures flippedHorizontally == (lensFacing == Front)
      ensures viewModel.photoState == StateStarted
      ensures pictureRequested == hasImageCapture
    {
      flippedHorizontally := lensFacing == Front;
      viewModel.MakePhotoStateStarted();
      if !hasImageCapture {
        return false;
      }
      pictureRequested := true;
    }

    /** The capture callback on success: store the decoded bitmap, go to the photo screen, then mark Ended. */
    method OnCaptureSuccess(decoded: Option<Bitmap>)
      modifies viewModel`bitmap, viewModel`photoState, this`atPhotoScreen
      ensures viewModel.bitmap == decoded
      ensures atPhotoScreen
      ensures viewModel.photoState == StateEnded
    {
      viewModel.UpdateBitmapValue(decoded);
      atPhotoScreen := true;
      viewModel.MakePhotoStateEnded();
    }

    /** The capture callback on error: hide the spinner and show a notice; the photo state is not touched. */
    method OnCaptureError()
      modifies this`progressBarVisible, this`toasts
      ensures !progressBarVisible
      ensures toasts == old(toasts) + [CAPTURE_ERROR_NOTICE]
      ensures viewModel.photoState == old(viewModel.photoState)
    {
      progressBarVisible := false;
      toasts := toasts + [CAPTURE_ERROR_NOTICE];
    }

    /** The collector of the photo state: the spinner shows exactly while Started. */
    method ObservePhotoState()
      modifies this`progressBarVisible
      ensures progressBarVisible == (viewModel.photoState == StateStarted)
    {
      progressBarVisible := viewModel.photoState == StateStarted;
    }

    /** The focus marker's visibility after a tap; where it is placed is not modelled. */
    method SetFocusPlaceAndVisibility()
      modifies this`focusVisible
      ensures focusVisible == (!noAccessVisible && !errorPlaceholderVisible && lensFacing != Front)
    {
      focusVisible := !noAccessVisible && !errorPlaceholderVisible && lensFacing != Front;
    }

    method ShowNoAccess()
      modifies this`noAccessVisible, this`errorPlaceholderVisible, this`controlsVisible
      ensures noAccessVisible && !errorPlaceholderVisible && !controlsVisible
    {
      noAccessVisible := true;
      errorPlaceholderVisible := false;
      controlsVisible := false;
    }

    method ShowAccess()
      modifies this`noAccessVisible, this`errorPlaceholderVisible, this`controlsVisible
      ensures !noAccessVisible && !errorPlaceholderVisible && controlsVisible
    {
      noAccessVisible := false;
      controlsVisible := true;
      errorPlaceholderVisible := false;
    }

    method ShowErrorPlaceholder(text: string)
      modifies this`noAccessVisible, this`errorPlaceholderVisible, this`errorText, this`controlsVisible
      ensures errorPlaceholderVisible && errorText == text
      ensures !noAccessVisible && !controlsVisible
    {
      errorPlaceholderVisible := true;
      errorText := text;
      noAccessVisible := false;
      controlsVisible := false;
    }

    /** The camera state observer: an open camera clears any placeholder, then an error code shows its text. */
    method OnCameraState(isOpen: bool, error: Option<CameraErrorCode>)
      modifies this`noAccessVisible, this`errorPlaceholderVisible, this`errorText, this`controlsVisible
      ensures error.Some? ==> errorPlaceholderVisible && errorText == CameraErrorText(error.value)
                              && !noAccessVisible && !controlsVisible
      ensures error.None? && isOpen && (old(errorPlaceholderVisible) || old(noAccessVisible)) ==>
                !noAccessVisible && !errorPlaceholderVisible && controlsVisible && errorText == old(errorText)
      ensures error.None? && !(isOpen && (old(errorPlaceholderVisible) || old(noAccessVisible))) ==>
                && noAccessVisible == old(noAccessVisible)
                && errorPlaceholderVisible == old(errorPlaceholderVisible)
                && controlsVisible == old(controlsVisible)
                && errorText == old(errorText)
    {
      if isOpen && (errorPlaceholderVisible || noAccessVisible) {
        ShowAccess();
      }
      if error.Some? {
        ShowErrorPlaceholder(CameraErrorText(error.value));
      }
    }
  }
}
