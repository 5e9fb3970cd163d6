/**
 * The event and status vocabulary of the BlinkCard UI component: outbound event
 * payloads, the closed code enumerations, the recognizer registry and the
 * minimum display duration of each camera experience state.
 */
module DataStructures {
  import opened Wrappers
  import opened Js

  // ---------------------------------------------------------------------------
  // Events
  // ---------------------------------------------------------------------------

  /** Payload of `fatalError`; `details` exists only when a truthy value was supplied. */
  datatype EventFatalError<D> = EventFatalError(code: Code, message: string, details: Option<Value<D>>)

  /** Payload of `ready`: the loaded SDK handle, opaque here. */
  datatype EventReady<S> = EventReady(sdk: S)

  /** Payload of `scanError`. */
  datatype EventScanError = EventScanError(code: Code, fatal: bool, message: string, recognizerName: string)

  /** Payload of `scanSuccess`; `successFrame` exists only when a truthy frame was supplied. */
  datatype EventScanSuccess<R, F> = EventScanSuccess(recognizer: R, recognizerName: string, successFrame: Option<F>)

  /** `new EventFatalError(code, message, details)`. */
  function NewEventFatalError<D>(code: Code, message: string, details: Value<D>): (e: EventFatalError<D>)
    ensures e.code == code && e.message == message
    ensures e.details.Some? <==> details.Truthy()
    ensures e.details.Some? ==> e.details.value == details
  {
    EventFatalError(code, message, if details.Truthy() then Some(details) else None)
  }

  /** The `details` argument that rebuilds an event: the stored value, or `undefined` when absent. */
  function DetailsArgument<D>(e: EventFatalError<D>): Value<D> {
    if e.details.Some? then e.details.value else Undefined
  }

  /** A fatal-error payload as the constructor can produce it: stored details are truthy. */
  predicate WellFormedFatalError<D>(e: EventFatalError<D>) {
    e.details.Some? ==> e.details.value.Truthy()
  }

  /** Every payload the constructor builds is well formed, and every well-formed payload is rebuilt from its own fields. */
  lemma FatalErrorRoundTrip<D>(e: EventFatalError<D>, code: Code, message: string, details: Value<D>)
    ensures WellFormedFatalError(NewEventFatalError(code, message, details))
    ensures WellFormedFatalError(e) ==> NewEventFatalError(e.code, e.message, DetailsArgument(e)) == e
  {
  }

  /** All falsy `details` (undefined, null, false, 0, NaN, "") give the same payload. */
  lemma FalsyDetailsAreDropped<D>(code: Code, message: string, d1: Value<D>, d2: Value<D>)
    requires !d1.Truthy() && !d2.Truthy()
    ensures NewEventFatalError(code, message, d1) == NewEventFatalError(code, message, d2)
    ensures NewEventFatalError(code, message, d1).details == None
  {
  }

  /** `new EventScanError(code, fatal, message, recognizerName)`. */
  function NewEventScanError(code: Code, fatal: bool, message: string, recognizerName: string): (e: EventScanError)
    ensures e.code == code && e.fatal == fatal && e.message == message && e.recognizerName == recognizerName
  {
    EventScanError(code, fatal, message, recognizerName)
  }

  /**
   * `new EventScanSuccess(recognizer, recognizerName, successFrame)`. The frame is
   * typed as an SDK result object, so the caller passes an object, `undefined` or `null`.
   */
  function NewEventScanSuccess<R, F>(recognizer: R, recognizerName: string, successFrame: Value<F>): (e: EventScanSuccess<R, F>)
    requires successFrame.Undefined? || successFrame.Null? || successFrame.Object?
    ensures e.recognizer == recognizer && e.recognizerName == recognizerName
    ensures e.successFrame.Some? <==> successFrame.Truthy()
    ensures e.successFrame.Some? ==> successFrame == Object(e.successFrame.value)
  {
    EventScanSuccess(recognizer, recognizerName, if successFrame.Truthy() then Some(successFrame.obj) else None)
  }

  // ---------------------------------------------------------------------------
  // Error codes
  // ---------------------------------------------------------------------------

  /** Error codes of `fatalError` and `scanError`. */
  datatype Code =
    | BrowserNotSupported
    | EmptyResult
    | InvalidRecognizers
    | InvalidRecognizerOptions
    | MissingLicenseKey
    | NoImageFileFound
    | SdkLoadFailed
    | GenericScanError
    | CameraNotAllowed
    | CameraInUse
    | CameraGenericError
    | InternetNotAvailable
    | LicenseError
  {
    /** The string a listener sees for this code. */
    function Value(): string {
      match this
      case BrowserNotSupported => "BROWSER_NOT_SUPPORTED"
      case EmptyResult => "EMPTY_RESULT"
      case InvalidRecognizers => "INVALID_RECOGNIZERS"
      case InvalidRecognizerOptions => "INVALID_RECOGNIZER_OPTIONS"
      case MissingLicenseKey => "MISSING_LICENSE_KEY"
      case NoImageFileFound => "NO_IMAGE_FILE_FOUND"
      case SdkLoadFailed => "SDK_LOAD_FAILED"
      case GenericScanError => "GENERIC_SCAN_ERROR"
      case CameraNotAllowed => "CAMERA_NOT_ALLOWED"
      case CameraInUse => "CAMERA_IN_USE"
      case CameraGenericError => "CAMERA_GENERIC_ERROR"
      case InternetNotAvailable => "INTERNET_NOT_AVAILABLE"
      case LicenseError => "LICENSE_ERROR"
    }
  }

  /** The members of Code in declaration order. */
  const AllCodes: seq<Code> := [
    BrowserNotSupported, EmptyResult, InvalidRecognizers, InvalidRecognizerOptions,
    MissingLicenseKey, Code.NoImageFileFound, SdkLoadFailed, GenericScanError,
    Code.CameraNotAllowed, Code.CameraInUse, Code.CameraGenericError, InternetNotAvailable, LicenseError
  ]

  /** Code has exactly 13 members, and their strings are pairwise distinct. */
  lemma CodeMembers(a: Code, b: Code)
    ensures |AllCodes| == 13 && a in AllCodes
    ensures forall i, j | 0 <= i < j < |AllCodes| :: AllCodes[i] != AllCodes[j]
    ensures a.Value() == b.Value() <==> a == b
  {
  }

  // ---------------------------------------------------------------------------
  // Recognizers and recognition status
  // ---------------------------------------------------------------------------

  /** The recognizer registry: recognizer name to the SDK factory that creates it. */
  const AvailableRecognizers: map<string, string> := map["BlinkCardRecognizer" := "createBlinkCardRecognizer"]

  /** The registry has one entry, BlinkCardRecognizer, created by createBlinkCardRecognizer. */
  lemma AvailableRecognizersSingleEntry()
    ensures AvailableRecognizers.Keys == {"BlinkCardRecognizer"} && |AvailableRecognizers| == 1
    ensures AvailableRecognizers["BlinkCardRecognizer"] == "createBlinkCardRecognizer"
  {
  }

  /** Status the scanning engine reports per frame or per image file. */
  datatype RecognitionStatus =
    | NoImageFileFound
    | Preparing
    | Processing
    | DetectionFailed
    | EmptyResultState
    | OnFirstSideResult
    | ScanSuccessful
    | DocumentClassified
    // camera states
    | DetectionStatusChange
    | NoSupportForMediaDevices
    | CameraNotFound
    | CameraNotAllowed
    | UnableToAccessCamera
    | CameraInUse
    | CameraGenericError
    // errors
    | UnknownError
    // the engine's detection statuses
    | DetectionStatusFail
    | DetectionStatusSuccess
    | DetectionStatusCameraTooHigh
    | DetectionStatusFallbackSuccess
    | DetectionStatusPartial
    | DetectionStatusCameraAtAngle
    | DetectionStatusCameraTooNear
    | DetectionStatusDocumentTooCloseToEdge
  {
    function Value(): string {
      match this
      case NoImageFileFound => "NoImageFileFound"
      case Preparing => "Preparing"
      case Processing => "Processing"
      case DetectionFailed => "DetectionFailed"
      case EmptyResultState => "EmptyResultState"
      case OnFirstSideResult => "OnFirstSideResult"
      case ScanSuccessful => "ScanSuccessful"
      case DocumentClassified => "DocumentClassified"
      case DetectionStatusChange => "DetectionStatusChange"
      case NoSupportForMediaDevices => "NoSupportForMediaDevices"
      case CameraNotFound => "CameraNotFound"
      case CameraNotAllowed => "CameraNotAllowed"
      case UnableToAccessCamera => "UnableToAccessCamera"
      case CameraInUse => "CameraInUse"
      case CameraGenericError => "CameraGenericError"
      case UnknownError => "UnknownError"
      case DetectionStatusFail => "Fail"
      case DetectionStatusSuccess => "Success"
      case DetectionStatusCameraTooHigh => "CameraTooHigh"
      case DetectionStatusFallbackSuccess => "FallbackSuccess"
      case DetectionStatusPartial => "Partial"
      case DetectionStatusCameraAtAngle => "CameraAtAngle"
      case DetectionStatusCameraTooNear => "CameraTooNear"
      case DetectionStatusDocumentTooCloseToEdge => "DocumentTooCloseToEdge"
    }
  }

  /** Distinct statuses have distinct strings, including the engine's detection statuses. */
  lemma RecognitionStatusValuesDistinct(a: RecognitionStatus, b: RecognitionStatus)
    ensures a.Value() == b.Value() <==> a == b
  {
  }

  /** One recognition callback: a status and an optional payload. */
  datatype RecognitionEvent<P> = RecognitionEvent(status: RecognitionStatus, data: Option<P>)

  // ---------------------------------------------------------------------------
  // Camera experience
  // ---------------------------------------------------------------------------

  datatype CameraExperience = Barcode | CardCombined | CardSingleSide | BlinkCard {
    function Value(): string {
      match this
      case Barcode => "BARCODE"
      case CardCombined => "CARD_COMBINED"
      case CardSingleSide => "CARD_SINGLE_SIDE"
      case BlinkCard => "BLINKCARD"
    }
  }

  datatype CameraExperienceState =
    | AdjustAngle
    | Classification
    | Default
    | Detection
    | Done
    | DoneAll
    | Flip
    | MoveCloser
    | MoveFarther
  {
    function Value(): string {
      match this
      case AdjustAngle => "AdjustAngle"
      case Classification => "Classification"
      case Default => "Default"
      case Detection => "Detection"
      case Done => "Done"
      case DoneAll => "DoneAll"
      case Flip => "Flip"
      case MoveCloser => "MoveCloser"
      case MoveFarther => "MoveFarther"
    }
  }

  /** The camera experiences have pairwise distinct strings. */
  lemma CameraExperienceValuesDistinct(a: CameraExperience, b: CameraExperience)
    ensures a.Value() == b.Value() <==> a == b
  {
  }

  /** The camera experience states have pairwise distinct strings. */
  lemma CameraExperienceStateValuesDistinct(a: CameraExperienceState, b: CameraExperienceState)
    ensures a.Value() == b.Value() <==> a == b
  {
  }

  /** Minimum time, in milliseconds, a camera experience state stays on screen. */
  const CameraExperienceStateDuration: map<CameraExperienceState, nat> := map[
    AdjustAngle := 2500,
    Default := 500,
    Done := 300,
    DoneAll := 400,
    Flip := 4000,
    MoveCloser := 2500,
    MoveFarther := 2500
  ]

  /** The table's domain is every state except Detection and Classification. */
  lemma DurationDomain(state: CameraExperienceState)
    ensures state in CameraExperienceStateDuration <==> state != Detection && state != Classification
  {
  }

  /** `CameraExperienceStateDuration.get(state)`: undefined for the states without an entry. */
  function MinimumDuration(state: CameraExperienceState): (r: Option<nat>)
    ensures r.None? <==> state == Detection || state == Classification
    ensures r.Some? ==> 300 <= r.value <= 4000
  {
    DurationDomain(state);
    if state in CameraExperienceStateDuration then Some(CameraExperienceStateDuration[state]) else None
  }

  /** The table holds seven entries with the listed minimum durations. */
  lemma DurationTable()
    ensures |CameraExperienceStateDuration| == 7
    ensures MinimumDuration(AdjustAngle) == Some(2500) && MinimumDuration(Default) == Some(500)
    ensures MinimumDuration(Done) == Some(300) && MinimumDuration(DoneAll) == Some(400)
    ensures MinimumDuration(Flip) == Some(4000)
    ensures MinimumDuration(MoveCloser) == Some(2500) && MinimumDuration(MoveFarther) == Some(2500)
  {
  }

  /** Reticle animations, a numeric enumeration. */
  datatype CameraExperienceReticleAnimation = ReticleDefault | ReticleDetection | ReticleClassification {
    function Value(): nat {
      match this
      case ReticleDefault => 0
      case ReticleDetection => 1
      case ReticleClassification => 2
    }
  }

  /** The reticle animations are numbered 0, 1, 2 in declaration order, each number used once. */
  lemma ReticleAnimationValues(a: CameraExperienceReticleAnimation, b: CameraExperienceReticleAnimation)
    ensures a.Value() == b.Value() <==> a == b
    ensures a.Value() < 3
    ensures ReticleDefault.Value() == 0 && ReticleDetection.Value() == 1 && ReticleClassification.Value() == 2
  {
  }

  // ---------------------------------------------------------------------------
  // User feedback
  // ---------------------------------------------------------------------------

  datatype FeedbackCode =
    | FeedbackCameraDisabled
    | FeedbackCameraGenericError
    | FeedbackCameraInUse
    | FeedbackCameraNotAllowed
    | FeedbackGenericScanError
    | FeedbackScanUnsuccessful
    | FeedbackScanSuccessful
  {
    function Value(): string {
      match this
      case FeedbackCameraDisabled => "CAMERA_DISABLED"
      case FeedbackCameraGenericError => "CAMERA_GENERIC_ERROR"
      case FeedbackCameraInUse => "CAMERA_IN_USE"
      case FeedbackCameraNotAllowed => "CAMERA_NOT_ALLOWED"
      case FeedbackGenericScanError => "GENERIC_SCAN_ERROR"
      case FeedbackScanUnsuccessful => "SCAN_UNSUCCESSFUL"
      case FeedbackScanSuccessful => "SCAN_SUCCESSFUL"
    }
  }

  const AllFeedbackCodes: seq<FeedbackCode> := [
    FeedbackCameraDisabled, FeedbackCameraGenericError, FeedbackCameraInUse, FeedbackCameraNotAllowed,
    FeedbackGenericScanError, FeedbackScanUnsuccessful, FeedbackScanSuccessful
  ]

  /** FeedbackCode has exactly 7 members, and their strings are pairwise distinct. */
  lemma FeedbackCodeMembers(a: FeedbackCode, b: FeedbackCode)
    ensures |AllFeedbackCodes| == 7 && a in AllFeedbackCodes
    ensures forall i, j | 0 <= i < j < |AllFeedbackCodes| :: AllFeedbackCodes[i] != AllFeedbackCodes[j]
    ensures a.Value() == b.Value() <==> a == b
  {
  }

  /** The `state` of a feedback message. */
  datatype FeedbackState = FeedbackError | FeedbackInfo | FeedbackOk {
    function Value(): string {
      match this
      case FeedbackError => "FEEDBACK_ERROR"
      case FeedbackInfo => "FEEDBACK_INFO"
      case FeedbackOk => "FEEDBACK_OK"
    }
  }

  /** The three feedback states have pairwise distinct strings. */
  lemma FeedbackStateValuesDistinct(a: FeedbackState, b: FeedbackState)
    ensures a.Value() == b.Value() <==> a == b
  {
  }

  /** A user-facing message; `code` is optional. */
  datatype FeedbackMessage = FeedbackMessage(code: Option<FeedbackCode>, state: FeedbackState, message: string)

  /** The UI states the host may force on the camera overlay. */
  datatype UiState = Error | Loading | NoneState | Success {
    function Value(): string {
      match this
      case Error => "ERROR"
      case Loading => "LOADING"
      case NoneState => "NONE"
      case Success => "SUCCESS"
    }
  }

  /** The four UI states have pairwise distinct strings. */
  lemma UiStateValuesDistinct(a: UiState, b: UiState)
    ensures a.Value() == b.Value() <==> a == b
  {
  }
}
