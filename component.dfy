/**
 * The <blinkcard-in-browser> host component: its configuration props, the
 * precedence of typed JS properties over raw attribute strings that
 * componentWillRender applies on every render, and what it passes through to the
 * inner <mb-component> and <mb-feedback> elements.
 */
module Component {
  import opened Wrappers
  import opened DataStructures

  // ---------------------------------------------------------------------------
  // Resolution of typed and raw configuration
  // ---------------------------------------------------------------------------

  /**
   * The generic helpers that parse the raw `recognizers` and `translations`
   * attribute strings. Their code is not part of this model, so they are
   * uninterpreted; None stands for a falsy result.
   */
  datatype Parsers = Parsers(
    stringToArray: Option<string> -> Option<seq<string>>,
    stringToObject: Option<string> -> Option<map<string, string>>)

  /** The configuration inputs componentWillRender reads and the values it resolves from them. */
  datatype Resolution = Resolution(
    rawRecognizers: Option<string>,
    recognizers: Option<seq<string>>,
    rawTranslations: Option<string>,
    translations: Option<map<string, string>>,
    finalRecognizers: Option<seq<string>>,
    finalTranslations: Option<map<string, string>>)

  /**
   * `typed ? typed : fallback` for an object-typed `typed`: None is undefined or
   * null, and every array or object, even `[]` or `{}`, is truthy.
   */
  function Prefer<T>(typed: Option<T>, fallback: Option<T>): Option<T> {
    if typed.Some? then typed else fallback
  }

  /**
   * The resolution after componentWillRender: both final values recomputed from
   * the current inputs, which a render never changes.
   */
  function Rendered(r: Resolution, p: Parsers): (r': Resolution)
    ensures SameInputs(r', r)
  {
    r.(finalRecognizers := Prefer(r.recognizers, p.stringToArray(r.rawRecognizers)),
       finalTranslations := Prefer(r.translations, p.stringToObject(r.rawTranslations)))
  }

  /** The translations the translation service is built from: `finalTranslations || {}`. */
  function TranslationSource(finalTranslations: Option<map<string, string>>): (t: map<string, string>)
    ensures finalTranslations.Some? ==> t == finalTranslations.value
    ensures finalTranslations.None? ==> t == map[]
  {
    finalTranslations.GetOr(map[])
  }

  /** A set `recognizers` property decides the list whatever the attribute holds; an unset one defers to the parsed attribute. */
  lemma RecognizersPrecedence(r: Resolution, p: Parsers, otherRaw: Option<string>)
    ensures r.recognizers.Some? ==> Rendered(r, p).finalRecognizers == r.recognizers
    ensures r.recognizers.Some? ==>
      Rendered(r.(rawRecognizers := otherRaw), p).finalRecognizers == Rendered(r, p).finalRecognizers
    ensures r.recognizers.None? ==> Rendered(r, p).finalRecognizers == p.stringToArray(r.rawRecognizers)
  {
  }

  /** A set `translations` property decides the translations whatever the attribute holds; an unset one defers to the parsed attribute. */
  lemma TranslationsPrecedence(r: Resolution, p: Parsers, otherRaw: Option<string>)
    ensures r.translations.Some? ==> Rendered(r, p).finalTranslations == r.translations
    ensures r.translations.Some? ==>
      Rendered(r.(rawTranslations := otherRaw), p).finalTranslations == Rendered(r, p).finalTranslations
    ensures r.translations.None? ==> Rendered(r, p).finalTranslations == p.stringToObject(r.rawTranslations)
  {
  }

  /** The translation service gets the typed translations when set, otherwise the parsed ones, or `{}` when parsing gives nothing. */
  lemma TranslationServiceSource(r: Resolution, p: Parsers)
    ensures r.translations.Some? ==> TranslationSource(Rendered(r, p).finalTranslations) == r.translations.value
    ensures r.translations.None? && p.stringToObject(r.rawTranslations).None? ==>
      TranslationSource(Rendered(r, p).finalTranslations) == map[]
    ensures r.translations.None? && p.stringToObject(r.rawTranslations).Some? ==>
      TranslationSource(Rendered(r, p).finalTranslations) == p.stringToObject(r.rawTranslations).value
  {
  }

  // ---------------------------------------------------------------------------
  // Host steps: the host assigns inputs, Stencil renders
  // ---------------------------------------------------------------------------

  /** What can happen to the component's configuration: the host assigns one input, or a render cycle runs componentWillRender. */
  datatype HostStep =
    | AssignRecognizers(recognizers: Option<seq<string>>)
    | AssignRawRecognizers(rawRecognizers: Option<string>)
    | AssignTranslations(translations: Option<map<string, string>>)
    | AssignRawTranslations(rawTranslations: Option<string>)
    | WillRender

  function Apply(r: Resolution, step: HostStep, p: Parsers): Resolution {
    match step
    case AssignRecognizers(v) => r.(recognizers := v)
    case AssignRawRecognizers(v) => r.(rawRecognizers := v)
    case AssignTranslations(v) => r.(translations := v)
    case AssignRawTranslations(v) => r.(rawTranslations := v)
    case WillRender => Rendered(r, p)
  }

  function Run(r: Resolution, steps: seq<HostStep>, p: Parsers): Resolution
    decreases |steps|
  {
    if steps == [] then r else Run(Apply(r, steps[0], p), steps[1..], p)
  }

  /** Two resolutions that agree on every input, whatever they hold as final values. */
  predicate SameInputs(a: Resolution, b: Resolution) {
    a.rawRecognizers == b.rawRecognizers && a.recognizers == b.recognizers &&
    a.rawTranslations == b.rawTranslations && a.translations == b.translations
  }

  /** Running one more step after a history is applying it to the history's result. */
  lemma {:induction false} RunAppend(r: Resolution, steps: seq<HostStep>, step: HostStep, p: Parsers)
    ensures Run(r, steps + [step], p) == Apply(Run(r, steps, p), step, p)
    decreases |steps|
  {
    if steps != [] {
      assert (steps + [step])[1..] == steps[1..] + [step];
      RunAppend(Apply(r, steps[0], p), steps[1..], step, p);
    }
  }

  /**
   * Whatever the host assigned before, a render resolves from the inputs as they
   * are now: precedence is re-applied on every render, not only the first.
   */
  lemma RenderResolvesCurrentInputs(r: Resolution, steps: seq<HostStep>, p: Parsers)
    ensures var now := Run(r, steps + [WillRender], p);
      && SameInputs(now, Run(r, steps, p))
      && now.finalRecognizers == Prefer(now.recognizers, p.stringToArray(now.rawRecognizers))
      && now.finalTranslations == Prefer(now.translations, p.stringToObject(now.rawTranslations))
  {
    RunAppend(r, steps, WillRender, p);
  }

  /**
   * Once a render has happened, the final values no longer depend on those the
   * component held before: an earlier result is never reused.
   */
  lemma {:induction false} EarlierResultsForgotten(a: Resolution, b: Resolution, steps: seq<HostStep>, p: Parsers)
    requires SameInputs(a, b)
    requires WillRender in steps
    ensures Run(a, steps, p) == Run(b, steps, p)
    decreases |steps|
  {
    if steps[0] == WillRender {
      assert Apply(a, steps[0], p) == Apply(b, steps[0], p);
    } else {
      assert WillRender in steps[1..];
      EarlierResultsForgotten(Apply(a, steps[0], p), Apply(b, steps[0], p), steps[1..], p);
    }
  }

  // ---------------------------------------------------------------------------
  // Collaborators, reduced to what they receive
  // ---------------------------------------------------------------------------

  /** The translation service, reduced to the translations it was built from. */
  class TranslationService {
    const translations: map<string, string>

    constructor (translations: map<string, string>)
      ensures this.translations == translations
    {
      this.translations := translations;
    }
  }

  /** The SDK service; only its identity matters to the host component. */
  class SdkService {
    constructor ()
    {
    }
  }

  /** The inner <mb-component>, recording the UI states it is asked to show. */
  class MbComponent {
    var uiStates: seq<UiState>

    constructor ()
      ensures uiStates == []
    {
      uiStates := [];
    }

    method SetUiState(state: UiState)
      modifies this
      ensures uiStates == old(uiStates) + [state]
    {
      uiStates := uiStates + [state];
    }
  }

  /** The <mb-feedback> element, recording the messages it is asked to show. */
  class MbFeedback {
    var shown: seq<FeedbackMessage>

    constructor ()
      ensures shown == []
    {
      shown := [];
    }

    method Show(message: FeedbackMessage)
      modifies this
      ensures shown == old(shown) + [message]
    {
      shown := shown + [message];
    }
  }

  // ---------------------------------------------------------------------------
  // The host component
  // ---------------------------------------------------------------------------

  /** The properties render binds on <mb-component>; icons and `dir` are not modelled. */
  datatype MbComponentBindings<O> = MbComponentBindings(
    allowHelloMessage: bool,
    engineLocation: string,
    licenseKey: Option<string>,
    wasmType: string,
    recognizers: Option<seq<string>>,
    recognizerOptions: Option<map<string, O>>,
    includeSuccessFrame: bool,
    enableDrag: bool,
    hideLoadingAndErrorUi: bool,
    scanFromCamera: bool,
    scanFromImage: bool,
    showActionLabels: bool,
    showScanningLine: bool,
    showModalWindows: bool,
    sdkService: SdkService?,
    translationService: TranslationService?,
    cameraId: Option<string>)

  /** What render produces: bindings of the inner component and the feedback element's visibility. */
  datatype View<O> = View(component: MbComponentBindings<O>, feedbackVisible: bool)

  /** The component; O is the opaque type of one recognizer's option bag. */
  class BlinkcardInBrowser<O> {
    // Properties, settable by the host as attributes or JS properties.
    var allowHelloMessage: bool
    var engineLocation: string
    var licenseKey: Option<string>
    var wasmType: string
    var rawRecognizers: Option<string>
    var recognizers: Option<seq<string>>
    var recognizerOptions: Option<map<string, O>>
    var includeSuccessFrame: bool
    var enableDrag: bool
    var hideFeedback: bool
    var hideLoadingAndErrorUi: bool
    var scanFromCamera: bool
    var scanFromImage: bool
    var showActionLabels: bool
    var showModalWindows: bool
    var rawTranslations: Option<string>
    var translations: Option<map<string, string>>
    var cameraId: Option<string>
    var showScanningLine: bool

    // Private state set up by componentWillRender.
    var sdkService: SdkService?
    var translationService: TranslationService?
    var finalRecognizers: Option<seq<string>>
    var finalTranslations: Option<map<string, string>>

    // The child elements and the attribute parsers.
    const mbComponentEl: MbComponent
    const feedbackEl: MbFeedback
    const parsers: Parsers

    /** The configuration inputs and resolved values, as a value. */
    ghost function Config(): Resolution
      reads this
    {
      Resolution(rawRecognizers, recognizers, rawTranslations, translations, finalRecognizers, finalTranslations)
    }

    /** A fresh component with every property at its declared default. */
    constructor (parsers: Parsers)
      ensures allowHelloMessage && engineLocation == "" && wasmType == ""
      ensures licenseKey == None && rawRecognizers == None && recognizers == None && recognizerOptions == None
      ensures !includeSuccessFrame && enableDrag && !hideFeedback && !hideLoadingAndErrorUi
      ensures scanFromCamera && scanFromImage
      ensures !showActionLabels && !showModalWindows && !showScanningLine
      ensures rawTranslations == None && translations == None && cameraId == None
      ensures sdkService == null && translationService == null
      ensures finalRecognizers == None && finalTranslations == None
      ensures fresh(mbComponentEl) && fresh(feedbackEl)
      ensures mbComponentEl.uiStates == [] && feedbackEl.shown == []
      ensures this.parsers == parsers
    {
      allowHelloMessage := true;
      engineLocation := "";
      licenseKey := None;
      wasmType := "";
      rawRecognizers := None;
      recognizers := None;
      recognizerOptions := None;
      includeSuccessFrame := false;
      enableDrag := true;
      hideFeedback := false;
      hideLoadingAndErrorUi := false;
      scanFromCamera := true;
      scanFromImage := true;
      showActionLabels := false;
      showModalWindows := false;
      rawTranslations := None;
      translations := None;
      cameraId := None;
      showScanningLine := false;
      sdkService := null;
      translationService := null;
      finalRecognizers := None;
      finalTranslations := None;
      mbComponentEl := new MbComponent();
      feedbackEl := new MbFeedback();
      this.parsers := parsers;
    }

    /**
     * componentWillRender: resolve recognizers and translations from the current
     * properties, then build a new translation service and a new SDK service.
     * Every property is left as it was.
     */
    method ComponentWillRender()
      modifies this`finalRecognizers, this`finalTranslations, this`translationService, this`sdkService
      ensures Config() == Apply(old(Config()), WillRender, parsers)
      ensures finalRecognizers == Prefer(recognizers, parsers.stringToArray(rawRecognizers))
      ensures finalTranslations == Prefer(translations, parsers.stringToObject(rawTranslations))
      ensures translationService != null && fresh(translationService)
      ensures translationService.translations == TranslationSource(finalTranslations)
      ensures sdkService != null && fresh(sdkService)
    {
      var parsedRecognizers := parsers.stringToArray(rawRecognizers);
      finalRecognizers := if recognizers.Some? then recognizers else parsedRecognizers;

      var parsedTranslations := parsers.stringToObject(rawTranslations);
      finalTranslations := if translations.Some? then translations else parsedTranslations;
      translationService := new TranslationService(finalTranslations.GetOr(map[]));

      sdkService := new SdkService();
    }

    /** setUiState: hand the state to the inner component; no feedback is published. */
    method SetUiState(state: UiState)
      modifies mbComponentEl
      ensures mbComponentEl.uiStates == old(mbComponentEl.uiStates) + [state]
      ensures unchanged(feedbackEl) && unchanged(this)
    {
      mbComponentEl.SetUiState(state);
    }

    /** setUiMessage: show exactly `{state, message}`, without a code; the UI state is not touched. */
    method SetUiMessage(state: FeedbackState, message: string)
      modifies feedbackEl
      ensures feedbackEl.shown == old(feedbackEl.shown) + [FeedbackMessage(None, state, message)]
      ensures unchanged(mbComponentEl) && unchanged(this)
    {
      feedbackEl.Show(FeedbackMessage(None, state, message));
    }

    /** The `onFeedback` listener: a message from the inner component is shown unchanged. */
    method OnFeedback(message: FeedbackMessage)
      modifies feedbackEl
      ensures feedbackEl.shown == old(feedbackEl.shown) + [message]
      ensures unchanged(mbComponentEl) && unchanged(this)
    {
      feedbackEl.Show(message);
    }

    /**
     * render: the inner component receives the resolved recognizers (not the raw
     * attribute), and every other property, the option bag and the services
     * unchanged; feedback is visible exactly when it is not hidden.
     */
    function Render(): (v: View<O>)
      reads this
      ensures v.feedbackVisible <==> !hideFeedback
      ensures v.component.recognizers == finalRecognizers
      ensures v.component.recognizerOptions == recognizerOptions
      ensures v.component.sdkService == sdkService && v.component.translationService == translationService
      ensures v.component.licenseKey == licenseKey && v.component.cameraId == cameraId
      ensures v.component.allowHelloMessage == allowHelloMessage
      ensures v.component.engineLocation == engineLocation && v.component.wasmType == wasmType
      ensures v.component.includeSuccessFrame == includeSuccessFrame && v.component.enableDrag == enableDrag
      ensures v.component.hideLoadingAndErrorUi == hideLoadingAndErrorUi
      ensures v.component.scanFromCamera == scanFromCamera && v.component.scanFromImage == scanFromImage
      ensures v.component.showActionLabels == showActionLabels && v.component.showScanningLine == showScanningLine
      ensures v.component.showModalWindows == showModalWindows
    {
      View(
        MbComponentBindings(
          allowHelloMessage, engineLocation, licenseKey, wasmType,
          finalRecognizers, recognizerOptions,
          includeSuccessFrame, enableDrag, hideLoadingAndErrorUi,
          scanFromCamera, scanFromImage, showActionLabels, showScanningLine, showModalWindows,
          sdkService, translationService, cameraId),
        !hideFeedback)
    }
  }
}
