# BlinkCard In-Browser UI: host component and event vocabulary

This project models two pieces of the BlinkCard In-Browser UI component.

- The `<blinkcard-in-browser>` host element (`component.dfy`, module `Component`).
  - It holds its configuration as properties.
  - On every render cycle, `componentWillRender` resolves the recognizer list and the translations. A typed JS property wins whenever it is set. Otherwise the raw attribute string is parsed.
  - It then builds a new translation service and a new SDK service.
  - It forwards `setUiState` to the inner `<mb-component>` and `setUiMessage` to `<mb-feedback>`.
  - Its render binds the resolved values on the inner component and makes the feedback element visible exactly when `hideFeedback` is false.
- The vocabulary the component shares with its listeners (`data_structures.dfy`, module `DataStructures`).
  - The `fatalError`, `ready`, `scanError` and `scanSuccess` payloads. A constructor stores an optional field only when the value given for it is truthy.
  - The closed enumerations `Code`, `RecognitionStatus`, `CameraExperience`, `CameraExperienceState`, `FeedbackCode`, the feedback states and the UI states, each with its run-time string. The reticle animations are a numeric enumeration, each with its number.
  - The one-entry recognizer registry.
  - The partial table of minimum display durations per camera experience state.

Supporting modules:

- `Wrappers` (`wrappers.dfy`): `Option`. `None` stands for `undefined` or `null`.
- `Js` (`js.dfy`): JavaScript values and their truthiness (ToBoolean). Truthiness decides whether an optional event field is stored.

Object-typed properties (`recognizers`, `translations`, `recognizerOptions`) are `Option` values. Every array or object, even `[]` or `{}`, is truthy, so `Some` is exactly "set". The generic helpers `stringToArray` and `stringToObject` are uninterpreted: they are function values handed to the component's constructor (`Component.Parsers`). Their result may be falsy (`None`), which is why the translation service falls back to `{}`.

`Component.HostStep` and `Component.Run` describe a history of host actions as a value: property assignments interleaved with render cycles. The lemmas about `Run` state that precedence is re-applied on every render, and that an earlier resolution is never reused.

The host component adds no checks of its own on its configuration: it has no license-key check and no recognizer validation. Any such checks, and any failure while parsing an attribute, belong to collaborators that are not part of this model. The model follows the code. Likewise, the code has only two raw/typed pairs: `recognizers` and `translations`. `recognizerOptions` has no attribute form.

## Model

| member | source | states |
|---|---|---|
| `Js.TruthyIffNotFalsy` | ui/src/utils/data-structures.ts:71-73 | the truthiness test behind `if (details)` fails exactly for undefined, null, false, 0, NaN and "" |
| `DataStructures.NewEventFatalError` | ui/src/utils/data-structures.ts:67-74 | code and message are stored as given; `details` is present exactly when the supplied value is truthy, and then equals it |
| `DataStructures.FatalErrorRoundTrip` | ui/src/utils/data-structures.ts:62-74 | every constructed payload stores only truthy details; every such payload is rebuilt from its own fields |
| `DataStructures.FalsyDetailsAreDropped` | ui/src/utils/data-structures.ts:71-73 | any two falsy `details` arguments give the same payload, which has no `details` |
| `DataStructures.NewEventScanError` | ui/src/utils/data-structures.ts:91-96 | code, fatal, message and recognizerName are stored unchanged |
| `DataStructures.NewEventScanSuccess` | ui/src/utils/data-structures.ts:104-115 | recognizer and recognizerName are stored; `successFrame` is present exactly when the frame supplied is truthy, and then is that frame |
| `DataStructures.CodeMembers` | ui/src/utils/data-structures.ts:126-140 | `Code` has 13 members, all listed once, and two codes have the same string exactly when they are the same code |
| `DataStructures.AvailableRecognizersSingleEntry` | ui/src/utils/data-structures.ts:145-147 | the registry has exactly one key, BlinkCardRecognizer, mapped to createBlinkCardRecognizer |
| `DataStructures.RecognitionStatusValuesDistinct` | ui/src/utils/data-structures.ts:170-201 | the 24 recognition statuses, including the engine's detection statuses, have pairwise distinct strings |
| `DataStructures.DurationDomain` | ui/src/utils/data-structures.ts:222-242 | a state has a minimum duration exactly when it is neither Detection nor Classification |
| `DataStructures.MinimumDuration` | ui/src/utils/data-structures.ts:234-242 | lookup gives undefined exactly for Detection and Classification; every duration lies between 300 and 4000 ms |
| `DataStructures.DurationTable` | ui/src/utils/data-structures.ts:234-242 | seven entries: AdjustAngle 2500, Default 500, Done 300, DoneAll 400, Flip 4000, MoveCloser 2500, MoveFarther 2500 |
| `DataStructures.CameraExperienceValuesDistinct` | ui/src/utils/data-structures.ts:215-220 | `CameraExperience.Value` gives BARCODE, CARD_COMBINED, CARD_SINGLE_SIDE and BLINKCARD, pairwise distinct |
| `DataStructures.CameraExperienceStateValuesDistinct` | ui/src/utils/data-structures.ts:222-232 | `CameraExperienceState.Value` gives each state's own name as its string, and the nine strings are pairwise distinct |
| `DataStructures.ReticleAnimationValues` | ui/src/utils/data-structures.ts:244-248 | `CameraExperienceReticleAnimation.Value` numbers Default, Detection and Classification 0, 1 and 2, each number used once |
| `DataStructures.FeedbackCodeMembers` | ui/src/utils/data-structures.ts:253-261 | `FeedbackCode` has 7 members, all listed once, with pairwise distinct strings |
| `DataStructures.FeedbackStateValuesDistinct` | ui/src/utils/data-structures.ts:263-267 | `FeedbackState.Value` gives FEEDBACK_ERROR, FEEDBACK_INFO and FEEDBACK_OK, pairwise distinct; a message's `code` is optional |
| `DataStructures.UiStateValuesDistinct` | ui/src/components/blinkcard-in-browser/blinkcard-in-browser.tsx:355 | `UiState.Value` gives ERROR, LOADING, NONE and SUCCESS, pairwise distinct |
| `Component.Rendered` | ui/src/components/blinkcard-in-browser/blinkcard-in-browser.tsx:371-376 | a render leaves every input (typed and raw recognizers and translations) as it was; the final values it computes are stated by `RecognizersPrecedence` and `TranslationsPrecedence` |
| `Component.TranslationSource` | ui/src/components/blinkcard-in-browser/blinkcard-in-browser.tsx:377 | the translation service's input is `finalTranslations` when set, otherwise the empty map |
| `Component.RecognizersPrecedence` | ui/src/components/blinkcard-in-browser/blinkcard-in-browser.tsx:372-373 | a set `recognizers` (even empty) becomes the final list whatever `rawRecognizers` holds; an unset one gives `stringToArray(rawRecognizers)` |
| `Component.TranslationsPrecedence` | ui/src/components/blinkcard-in-browser/blinkcard-in-browser.tsx:375-376 | a set `translations` (even `{}`) becomes the final translations whatever `rawTranslations` holds; an unset one gives `stringToObject(rawTranslations)` |
| `Component.TranslationServiceSource` | ui/src/components/blinkcard-in-browser/blinkcard-in-browser.tsx:375-377 | the service is built from the typed translations when set, else from the parsed ones, else from `{}` |
| `Component.RenderResolvesCurrentInputs` | ui/src/components/blinkcard-in-browser/blinkcard-in-browser.tsx:371-376 | after any history of assignments, a render leaves the inputs alone and resolves both final values from the inputs as they are now |
| `Component.EarlierResultsForgotten` | ui/src/components/blinkcard-in-browser/blinkcard-in-browser.tsx:371-376 | once a history contains a render, its outcome does not depend on the final values held before it |
| `Component.BlinkcardInBrowser.constructor` | ui/src/components/blinkcard-in-browser/blinkcard-in-browser.tsx:44-304 | every property starts at its declared default (hello message, drag, both scan sources on; feedback, UI hiding, success frame, labels, modals, scan line off; empty engine location and wasm type; camera id null) |
| `Component.BlinkcardInBrowser.ComponentWillRender` | ui/src/components/blinkcard-in-browser/blinkcard-in-browser.tsx:371-380 | the final values are recomputed from the current properties only; a new translation service is built from `finalTranslations` or `{}`, and a new SDK service is installed; no property changes |
| `Component.BlinkcardInBrowser.SetUiState` | ui/src/components/blinkcard-in-browser/blinkcard-in-browser.tsx:354-357 | the state reaches the inner component unchanged; no feedback is shown and the component's own state is untouched |
| `Component.BlinkcardInBrowser.SetUiMessage` | ui/src/components/blinkcard-in-browser/blinkcard-in-browser.tsx:364-367 | the feedback element receives exactly `{state, message}` with no code; the inner component's UI state is untouched |
| `Component.BlinkcardInBrowser.OnFeedback` | ui/src/components/blinkcard-in-browser/blinkcard-in-browser.tsx:412 | feedback raised by the inner component reaches the feedback element unchanged |
| `Component.BlinkcardInBrowser.Render` | ui/src/components/blinkcard-in-browser/blinkcard-in-browser.tsx:386-415 | the feedback element is visible exactly when `hideFeedback` is false; the inner component receives the resolved recognizers, and every other property (the eleven flags and strings, license key, camera id, option bag) and both services unchanged |

## Left out

- JSX layout, the `dir` attribute and the seven icon properties: they are presentation with no behaviour beyond the bindings above.
- `stringToArray` and `stringToObject`: the generic helpers are not part of this model, so they are uninterpreted parameters.
- `SdkService` and `TranslationService`: they are not part of this model. They are reduced to their identity and to the translations the service is built from.
- `<mb-component>` and `<mb-feedback>`: they are sinks that record what they receive. Their display policy is not modelled, and neither is the modal/inline error choice for `ERROR`.
- The element references are created with the component. In the source they are assigned during the first render, so calling `setUiState` or `setUiMessage` before then fails. The model does not capture that failure.
- The `async`/Promise form of `setUiState` and `setUiMessage`, and the event emitters: this is browser plumbing. The component declares the events (blinkcard-in-browser.tsx:311-344) but never emits them.
- Component.BlinkcardInBrowser.ComponentWillRender: the parsers are total, so the method is all-or-nothing. In the source, `stringToObject` is called unguarded at blinkcard-in-browser.tsx:375, after line 373 has already assigned `finalRecognizers`. If it throws, `componentWillRender` stops part-way: `finalRecognizers` is new, while `finalTranslations`, `translationService` and `sdkService` keep the previous render's values (undefined on the first render). The model does not capture this partial update. The same holds for a throw from `stringToArray` at line 372, which leaves every field as it was.
- JavaScript numbers are integers plus NaN. Fractions, `-0` and bigint are not modelled. None of them changes whether an object-typed field is stored.
- `MicroblinkUI`, `SdkSettings`, `VideoRecognitionConfiguration`, `ImageRecognitionConfiguration`, `RecognizerInstance` and `RecognitionResults`: these are type declarations without behaviour. `EventReady` and `RecognitionEvent` are plain datatypes.
- `wasmType` is a plain string, as in the component. The SDK's `WasmType` enumeration is not part of this model.
- The session state machine, recognizer validation, the license-key check, status deduplication and duration-based coalescing timers: none of them is implemented in the modelled files.
- `UiState.NoneState` stands for `'NONE'`. `None` is taken by `Option`.
