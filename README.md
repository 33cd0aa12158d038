# QuikCalc AI calculator: input and routing model

This project models the core of a small calculator web widget:

- **Component state.** The `Calculator` component keeps four state fields: `input`, `result`, `loading` and `isAiMode`.
- **Handlers.** These edit the input, answer the keyboard and the on-screen keypad, and decide where a calculation goes.
- **Routing.** An input of simple arithmetic is evaluated locally. An input that is complex, fails locally or is sent with "Ask AI" goes to a remote language model.
- **History.** Each completed calculation is recorded in a list that the `App` component holds newest first.
- **Keypad.** The keypad is the constant table `CALCULATOR_BUTTONS`.

Modules, in dependency order:

| module | file | what it holds |
|---|---|---|
| `JsText` | `jstext.dfy` | The whitespace set of JavaScript's `\s` and `String.prototype.trim`, with `trimStart`, `trimEnd` and `trim`. |
| `Types` | `types.dfy` | The records of `types.ts`: `HistoryItem` (`CalculatorHistoryItem`), `ButtonType` and `ButtonConfig`. |
| `Expression` | `expression.dfy` | The character classifier, the glyph sanitiser and `safeEvaluate`. The arithmetic itself is a parameter. |
| `Keypad` | `keypad.dfy` | The 20-entry keypad table and what it guarantees. |
| `Gemini` | `gemini.dfy` | The decisions `solveMathWithGemini` makes around the remote call: a missing key, an empty reply, a caught failure, the trim. |
| `CalculatorComponent` | `calculator.dfy` | See below. |
| `Session` | `session.dfy` | Whole runs: user events interleaved with AI calls settling in any order. |
| `App` | `app.dfy` | The class `AppState` holding the history and the drawer flag, plus lemmas about any sequence of history changes. |

`CalculatorComponent` holds:

- each handler as a step function on a value snapshot `CalcState`;
- the class `Calculator`, whose methods are proved to perform exactly those steps;
- the lemmas about routing, editing, the keyboard and the keypad.

Each history item the component passes to `onCalculationComplete` is kept, oldest first, in a field `emitted`.

The awaited service call in `performAiCalculation` is split in two:

- a begin step, `PerformAiCalculation`, which sets the busy and AI-mode flags and returns the input the call is made with;
- a completion step, `FinishAiCalculation`, which takes that input back together with the call's outcome.

The request is passed back explicitly because the on-screen buttons are not gated on `loading`. Several calls can therefore be in flight at once.

Four behaviours of the source shape the model:

- Only the window keyboard listener checks `loading` (components/Calculator.tsx:30). The keypad, the "Ask AI" bar button and the backspace bar button do not, so a second AI call can start while one is in flight (`KeypadNotGatedWhileLoading`, `OverlappingCallsClearBusyEarly`).
- `handleCalculate` classifies the raw input (components/Calculator.tsx:103), so a typed `×` or `÷` goes to the AI path. The sanitiser only acts inside `safeEvaluate`, and on input that reaches it from `handleCalculate` it changes nothing (`SanitizeSimpleIsIdentity`, `SafeEvaluateOnSimple`).
- A missing API key makes the service throw (services/geminiService.ts:13-15). `performAiCalculation` then shows `Error` and records nothing (`ApiKeyDecidesRecording`).
- The keyboard listener is memoised on `input` and `loading` only (components/Calculator.tsx:27-37), so it can act on an older `result` than the one shown. `KeyStepSeeing` takes the `result` the listener saw, `ListenerResult` says when it is renewed, and `Session` carries it through every run.

## Model

| member | source | states |
|---|---|---|
| JsText.TrimStart | services/geminiService.ts:38 | The result is a suffix of the input. Every dropped character is whitespace. The result does not start with whitespace. |
| JsText.TrimEnd | services/geminiService.ts:38 | The result is a prefix of the input. Every dropped character is whitespace. The result does not end with whitespace. |
| JsText.Trim | services/geminiService.ts:38 | The trimmed reply is no longer than the reply and neither starts nor ends with whitespace. |
| JsText.TrimKeepsMiddle | services/geminiService.ts:38 | The trimmed reply is the slice of the reply that starts after its leading whitespace, with only whitespace before and after it. |
| JsText.TrimIdempotent | services/geminiService.ts:38 | Trimming a trimmed string changes nothing. |
| Expression.IsSimpleChar | components/Calculator.tsx:83 | The characters the negated class `[^0-9+\-*/().\s]` lets through: digits, `+ - * / ( ) .` and JavaScript whitespace. |
| Expression.IsComplex | components/Calculator.tsx:103 | The regular expression test: some character is outside the simple set. The same predicate guards routing (:103) and local evaluation (:83). |
| Expression.ComplexConcat | components/Calculator.tsx:103 | A concatenation is complex if and only if one of its parts is. |
| Expression.ReplaceAll | components/Calculator.tsx:78-80 | A global one-character replace keeps the length. It changes exactly the characters equal to the pattern, into the replacement. |
| Expression.Sanitize | components/Calculator.tsx:78-80 | `×` becomes `*` and `÷` becomes `/`. Every other character and the length are kept. |
| Expression.SanitizeSimpleIsIdentity | components/Calculator.tsx:78-85 | Sanitising input that passed the classifier returns it unchanged. |
| Expression.SanitizeAddsNoDisallowed | components/Calculator.tsx:78-85 | If the sanitised text is complex, the raw text already was. |
| Expression.SafeEvaluate | components/Calculator.tsx:70-98 | A disallowed character after sanitising gives `Error`. A non-finite value or a thrown evaluation gives `Error`. A finite value gives its rendering. Any result other than `Error` is the finite rendering of the sanitised text. |
| Expression.SafeEvaluateOnSimple | components/Calculator.tsx:103-109 | On input that passed the :103 check, `safeEvaluate` is the arithmetic on the raw input, with every failure collapsed to `Error`. |
| Gemini.SolveMath | services/geminiService.ts:12-42 | The call rejects if and only if no API key is configured. With a key, non-empty reply text gives that text trimmed. A missing or empty text, or a caught failure, gives `Error`. |
| Keypad.CalculatorButtons | constants.ts:5-30 | The 20 keypad entries, with the same labels, values, types, spans and colours, in the same order. |
| Keypad.KeypadFillsGrid | constants.ts:5-30 | The table has 20 entries, five full rows of the four-column grid. |
| Keypad.ValuesDistinct | constants.ts:6-29 | The button values are pairwise distinct. |
| Keypad.ValuesAreControlsOrSimpleChars | constants.ts:6-29 | Exactly the entries at positions 0, 16 and 19 carry `clear`, `ai` or `=`. Every other value is one character of the simple set. |
| Keypad.NoGlyphValues | constants.ts:9-14 | The `÷` and `×` labels carry `/` and `*`. No value contains either glyph. |
| Keypad.ButtonTypes | constants.ts:6-29 | An entry has type AI if and only if its value is `ai`. It has type Number if and only if its value is a digit or `.`. |
| CalculatorComponent.RouteOf | components/Calculator.tsx:100-113 | Empty input does nothing, and only empty input does. The AI path is taken if and only if the input is non-empty and AI is forced, the input is complex, or local evaluation fails. A local value is the finite rendering of the input and never `Error`. |
| CalculatorComponent.CalculateOnEmptyInput | components/Calculator.tsx:101 | On empty input `handleCalculate` changes no field, records nothing and starts no call. |
| CalculatorComponent.CalculateOutcome | components/Calculator.tsx:100-124 | On non-empty input there are two cases. Either the busy and AI-mode flags are set and a call with the input is started, with nothing else changed. Or exactly one local item is recorded, with that input and a non-`Error` result, and it is shown. |
| CalculatorComponent.AiRoundTrip | components/Calculator.tsx:126-144 | After the begin and completion steps, `loading` is false and `isAiMode` is true. A returned text is shown, and one AI item is recorded. A throw shows `Error` and records nothing. |
| CalculatorComponent.ApiKeyDecidesRecording | components/Calculator.tsx:129-143 | Without an API key every AI calculation shows `Error` and records nothing. With one, it records exactly one AI item for the request. |
| CalculatorComponent.AppendSeeing | components/Calculator.tsx:44-57 | `appendToInput` run with the `result` its closure saw: a seen result is replaced, or continued by `+ - * / %`, and cleared; with none seen, the value is appended to the live input and the shown result is left alone. |
| CalculatorComponent.AppendClearsResult | components/Calculator.tsx:44-57 | An append clears the result if and only if its handler saw a non-empty `result`; one that saw an empty `result` leaves the shown result in place (line 55). An append that sees the current `result`, as every keypad click does, always leaves it empty. |
| CalculatorComponent.KeypadPressKeepsSimple | components/Calculator.tsx:199-206 | A non-control keypad click keeps the input and the display free of disallowed characters. |
| CalculatorComponent.KeypadAppendsKeepSimple | components/Calculator.tsx:199-206 | Any run of non-control keypad clicks keeps the input and the display simple. |
| CalculatorComponent.ContinuedResultCanBeComplex | components/Calculator.tsx:50-53 | Continuing an AI result with a unit (`42 km`) with `+` makes the input complex through the keypad alone. |
| CalculatorComponent.KeyboardIgnoredWhileLoading | components/Calculator.tsx:30 | While `loading`, every key leaves the state unchanged and starts no call, whatever `result` the listener saw. |
| CalculatorComponent.KeypadNotGatedWhileLoading | components/Calculator.tsx:202-206 | While `loading`, the `ai` key still starts another call with the current input. |
| CalculatorComponent.KeyWithDigitAppendedWhole | components/Calculator.tsx:32 | The unanchored digit test appends the key name `F5` whole, which makes the input complex. |
| CalculatorComponent.KeyBranchesExclusive | components/Calculator.tsx:32-36 | The digit test, the operator list and Enter, Backspace and Escape never match the same key, so at most one handler runs. |
| CalculatorComponent.KeyboardMatchesKeypad | components/Calculator.tsx:32-33 | When not loading and the listener is in step with the shown `result`, typing any keypad value other than `clear`, `=` and `ai` has the same effect as clicking it. |
| CalculatorComponent.KeyboardIgnoresEquals | components/Calculator.tsx:32-36 | Typing `=`, a keypad value, matches no keyboard branch: the state is unchanged and no call starts, while clicking it runs `handleCalculate` (:204). |
| CalculatorComponent.EnterEvaluatesLocally | components/Calculator.tsx:34 | Whatever `result` the listener saw, Enter on simple input that evaluates shows and records the value, with `input` and `loading` unchanged. |
| CalculatorComponent.StaleListenerAsWritten | components/Calculator.tsx:27-37 | As written, after Enter shows a local value, a digit key is appended to the old expression and the value stays shown. |
| CalculatorComponent.FreshListenerStartsAfresh | components/Calculator.tsx:44-49 | With the listener seeing the current `result`, the same digit key replaces the input and clears the result. |
| CalculatorComponent.StaleListenerExample | components/Calculator.tsx:27-37 | `1+1`, Enter, `5` leaves `1+15` as written, and `5` as intended. |
| CalculatorComponent.KeyAfterResultStartsFresh | components/Calculator.tsx:44-49 | A digit key handled by a listener that saw a non-empty `result` starts a fresh input and clears the result. |
| CalculatorComponent.KeyStepSeeing | components/Calculator.tsx:27-37 | `handleKeyDown` run by a listener that saw a given `result`: ignored while loading, otherwise the matching handler. |
| CalculatorComponent.ListenerResult | components/Calculator.tsx:27-37 | The listener is re-created, and sees the new `result`, only when `input` or `loading` changed. |
| CalculatorComponent.KeysAsWritten | components/Calculator.tsx:27-42 | Keys pressed in order, each handled by the listener registered after the previous one. |
| CalculatorComponent.Calculator.constructor | components/Calculator.tsx:12-15 | The component starts with empty input and result, not loading, not in AI mode, and nothing emitted. |
| CalculatorComponent.Calculator.AppendToInput | components/Calculator.tsx:44-57 | The result is cleared. With no result the value is appended to the input. With a result, a continuation operator is appended to the result, and any other value replaces the input. Nothing else changes. |
| CalculatorComponent.Calculator.HandleBackspace | components/Calculator.tsx:59-62 | The last character of the input is dropped, or nothing if it is empty, and the result is cleared. |
| CalculatorComponent.Calculator.HandleClear | components/Calculator.tsx:64-68 | Input and result are emptied and AI mode is off. `loading` and the history are untouched. |
| CalculatorComponent.Calculator.SetInput | components/Calculator.tsx:161 | The free-text field sets the input to any text at all. |
| CalculatorComponent.Calculator.PerformAiCalculation | components/Calculator.tsx:126-128 | The begin step sets `loading` and `isAiMode` and returns the current input as the request. |
| CalculatorComponent.Calculator.FinishAiCalculation | components/Calculator.tsx:129-143 | The completion step clears `loading`. It shows the returned text and records one AI item, or on a throw shows `Error` and records nothing. |
| CalculatorComponent.Calculator.HandleCalculate | components/Calculator.tsx:100-124 | Performs the `handleCalculate` step and returns the call it starts, if any. |
| CalculatorComponent.Calculator.HandleKeyDown | components/Calculator.tsx:27-37 | Performs the keyboard step, with the listener seeing the current `result`, and returns the call it starts. |
| CalculatorComponent.Calculator.ClickButton | components/Calculator.tsx:199-206 | Performs the keypad step: `clear`, `=`, `ai`, or an append. Returns the call it starts. |
| Session.Step | components/Calculator.tsx:27-206 | One event and the re-render after it. Keys go to the listener as it stands, and the listener is renewed as `ListenerResult` says. |
| Session.CalculateKeepsValid | components/Calculator.tsx:100-124 | One `handleCalculate` either starts one call with the current input or records at most one item, never both. Earlier items are kept, and `Valid` is preserved. |
| Session.StepKeepsValid | components/Calculator.tsx:100-144 | Every user event and every settling call preserves the run invariant. |
| Session.ClickKeepsValid | components/Calculator.tsx:199-206 | A keypad click preserves the run invariant. |
| Session.KeyKeepsValid | components/Calculator.tsx:27-37 | A key press, handled by the possibly stale listener, preserves the run invariant. |
| Session.SettleKeepsValid | components/Calculator.tsx:129-143 | A settling call leaves the calls in flight (one fewer, as a multiset) and clears `loading`. It records its one item if it returned and nothing if it threw. A call not in flight changes nothing. `Valid` is preserved. |
| Session.ReplayKeepsValid | components/Calculator.tsx:100-144 | Any sequence of events preserves the run invariant. |
| Session.AtMostOneItemPerCalculation | components/Calculator.tsx:105-142 | Over any run of the program as written, stale keyboard listener included, items never outnumber calculations. No local item shows `Error` or comes from complex input. `loading` is never set with no call in flight. |
| Session.OverlappingCallsClearBusyEarly | components/Calculator.tsx:126-144 | Two "Ask AI" clicks start two calls. The first to settle clears `loading` while the second is still pending. |
| Session.StaleListenerInRun | components/Calculator.tsx:27-37 | In a run from the start, typing `1+1`, Enter, `5` leaves the input `1+15` with `2` still shown. |
| App.AppState.constructor | App.tsx:8-9 | The history starts empty and the drawer closed. |
| App.AppState.AddToHistory | App.tsx:11-13 | The history grows by one. The new item is in front, and all previous items follow, unchanged and in order. The drawer flag is untouched. |
| App.AppState.ClearHistory | App.tsx:15-17 | The history is empty afterwards, whatever it held. |
| App.AppState.ToggleHistory | App.tsx:35 | The drawer flag flips, so two toggles restore it. The history is untouched. |
| App.AppState.CloseHistory | App.tsx:53 | The drawer is closed afterwards. The history is untouched. |
| App.HistoryShape | App.tsx:8-17 | After any sequence of adds and clears, the history is the items added since the last clear, newest first. They sit in front of the original history if nothing cleared it. No entry is ever edited or removed alone. |
| App.DeliveredNewestFirst | App.tsx:11-13 | Items delivered in completion order are shown newest first, in front of what was already there. |

## Left out

- The arithmetic of `safeEvaluate` (components/Calculator.tsx:87-94) is the parameter `arith`. The model leaves out JavaScript evaluation through `new Function`, IEEE doubles, the rounding to 8 decimals and number formatting. It keeps only how each failure kind is handled.
- The remote model and its client library are out. The service's reply is an input to `Gemini.SolveMath`, so the system prompt, temperature and output cap play no part. The console logging on failure is also left out.
- Clock: `Date.now()` ids and timestamps become parameters. In the source the id and the timestamp are two separate clock reads and may differ. The model takes both as given.
- Asynchrony is kept only as the begin and completion split of the AI call, with completions in any order in `Session`. React's batching of state updates and its re-render timing are not modelled.
- CalculatorComponent.Calculator.HandleKeyDown: the class method performs the corrected step, where the listener sees the current `result`. The class has no field for the listener's snapshot. The as-written listener is modelled on values, in `KeyStepSeeing`, `KeysAsWritten` and `Session.Step`.
- Rendering and wiring are presentation only and are not modelled. This covers JSX, class strings, icons, the input scroll effect (components/Calculator.tsx:20-24), listener registration (components/Calculator.tsx:39-42) and the `0` placeholder. components/HistorySidebar.tsx is not part of this model.
- Strings are sequences of Unicode scalar values, not UTF-16 code units. `slice(0, -1)` on a character outside the Basic Multilingual Plane removes half a surrogate pair in JavaScript but a whole character here.
- Gemini.SolveMath: when the API key is missing, the source also builds the error message text. The model keeps only the fact that the call rejects.
- `GEMINI_MODEL` (constants.ts:3) names the remote model and plays no part in the model.

## Findings

| source | as written | input that shows it | evidently intended | confidence | as-written member | corrected member |
|---|---|---|---|---|---|---|
| components/Calculator.tsx:27-37 | `handleKeyDown` is memoised with dependencies `[input, loading]`. After Enter shows a local result, neither dependency changes, so the registered listener keeps calling the `appendToInput` that saw `result` empty. | Type `1+1`, press Enter (shows `2`), press `5`: the input becomes `1+15` and `2` stays shown. | A digit after a shown result starts a fresh input (`5`) and clears the result, as the keypad does. | not executed | CalculatorComponent.StaleListenerAsWritten | CalculatorComponent.FreshListenerStartsAfresh |
