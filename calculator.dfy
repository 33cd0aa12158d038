/**
  The `Calculator` component of components/Calculator.tsx: its four state
  fields, the handlers that update them, and the history items it passes to
  `onCalculationComplete` (kept here, oldest first, as `emitted`).

  Each handler is specified by a step function on `CalcState`, a value
  snapshot of the component; the class methods are proved to perform exactly
  that step, and the lemmas state what the steps promise.
 */
module CalculatorComponent {
  import opened Types
  import opened Expression
  import opened Gemini
  import opened Keypad

  /** The component's state fields plus every item it has emitted so far. */
  datatype CalcState = CalcState(
    input: string,
    result: string,
    loading: bool,
    isAiMode: bool,
    emitted: seq<HistoryItem>)

  const Initial: CalcState := CalcState("", "", false, false, [])

  // ---------------------------------------------------------------- editing

  /** The operators after which a shown result is continued rather than replaced (`%` included, though nothing produces it). */
  predicate IsContinuationOperator(value: string) {
    value == "+" || value == "-" || value == "*" || value == "/" || value == "%"
  }

  /**
    `appendToInput` run by a handler whose closure saw `seen` as `result`.
    A non-empty `seen` is either replaced by the value or continued with an
    operator, and `result` is cleared; with an empty `seen` the value is
    appended to the live input and `result` is not touched.
   */
  function AppendSeeing(s: CalcState, seen: string, value: string): CalcState {
    if seen != "" && !IsContinuationOperator(value) then s.(input := value, result := "")
    else if seen != "" then s.(input := seen + value, result := "")
    else s.(input := s.input + value)
  }

  /** `appendToInput` with the current `result`. */
  function AppendStep(s: CalcState, value: string): CalcState {
    AppendSeeing(s, s.result, value)
  }

  /** `handleBackspace`: `slice(0, -1)` drops the last character, if any, and the result is cleared. */
  function BackspaceStep(s: CalcState): CalcState {
    s.(input := if s.input == "" then "" else s.input[..|s.input| - 1], result := "")
  }

  /** `handleClear`: `loading` is left alone. */
  function ClearStep(s: CalcState): CalcState {
    s.(input := "", result := "", isAiMode := false)
  }

  /** The free-text field's `onChange`: any text at all becomes the input. */
  function TypeStep(s: CalcState, text: string): CalcState {
    s.(input := text)
  }

  // ---------------------------------------------------------------- routing

  /** The local path failed: the arithmetic threw, was not finite, or rendered as the error marker. */
  predicate LocalFails(e: Evaluation) {
    !(e.Finite? && e.rendered != ErrorMarker)
  }

  datatype Route = Skip | Local(value: string) | Remote

  /**
    The decision `handleCalculate` makes. Stated against the raw input:
    nothing on empty input; the AI path exactly when AI is forced, the input
    is complex, or the arithmetic on the input fails; otherwise the local
    value, which is the arithmetic's rendering of the input itself.
   */
  function RouteOf(input: string, forceAi: bool, arith: string -> Evaluation): (r: Route)
    ensures r == Skip <==> input == ""
    ensures r == Remote <==> input != "" && (forceAi || IsComplex(input) || LocalFails(arith(input)))
    ensures r.Local? ==> !forceAi && !IsComplex(input) && arith(input) == Finite(r.value) && r.value != ErrorMarker
  {
    if input == "" then Skip
    else if forceAi || IsComplex(input) then Remote
    else
      SafeEvaluateOnSimple(arith, input);
      var res := SafeEvaluate(arith, input);
      if res == ErrorMarker then Remote else Local(res)
  }

  /** The synchronous part of `performAiCalculation`, before the service call is awaited. */
  function BeginAiStep(s: CalcState): CalcState {
    s.(loading := true, isAiMode := true)
  }

  /** The part of `performAiCalculation` after the awaited call settles; `request` is the input the call was made with. */
  function FinishAiStep(s: CalcState, request: string, outcome: AiOutcome, id: string, timestamp: int): CalcState {
    match outcome
    case Returned(text) =>
      s.(result := text, emitted := s.emitted + [HistoryItem(id, request, text, timestamp, true)], loading := false)
    case Thrown =>
      s.(result := ErrorMarker, loading := false)
  }

  /** `handleCalculate` up to the point where it awaits the service. */
  function CalculateStep(s: CalcState, forceAi: bool, arith: string -> Evaluation, id: string, timestamp: int): CalcState {
    match RouteOf(s.input, forceAi, arith)
    case Skip => s
    case Remote => BeginAiStep(s)
    case Local(value) =>
      s.(result := value, emitted := s.emitted + [HistoryItem(id, s.input, value, timestamp, false)])
  }

  /** The service call `handleCalculate` starts, if any: always with the input of that moment. */
  function CalculateRequest(s: CalcState, forceAi: bool, arith: string -> Evaluation): Option<string> {
    if RouteOf(s.input, forceAi, arith) == Remote then Some(s.input) else None
  }

  // ---------------------------------------------------------------- keyboard and keypad

  /** `/[0-9]/.test(key)`: unanchored, so any key name containing a digit matches. */
  predicate HasDigit(key: string) {
    exists i :: 0 <= i < |key| && '0' <= key[i] <= '9'
  }

  /** The keyboard's operator list (no `%`). */
  predicate IsKeyboardOperator(key: string) {
    key == "+" || key == "-" || key == "*" || key == "/" || key == "(" || key == ")" || key == "."
  }

  /** `handleKeyDown` run by a listener whose closure saw `seen` as `result`. */
  function KeyStepSeeing(s: CalcState, seen: string, key: string, arith: string -> Evaluation, id: string, timestamp: int): CalcState {
    if s.loading then s
    else if HasDigit(key) || IsKeyboardOperator(key) then AppendSeeing(s, seen, key)
    else if key == "Enter" then CalculateStep(s, false, arith, id, timestamp)
    else if key == "Backspace" then BackspaceStep(s)
    else if key == "Escape" then ClearStep(s)
    else s
  }

  /** `handleKeyDown` as intended: the listener sees the current `result`. */
  function KeyStep(s: CalcState, key: string, arith: string -> Evaluation, id: string, timestamp: int): CalcState {
    KeyStepSeeing(s, s.result, key, arith, id, timestamp)
  }

  function KeyRequest(s: CalcState, key: string, arith: string -> Evaluation): Option<string> {
    if !s.loading && key == "Enter" then CalculateRequest(s, false, arith) else None
  }

  /** A keypad click: three control values, everything else appended. Not gated on `loading`. */
  function ButtonStep(s: CalcState, value: string, arith: string -> Evaluation, id: string, timestamp: int): CalcState {
    if value == "clear" then ClearStep(s)
    else if value == "=" then CalculateStep(s, false, arith, id, timestamp)
    else if value == "ai" then CalculateStep(s, true, arith, id, timestamp)
    else AppendStep(s, value)
  }

  function ButtonRequest(s: CalcState, value: string, arith: string -> Evaluation): Option<string> {
    if value == "clear" then None
    else if value == "=" then CalculateRequest(s, false, arith)
    else if value == "ai" then CalculateRequest(s, true, arith)
    else None
  }

  // ---------------------------------------------------------------- what the steps promise

  /** On empty input `handleCalculate` changes nothing and starts no call. */
  lemma CalculateOnEmptyInput(s: CalcState, forceAi: bool, arith: string -> Evaluation, id: string, timestamp: int)
    requires s.input == ""
    ensures CalculateStep(s, forceAi, arith, id, timestamp) == s
    ensures CalculateRequest(s, forceAi, arith) == None
  {
  }

  /**
    `handleCalculate` on non-empty input, stated on the raw input and the
    arithmetic alone: either it starts the AI path (busy, AI mode, nothing
    recorded yet, a call with the input), or it shows the local value and
    records exactly one local item, whose result is never the error marker.
   */
  lemma CalculateOutcome(s: CalcState, forceAi: bool, arith: string -> Evaluation, id: string, timestamp: int)
    requires s.input != ""
    ensures var t := CalculateStep(s, forceAi, arith, id, timestamp);
      var request := CalculateRequest(s, forceAi, arith);
      if forceAi || IsComplex(s.input) || LocalFails(arith(s.input)) then
        t == s.(loading := true, isAiMode := true) && request == Some(s.input)
      else
        && arith(s.input).Finite?
        && t.result == arith(s.input).rendered != ErrorMarker
        && t.emitted == s.emitted + [HistoryItem(id, s.input, t.result, timestamp, false)]
        && t.input == s.input && t.loading == s.loading && t.isAiMode == s.isAiMode
        && request == None
  {
  }

  /** The AI path on its own: after begin and completion, `loading` is false again and AI mode is on, whether the call returned or threw; one item if it returned, none if it threw. */
  lemma AiRoundTrip(s: CalcState, outcome: AiOutcome, id: string, timestamp: int)
    ensures var t := FinishAiStep(BeginAiStep(s), s.input, outcome, id, timestamp);
      && !t.loading && t.isAiMode && t.input == s.input
      && (outcome.Returned? ==>
            t.result == outcome.text && t.emitted == s.emitted + [HistoryItem(id, s.input, outcome.text, timestamp, true)])
      && (outcome.Thrown? ==> t.result == ErrorMarker && t.emitted == s.emitted)
  {
  }

  /** Without an API key every AI calculation ends showing the error marker and records nothing; with one it always records exactly one item. */
  lemma ApiKeyDecidesRecording(s: CalcState, hasApiKey: bool, reply: Reply, request: string, id: string, timestamp: int)
    ensures var t := FinishAiStep(s, request, SolveMath(hasApiKey, reply), id, timestamp);
      && !t.loading
      && (!hasApiKey ==> t.result == ErrorMarker && t.emitted == s.emitted)
      && (hasApiKey ==> |t.emitted| == |s.emitted| + 1 && t.emitted[|s.emitted|].isAi && t.emitted[|s.emitted|].expression == request)
  {
  }

  /**
    An append clears the result exactly when its handler saw a non-empty
    `result`; one that saw an empty `result` leaves the shown result alone.
    An append that sees the current `result` (every keypad click) always
    leaves it empty.
   */
  lemma AppendClearsResult(s: CalcState, seen: string, value: string)
    ensures AppendSeeing(s, seen, value).result == (if seen == "" then s.result else "")
    ensures AppendStep(s, value).result == ""
  {
  }

  /** Both the display and the input hold only simple characters. */
  predicate DisplaysSimple(s: CalcState) {
    !IsComplex(s.input) && !IsComplex(s.result)
  }

  /** A keypad key other than the three controls: its value is appended. */
  predicate IsAppendKey(i: int) {
    0 <= i < |CalculatorButtons| && !IsControlValue(CalculatorButtons[i].value)
  }

  /** One keypad append keeps both the input and the display simple. */
  lemma KeypadPressKeepsSimple(s: CalcState, i: int, arith: string -> Evaluation, id: string, timestamp: int)
    requires IsAppendKey(i) && DisplaysSimple(s)
    ensures DisplaysSimple(ButtonStep(s, CalculatorButtons[i].value, arith, id, timestamp))
  {
    var v := CalculatorButtons[i].value;
    ValuesAreControlsOrSimpleChars();
    assert !IsComplex(v) by {
      assert |v| == 1 && IsSimpleChar(v[0]);
    }
    assert !IsComplex("");
    ComplexConcat(s.input, v);
    ComplexConcat(s.result, v);
  }

  /** The state after clicking the keypad keys at `keys` in order. */
  function Clicks(s: CalcState, keys: seq<int>, arith: string -> Evaluation, id: string, timestamp: int): CalcState
    requires forall k :: 0 <= k < |keys| ==> 0 <= keys[k] < |CalculatorButtons|
    decreases |keys|
  {
    if keys == [] then s
    else Clicks(ButtonStep(s, CalculatorButtons[keys[0]].value, arith, id, timestamp), keys[1..], arith, id, timestamp)
  }

  /**
    Appending keypad values never makes the input complex: starting from a
    simple input and display, any run of non-control keypad clicks leaves
    both simple. Only a complex result being continued, or typed text, can.
   */
  lemma {:induction false} KeypadAppendsKeepSimple(s: CalcState, keys: seq<int>, arith: string -> Evaluation, id: string, timestamp: int)
    requires forall k :: 0 <= k < |keys| ==> 0 <= keys[k] < |CalculatorButtons| && IsAppendKey(keys[k])
    requires DisplaysSimple(s)
    ensures DisplaysSimple(Clicks(s, keys, arith, id, timestamp))
    decreases |keys|
  {
    if keys != [] {
      KeypadPressKeepsSimple(s, keys[0], arith, id, timestamp);
      KeypadAppendsKeepSimple(ButtonStep(s, CalculatorButtons[keys[0]].value, arith, id, timestamp), keys[1..], arith, id, timestamp);
    }
  }

  /** Continuing a result that is not simple (an AI answer with a unit, say) makes the input complex, through the keypad alone. */
  lemma ContinuedResultCanBeComplex(s: CalcState, arith: string -> Evaluation, id: string, timestamp: int)
    requires s.result == "42 km"
    ensures ButtonStep(s, "+", arith, id, timestamp).input == "42 km+"
    ensures IsComplex(ButtonStep(s, "+", arith, id, timestamp).input)
  {
    assert !IsSimpleChar("42 km+"[3]);
  }

  /** While `loading`, every key is ignored and no call is started, whatever `result` the listener saw. */
  lemma KeyboardIgnoredWhileLoading(s: CalcState, seen: string, key: string, arith: string -> Evaluation, id: string, timestamp: int)
    requires s.loading
    ensures KeyStepSeeing(s, seen, key, arith, id, timestamp) == s
    ensures KeyRequest(s, key, arith) == None
  {
  }

  /** `=` is a keypad value but no keyboard branch matches it: typing it changes nothing and starts no call. */
  lemma KeyboardIgnoresEquals(s: CalcState, seen: string, arith: string -> Evaluation, id: string, timestamp: int)
    ensures KeyStepSeeing(s, seen, "=", arith, id, timestamp) == s
    ensures KeyRequest(s, "=", arith) == None
  {
    assert !HasDigit("=") by { assert "="[0] == '='; }
  }

  /** The keypad is not gated on `loading`: `Ask AI` during a call starts a second call with the current input. */
  lemma KeypadNotGatedWhileLoading(s: CalcState, arith: string -> Evaluation, id: string, timestamp: int)
    requires s.loading && s.input != ""
    ensures ButtonRequest(s, "ai", arith) == Some(s.input)
    ensures ButtonStep(s, "ai", arith, id, timestamp).loading
  {
  }

  /** The unanchored digit test: a key name such as `F5` is appended whole, and makes the input complex. */
  lemma KeyWithDigitAppendedWhole(s: CalcState, arith: string -> Evaluation, id: string, timestamp: int)
    requires !s.loading && s.result == ""
    ensures KeyStep(s, "F5", arith, id, timestamp).input == s.input + "F5"
    ensures IsComplex(KeyStep(s, "F5", arith, id, timestamp).input)
  {
    assert "F5"[1] == '5';
    var t := s.input + "F5";
    assert t[|s.input|] == 'F' && !IsSimpleChar(t[|s.input|]);
  }

  /** The digit test, the operator list and the three named keys never match the same key, so at most one handler runs per key. */
  lemma KeyBranchesExclusive(key: string)
    ensures IsKeyboardOperator(key) ==> !HasDigit(key)
    ensures key == "Enter" || key == "Backspace" || key == "Escape" ==> !HasDigit(key) && !IsKeyboardOperator(key)
  {
    if key == "Enter" || key == "Backspace" || key == "Escape" || IsKeyboardOperator(key) {
      forall i | 0 <= i < |key|
        ensures !('0' <= key[i] <= '9')
      {
      }
    }
  }

  /**
    Keyboard and keypad agree on every keypad value they both append, when
    not loading and when the listener is in step with `result`; after a
    local Enter it need not be (see `StaleListenerAsWritten`).
   */
  lemma KeyboardMatchesKeypad(s: CalcState, seen: string, i: int, arith: string -> Evaluation, id: string, timestamp: int)
    requires IsAppendKey(i) && !s.loading && seen == s.result
    ensures KeyStepSeeing(s, seen, CalculatorButtons[i].value, arith, id, timestamp) ==
      ButtonStep(s, CalculatorButtons[i].value, arith, id, timestamp)
  {
    var v := CalculatorButtons[i].value;
    ValuesAreControlsOrSimpleChars();
    assert |v| == 1;
    if !IsKeyboardOperator(v) {
      assert '0' <= v[0] <= '9';
    }
  }

  // ---------------------------------------------------------------- the memoised keyboard listener

  /**
    The `result` the registered keyboard listener sees after a handler and
    its re-render: `useCallback` at lines 27-37 re-creates the listener only
    when `input` or `loading` changed, so otherwise it keeps the old one.
   */
  function ListenerResult(before: CalcState, after: CalcState, seen: string): string {
    if after.input != before.input || after.loading != before.loading then after.result else seen
  }

  /** Keys pressed in order, as written: each handled by the listener of the previous render. */
  function KeysAsWritten(s: CalcState, seen: string, keys: seq<string>, arith: string -> Evaluation, id: string, timestamp: int): CalcState
    decreases |keys|
  {
    if keys == [] then s
    else
      var t := KeyStepSeeing(s, seen, keys[0], arith, id, timestamp);
      KeysAsWritten(t, ListenerResult(s, t, seen), keys[1..], arith, id, timestamp)
  }

  /** Keys pressed in order, with the listener seeing the current `result`. */
  function Keys(s: CalcState, keys: seq<string>, arith: string -> Evaluation, id: string, timestamp: int): CalcState
    decreases |keys|
  {
    if keys == [] then s
    else Keys(KeyStep(s, keys[0], arith, id, timestamp), keys[1..], arith, id, timestamp)
  }

  lemma KeysAsWrittenCons(s: CalcState, seen: string, key: string, rest: seq<string>, arith: string -> Evaluation, id: string, timestamp: int)
    ensures KeysAsWritten(s, seen, [key] + rest, arith, id, timestamp) ==
      var t := KeyStepSeeing(s, seen, key, arith, id, timestamp);
      KeysAsWritten(t, ListenerResult(s, t, seen), rest, arith, id, timestamp)
  {
    assert ([key] + rest)[1..] == rest;
  }

  lemma KeysCons(s: CalcState, key: string, rest: seq<string>, arith: string -> Evaluation, id: string, timestamp: int)
    ensures Keys(s, [key] + rest, arith, id, timestamp) == Keys(KeyStep(s, key, arith, id, timestamp), rest, arith, id, timestamp)
  {
    assert ([key] + rest)[1..] == rest;
  }

  /**
    Enter on a simple input that evaluates locally, whatever `result` the
    listener saw: the value is shown and recorded, and neither the input nor
    `loading` changes.
   */
  lemma EnterEvaluatesLocally(s: CalcState, seen: string, arith: string -> Evaluation, id: string, timestamp: int)
    requires !s.loading && s.input != "" && !IsComplex(s.input) && !LocalFails(arith(s.input))
    ensures KeyStepSeeing(s, seen, "Enter", arith, id, timestamp) ==
      s.(result := arith(s.input).rendered,
         emitted := s.emitted + [HistoryItem(id, s.input, arith(s.input).rendered, timestamp, false)])
  {
    KeyBranchesExclusive("Enter");
  }

  /**
    As written: with the listener in step with an empty `result`, Enter
    shows the local value, but the listener is not re-created (neither
    `input` nor `loading` changed), so a following digit key is appended to
    the old expression while the value stays shown.
   */
  lemma StaleListenerAsWritten(s: CalcState, key: string, arith: string -> Evaluation, id: string, timestamp: int)
    requires !s.loading && s.result == "" && s.input != "" && !IsComplex(s.input) && !LocalFails(arith(s.input))
    requires arith(s.input).rendered != ""  // `String` of a number is never empty
    requires HasDigit(key)
    ensures var t := KeysAsWritten(s, s.result, ["Enter", key], arith, id, timestamp);
      t.input == s.input + key && t.result == arith(s.input).rendered
  {
    var s4 := KeyStep(s, "Enter", arith, id, timestamp);
    EnterEvaluatesLocally(s, s.result, arith, id, timestamp);
    assert ["Enter", key] == ["Enter"] + [key];
    KeysAsWrittenCons(s, "", "Enter", [key], arith, id, timestamp);
    assert ListenerResult(s, s4, "") == "";
    KeysAsWrittenCons(s4, "", key, [], arith, id, timestamp);
  }

  /** The same presses with the listener seeing the current `result`: the digit starts a fresh input, as the keypad does. */
  lemma FreshListenerStartsAfresh(s: CalcState, key: string, arith: string -> Evaluation, id: string, timestamp: int)
    requires !s.loading && s.result == "" && s.input != "" && !IsComplex(s.input) && !LocalFails(arith(s.input))
    requires arith(s.input).rendered != ""  // `String` of a number is never empty
    requires HasDigit(key)
    ensures var t := Keys(s, ["Enter", key], arith, id, timestamp);
      t.input == key && t.result == ""
  {
    var s4 := KeyStep(s, "Enter", arith, id, timestamp);
    EnterEvaluatesLocally(s, s.result, arith, id, timestamp);
    assert ["Enter", key] == ["Enter"] + [key];
    KeysCons(s, "Enter", [key], arith, id, timestamp);
    KeysCons(s4, key, [], arith, id, timestamp);
    KeyBranchesExclusive(key);
  }

  /** A concrete instance: `1+1`, Enter, `5` leaves `1+15` beside the shown `2` as written, and `5` as intended. */
  lemma StaleListenerExample(arith: string -> Evaluation, id: string, timestamp: int)
    requires arith("1+1") == Finite("2")
    ensures KeysAsWritten(CalcState("1+1", "", false, false, []), "", ["Enter", "5"], arith, id, timestamp).input == "1+15"
    ensures Keys(CalcState("1+1", "", false, false, []), ["Enter", "5"], arith, id, timestamp).input == "5"
  {
    assert !IsComplex("1+1") by {
      forall i | 0 <= i < 3 ensures IsSimpleChar("1+1"[i]) { }
    }
    assert HasDigit("5") by { assert "5"[0] == '5'; }
    StaleListenerAsWritten(CalcState("1+1", "", false, false, []), "5", arith, id, timestamp);
    FreshListenerStartsAfresh(CalcState("1+1", "", false, false, []), "5", arith, id, timestamp);
  }

  /**
    A digit key handled by a listener that saw a non-empty `result` starts
    a fresh input and clears the result, whatever the current `result` is.
   */
  lemma KeyAfterResultStartsFresh(s: CalcState, seen: string, key: string, arith: string -> Evaluation, id: string, timestamp: int)
    requires !s.loading && seen != "" && HasDigit(key)
    ensures KeyStepSeeing(s, seen, key, arith, id, timestamp).input == key
    ensures KeyStepSeeing(s, seen, key, arith, id, timestamp).result == ""
  {
    KeyBranchesExclusive(key);
  }

  // ---------------------------------------------------------------- the component

  class Calculator {
    var input: string
    var result: string
    var loading: bool
    var isAiMode: bool
    /** Every item passed to `onCalculationComplete`, oldest first. */
    var emitted: seq<HistoryItem>

    function State(): CalcState
      reads this
    {
      CalcState(input, result, loading, isAiMode, emitted)
    }

    constructor ()
      ensures State() == Initial
    {
      input, result, loading, isAiMode, emitted := "", "", false, false, [];
    }

    method AppendToInput(value: string)
      modifies this
      ensures State() == AppendStep(old(State()), value)
      ensures result == ""
      ensures old(result) == "" ==> input == old(input) + value
      ensures old(result) != "" && IsContinuationOperator(value) ==> input == old(result) + value
      ensures old(result) != "" && !IsContinuationOperator(value) ==> input == value
      ensures loading == old(loading) && isAiMode == old(isAiMode) && emitted == old(emitted)
    {
      if result != "" && !IsContinuationOperator(value) {
        input := value;
        result := "";
      } else if result != "" {
        input := result + value;
        result := "";
      } else {
        input := input + value;
      }
    }

    method HandleBackspace()
      modifies this
      ensures State() == BackspaceStep(old(State()))
      ensures old(input) == "" ==> input == ""
      ensures old(input) != "" ==> input + [old(input)[|old(input)| - 1]] == old(input)
      ensures result == ""
    {
      input := if input == "" then "" else input[..|input| - 1];
      result := "";
    }

    method HandleClear()
      modifies this
      ensures State() == ClearStep(old(State()))
      ensures input == "" && result == "" && !isAiMode
      ensures loading == old(loading) && emitted == old(emitted)
    {
      input := "";
      result := "";
      isAiMode := false;
    }

    /** The free-text field at line 161. */
    method SetInput(text: string)
      modifies this
      ensures State() == TypeStep(old(State()), text)
      ensures input == text
    {
      input := text;
    }

    /** The begin step of `performAiCalculation`: returns the input the service is called with. */
    method PerformAiCalculation() returns (request: string)
      modifies this
      ensures State() == BeginAiStep(old(State()))
      ensures request == input == old(input) && loading && isAiMode
    {
      loading := true;
      isAiMode := true;
      request := input;
    }

    /** The completion step of `performAiCalculation`, once the call made with `request` has settled with `outcome`. */
    method FinishAiCalculation(request: string, outcome: AiOutcome, id: string, timestamp: int)
      modifies this
      ensures State() == FinishAiStep(old(State()), request, outcome, id, timestamp)
      ensures !loading && isAiMode == old(isAiMode) && input == old(input)
      ensures outcome.Returned? ==>
        result == outcome.text && emitted == old(emitted) + [HistoryItem(id, request, outcome.text, timestamp, true)]
      ensures outcome.Thrown? ==> result == ErrorMarker && emitted == old(emitted)
    {
      match outcome {
        case Returned(text) =>
          result := text;
          emitted := emitted + [HistoryItem(id, request, text, timestamp, true)];
        case Thrown =>
          result := ErrorMarker;
      }
      loading := false;
    }

    /** `handleCalculate`; returns the service call it starts, if any. */
    method HandleCalculate(forceAi: bool, arith: string -> Evaluation, id: string, timestamp: int)
      returns (request: Option<string>)
      modifies this
      ensures State() == CalculateStep(old(State()), forceAi, arith, id, timestamp)
      ensures request == CalculateRequest(old(State()), forceAi, arith)
    {
      if input == "" {
        return None;
      }
      var isComplex := IsComplex(input);
      if forceAi || isComplex {
        var r := PerformAiCalculation();
        request := Some(r);
      } else {
        var res := SafeEvaluate(arith, input);
        if res == ErrorMarker {
          var r := PerformAiCalculation();
          request := Some(r);
        } else {
          result := res;
          emitted := emitted + [HistoryItem(id, input, res, timestamp, false)];
          request := None;
        }
      }
    }

    /** `handleKeyDown`, with the listener seeing the current `result`. */
    method HandleKeyDown(key: string, arith: string -> Evaluation, id: string, timestamp: int)
      returns (request: Option<string>)
      modifies this
      ensures State() == KeyStep(old(State()), key, arith, id, timestamp)
      ensures request == KeyRequest(old(State()), key, arith)
    {
      request := None;
      if loading {
        return;
      }
      if HasDigit(key) || IsKeyboardOperator(key) {
        AppendToInput(key);
      } else if key == "Enter" {
        request := HandleCalculate(false, arith, id, timestamp);
      } else if key == "Backspace" {
        HandleBackspace();
      } else if key == "Escape" {
        HandleClear();
      }
    }

    /** A click on the keypad key whose value is `value`. */
    method ClickButton(value: string, arith: string -> Evaluation, id: string, timestamp: int)
      returns (request: Option<string>)
      modifies this
      ensures State() == ButtonStep(old(State()), value, arith, id, timestamp)
      ensures request == ButtonRequest(old(State()), value, arith)
    {
      request := None;
      if value == "clear" {
        HandleClear();
      } else if value == "=" {
        request := HandleCalculate(false, arith, id, timestamp);
      } else if value == "ai" {
        request := HandleCalculate(true, arith, id, timestamp);
      } else {
        AppendToInput(value);
      }
    }
  }
}
