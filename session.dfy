/**
  Runs of the calculator: any interleaving of user events with the
  settling of AI calls still in flight. The on-screen buttons are not
  gated on `loading`, so several calls can be in flight at once, and they
  may settle in any order.
 */
module Session {
  import opened Types
  import opened Expression
  import opened Gemini
  import opened CalculatorComponent

  datatype Event =
    | Typed(text: string)                                         // the free-text field
    | Clicked(value: string, id: string, timestamp: int)          // a keypad key
    | AskedAi(id: string, timestamp: int)                         // the `Ask AI` bar button
    | BackspaceClicked                                            // the backspace bar button
    | KeyPressed(key: string, id: string, timestamp: int)         // the window keyboard listener
    | Settled(call: nat, outcome: AiOutcome, id: string, timestamp: int)  // an awaited service call settles

  /**
    The component, the inputs of the calls still in flight, how many times
    `handleCalculate` has run, and the `result` the registered keyboard
    listener saw when it was last re-created.
   */
  datatype Run = Run(component: CalcState, inFlight: seq<string>, calculations: nat, listener: string)

  const Start: Run := Run(Initial, [], 0, Initial.result)

  function Started(request: Option<string>): seq<string> {
    if request.Some? then [request.value] else []
  }

  /** One event's effect on the component, the calls in flight and the count; the keyboard is handled by the listener as it stands. */
  function Handle(r: Run, e: Event, arith: string -> Evaluation): Run {
    match e
    case Typed(text) => r.(component := TypeStep(r.component, text))
    case Clicked(value, id, timestamp) =>
      r.(component := ButtonStep(r.component, value, arith, id, timestamp),
         inFlight := r.inFlight + Started(ButtonRequest(r.component, value, arith)),
         calculations := r.calculations + if value == "=" || value == "ai" then 1 else 0)
    case AskedAi(id, timestamp) =>
      r.(component := CalculateStep(r.component, true, arith, id, timestamp),
         inFlight := r.inFlight + Started(CalculateRequest(r.component, true, arith)),
         calculations := r.calculations + 1)
    case BackspaceClicked => r.(component := BackspaceStep(r.component))
    case KeyPressed(key, id, timestamp) =>
      r.(component := KeyStepSeeing(r.component, r.listener, key, arith, id, timestamp),
         inFlight := r.inFlight + Started(KeyRequest(r.component, key, arith)),
         calculations := r.calculations + if !r.component.loading && key == "Enter" then 1 else 0)
    case Settled(call, outcome, id, timestamp) =>
      if call < |r.inFlight| then
        r.(component := FinishAiStep(r.component, r.inFlight[call], outcome, id, timestamp),
           inFlight := r.inFlight[..call] + r.inFlight[call + 1..])
      else r
  }

  /** An event, then the re-render: the listener is re-created only when `input` or `loading` changed. */
  function Step(r: Run, e: Event, arith: string -> Evaluation): Run {
    var next := Handle(r, e, arith);
    next.(listener := ListenerResult(r.component, next.component, r.listener))
  }

  function Replay(r: Run, events: seq<Event>, arith: string -> Evaluation): Run
    decreases |events|
  {
    if events == [] then r else Replay(Step(r, events[0], arith), events[1..], arith)
  }

  /** An item as `handleCalculate` records it: never for empty input, and a local one never the error marker nor from a complex input. */
  predicate WellFormedItem(item: HistoryItem) {
    && item.expression != ""
    && (!item.isAi ==> item.result != ErrorMarker && !IsComplex(item.expression))
  }

  /**
    The run invariant: items recorded plus calls in flight never exceed the
    calculations started (each records at most one item), every item is
    well formed, every call in flight was made with non-empty input, and
    `loading` is only ever set while some call is in flight.
   */
  predicate Valid(r: Run) {
    && |r.component.emitted| + |r.inFlight| <= r.calculations
    && (forall i :: 0 <= i < |r.component.emitted| ==> WellFormedItem(r.component.emitted[i]))
    && (forall i :: 0 <= i < |r.inFlight| ==> r.inFlight[i] != "")
    && (r.component.loading ==> |r.inFlight| > 0)
  }

  /**
    One `handleCalculate` either starts one call with the current input or
    records at most one item, never both; and it keeps `Valid`.
   */
  lemma CalculateKeepsValid(r: Run, forceAi: bool, arith: string -> Evaluation, id: string, timestamp: int)
    requires Valid(r)
    ensures var n := r.(component := CalculateStep(r.component, forceAi, arith, id, timestamp),
                        inFlight := r.inFlight + Started(CalculateRequest(r.component, forceAi, arith)),
                        calculations := r.calculations + 1);
      && Valid(n)
      && (n.inFlight == r.inFlight || n.inFlight == r.inFlight + [r.component.input])
      && (n.component.emitted == r.component.emitted ||
          (|n.component.emitted| == |r.component.emitted| + 1 && n.component.emitted[..|r.component.emitted|] == r.component.emitted))
      && (n.inFlight == r.inFlight || n.component.emitted == r.component.emitted)
  {
    var s := r.component;
    var t := CalculateStep(s, forceAi, arith, id, timestamp);
    var started := r.inFlight + Started(CalculateRequest(s, forceAi, arith));
    match RouteOf(s.input, forceAi, arith)
    case Skip =>
    case Remote =>
      assert started == r.inFlight + [s.input];
    case Local(value) =>
      assert t.emitted == s.emitted + [HistoryItem(id, s.input, value, timestamp, false)];
      assert t.emitted[..|s.emitted|] == s.emitted;
      assert WellFormedItem(t.emitted[|s.emitted|]);
  }

  lemma StepKeepsValid(r: Run, e: Event, arith: string -> Evaluation)
    requires Valid(r)
    ensures Valid(Step(r, e, arith))
  {
    match e
    case Typed(_) =>
    case BackspaceClicked =>
    case Clicked(value, id, timestamp) =>
      ClickKeepsValid(r, value, id, timestamp, arith);
    case AskedAi(id, timestamp) =>
      CalculateKeepsValid(r, true, arith, id, timestamp);
    case KeyPressed(key, id, timestamp) =>
      KeyKeepsValid(r, key, id, timestamp, arith);
    case Settled(call, outcome, id, timestamp) =>
      SettleKeepsValid(r, call, outcome, id, timestamp, arith);
  }

  lemma ClickKeepsValid(r: Run, value: string, id: string, timestamp: int, arith: string -> Evaluation)
    requires Valid(r)
    ensures Valid(Step(r, Clicked(value, id, timestamp), arith))
  {
    if value == "=" {
      CalculateKeepsValid(r, false, arith, id, timestamp);
    } else if value == "ai" {
      CalculateKeepsValid(r, true, arith, id, timestamp);
    }
  }

  lemma KeyKeepsValid(r: Run, key: string, id: string, timestamp: int, arith: string -> Evaluation)
    requires Valid(r)
    ensures Valid(Step(r, KeyPressed(key, id, timestamp), arith))
  {
    if !r.component.loading && key == "Enter" {
      KeyBranchesExclusive(key);
      CalculateKeepsValid(r, false, arith, id, timestamp);
    }
  }

  /**
    A call that settles leaves the calls in flight, clears `loading`, and
    records its one item if it returned and nothing if it threw; a call
    that is not in flight changes nothing. `Valid` is kept.
   */
  lemma SettleKeepsValid(r: Run, call: nat, outcome: AiOutcome, id: string, timestamp: int, arith: string -> Evaluation)
    requires Valid(r)
    ensures var n := Step(r, Settled(call, outcome, id, timestamp), arith);
      && Valid(n)
      && (call < |r.inFlight| ==>
            && multiset(n.inFlight) + multiset{r.inFlight[call]} == multiset(r.inFlight)
            && !n.component.loading
            && n.component.emitted == r.component.emitted +
                 (if outcome.Returned? then [HistoryItem(id, r.inFlight[call], outcome.text, timestamp, true)] else []))
      && (call >= |r.inFlight| ==> n == r)
  {
    if call < |r.inFlight| {
      var rest := r.inFlight[..call] + r.inFlight[call + 1..];
      var t := FinishAiStep(r.component, r.inFlight[call], outcome, id, timestamp);
      assert |rest| == |r.inFlight| - 1;
      assert r.inFlight == r.inFlight[..call] + [r.inFlight[call]] + r.inFlight[call + 1..];
      forall i | 0 <= i < |rest|
        ensures rest[i] != ""
      {
        if i < call {
          assert rest[i] == r.inFlight[i];
        } else {
          assert rest[i] == r.inFlight[i + 1];
        }
      }
      if outcome.Returned? {
        assert t.emitted == r.component.emitted + [HistoryItem(id, r.inFlight[call], outcome.text, timestamp, true)];
        assert WellFormedItem(t.emitted[|r.component.emitted|]);
      }
    }
  }

  lemma {:induction false} ReplayKeepsValid(r: Run, events: seq<Event>, arith: string -> Evaluation)
    requires Valid(r)
    ensures Valid(Replay(r, events, arith))
    decreases |events|
  {
    if events != [] {
      StepKeepsValid(r, events[0], arith);
      ReplayKeepsValid(Step(r, events[0], arith), events[1..], arith);
    }
  }

  /**
    Over any run from the start, each `handleCalculate` records at most one
    item; no local item shows the error marker or comes from a complex
    input; and the busy flag is never left set once no call is in flight.
   */
  lemma AtMostOneItemPerCalculation(events: seq<Event>, arith: string -> Evaluation)
    ensures var r := Replay(Start, events, arith);
      && |r.component.emitted| <= r.calculations
      && (forall i :: 0 <= i < |r.component.emitted| && !r.component.emitted[i].isAi ==>
            r.component.emitted[i].result != ErrorMarker && !IsComplex(r.component.emitted[i].expression))
      && (r.inFlight == [] ==> !r.component.loading)
  {
    ReplayKeepsValid(Start, events, arith);
  }

  lemma ReplayCons(r: Run, e: Event, events: seq<Event>, arith: string -> Evaluation)
    ensures Replay(r, [e] + events, arith) == Replay(Step(r, e, arith), events, arith)
  {
    assert ([e] + events)[1..] == events;
  }

  /**
    Two `Ask AI` clicks put two calls in flight; when the first settles,
    `loading` is false, and the keyboard answers again, while the second is
    still pending.
   */
  lemma OverlappingCallsClearBusyEarly(arith: string -> Evaluation)
    ensures var r := Replay(Start, [Typed("x"), AskedAi("a", 1), AskedAi("b", 2), Settled(0, Returned("1"), "c", 3)], arith);
      !r.component.loading && r.inFlight == ["x"]
  {
    assert IsComplex("x") by { assert !IsSimpleChar("x"[0]); }
    var r1 := Step(Start, Typed("x"), arith);
    var r2 := Step(r1, AskedAi("a", 1), arith);
    var r3 := Step(r2, AskedAi("b", 2), arith);
    var r4 := Step(r3, Settled(0, Returned("1"), "c", 3), arith);
    assert r1.component.input == "x";
    assert r2.inFlight == ["x"] && r2.component.input == "x";
    assert r3.inFlight == ["x", "x"];
    assert r4.inFlight == ["x"] && !r4.component.loading;
    assert [Typed("x"), AskedAi("a", 1), AskedAi("b", 2), Settled(0, Returned("1"), "c", 3)] ==
      [Typed("x")] + ([AskedAi("a", 1)] + ([AskedAi("b", 2)] + ([Settled(0, Returned("1"), "c", 3)] + [])));
    ReplayCons(Start, Typed("x"), [AskedAi("a", 1)] + ([AskedAi("b", 2)] + ([Settled(0, Returned("1"), "c", 3)] + [])), arith);
    ReplayCons(r1, AskedAi("a", 1), [AskedAi("b", 2)] + ([Settled(0, Returned("1"), "c", 3)] + []), arith);
    ReplayCons(r2, AskedAi("b", 2), [Settled(0, Returned("1"), "c", 3)] + [], arith);
    ReplayCons(r3, Settled(0, Returned("1"), "c", 3), [], arith);
  }

  /**
    The stale listener in a whole run: type `1+1`, press Enter (the value
    `2` is shown), press `5`: the input is `1+15` and `2` is still shown.
   */
  lemma StaleListenerInRun(arith: string -> Evaluation)
    requires arith("1+1") == Finite("2")
    ensures var r := Replay(Start, [Typed("1+1"), KeyPressed("Enter", "a", 1), KeyPressed("5", "b", 2)], arith);
      r.component.input == "1+15" && r.component.result == "2"
  {
    assert !IsComplex("1+1") by {
      forall i | 0 <= i < 3 ensures IsSimpleChar("1+1"[i]) { }
    }
    assert HasDigit("5") by { assert "5"[0] == '5'; }
    KeyBranchesExclusive("Enter");
    var r1 := Step(Start, Typed("1+1"), arith);
    var r2 := Step(r1, KeyPressed("Enter", "a", 1), arith);
    var r3 := Step(r2, KeyPressed("5", "b", 2), arith);
    assert r1.component.input == "1+1" && r1.listener == "";
    assert r2.component.input == "1+1" && r2.component.result == "2" && r2.listener == "";
    assert r3.component.input == "1+15" && r3.component.result == "2";
    assert [Typed("1+1"), KeyPressed("Enter", "a", 1), KeyPressed("5", "b", 2)] ==
      [Typed("1+1")] + ([KeyPressed("Enter", "a", 1)] + ([KeyPressed("5", "b", 2)] + []));
    ReplayCons(Start, Typed("1+1"), [KeyPressed("Enter", "a", 1)] + ([KeyPressed("5", "b", 2)] + []), arith);
    ReplayCons(r1, KeyPressed("Enter", "a", 1), [KeyPressed("5", "b", 2)] + [], arith);
    ReplayCons(r2, KeyPressed("5", "b", 2), [], arith);
  }
}
