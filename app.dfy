/**
  The `App` component of App.tsx: the history list that receives every
  item the calculator completes, newest first, and the flag that opens the
  history drawer.
 */
module App {
  import opened Types

  class AppState {
    var history: seq<HistoryItem>
    var isHistoryOpen: bool

    /** Both start empty and closed. */
    constructor ()
      ensures history == [] && !isHistoryOpen
    {
      history := [];
      isHistoryOpen := false;
    }

    /** `addToHistory`, the calculator's `onCalculationComplete`: the new item goes in front of all the others, which are kept as they were. */
    method AddToHistory(item: HistoryItem)
      modifies this
      ensures history == HistoryAfter(old(history), Added(item))
      ensures |history| == |old(history)| + 1 && history[0] == item && history[1..] == old(history)
      ensures isHistoryOpen == old(isHistoryOpen)
    {
      history := [item] + history;
    }

    /** `clearHistory`. */
    method ClearHistory()
      modifies this
      ensures history == HistoryAfter(old(history), Cleared)
      ensures history == [] && isHistoryOpen == old(isHistoryOpen)
    {
      history := [];
    }

    /** The header button: flips the flag, so two clicks restore it. */
    method ToggleHistory()
      modifies this
      ensures isHistoryOpen == !old(isHistoryOpen) && history == old(history)
    {
      isHistoryOpen := !isHistoryOpen;
    }

    /** The drawer's `onClose`. */
    method CloseHistory()
      modifies this
      ensures !isHistoryOpen && history == old(history)
    {
      isHistoryOpen := false;
    }
  }

  /** The only two ways the history changes. */
  datatype HistoryChange = Added(item: HistoryItem) | Cleared

  function HistoryAfter(h: seq<HistoryItem>, change: HistoryChange): seq<HistoryItem> {
    match change
    case Added(item) => [item] + h
    case Cleared => []
  }

  /** The history after `changes`, applied oldest first: the last change applied to the history after all the earlier ones. */
  function HistoryAfterAll(h: seq<HistoryItem>, changes: seq<HistoryChange>): seq<HistoryItem>
    decreases |changes|
  {
    if changes == [] then h
    else HistoryAfter(HistoryAfterAll(h, changes[..|changes| - 1]), changes[|changes| - 1])
  }

  function Reverse<T>(s: seq<T>): (r: seq<T>)
    ensures |r| == |s|
    ensures forall i :: 0 <= i < |s| ==> r[i] == s[|s| - 1 - i]
  {
    if s == [] then [] else [s[|s| - 1]] + Reverse(s[..|s| - 1])
  }

  /** The items added after the last clear (all of them if there was none), oldest first. */
  function AddedSinceClear(changes: seq<HistoryChange>): seq<HistoryItem>
    decreases |changes|
  {
    if changes == [] then []
    else match changes[|changes| - 1]
      case Added(item) => AddedSinceClear(changes[..|changes| - 1]) + [item]
      case Cleared => []
  }

  /**
    The history after any sequence of changes: the items added since the
    last clear, newest first, in front of the original history if nothing
    cleared it, or alone if something did. No entry is ever edited, and
    none is removed except by clearing everything.
   */
  lemma {:induction false} HistoryShape(h: seq<HistoryItem>, changes: seq<HistoryChange>)
    ensures HistoryAfterAll(h, changes) ==
      Reverse(AddedSinceClear(changes)) + (if Cleared in changes then [] else h)
    decreases |changes|
  {
    if changes != [] {
      var init, last := changes[..|changes| - 1], changes[|changes| - 1];
      HistoryShape(h, init);
      assert changes == init + [last];
      HistoryShapeStep(h, init, last);
    }
  }

  /** One more change keeps the shape HistoryShape states. */
  lemma HistoryShapeStep(h: seq<HistoryItem>, init: seq<HistoryChange>, last: HistoryChange)
    requires HistoryAfterAll(h, init) == Reverse(AddedSinceClear(init)) + (if Cleared in init then [] else h)
    ensures HistoryAfterAll(h, init + [last]) ==
      Reverse(AddedSinceClear(init + [last])) + (if Cleared in init + [last] then [] else h)
  {
    var changes := init + [last];
    assert changes[..|changes| - 1] == init;
    ClearedInSnoc(init, last, changes);
    match last
    case Cleared =>
    case Added(item) =>
      var added := AddedSinceClear(init);
      assert (added + [item])[..|added|] == added;
      assert Reverse(added + [item]) == [item] + Reverse(added);
  }

  lemma ClearedInSnoc(init: seq<HistoryChange>, last: HistoryChange, changes: seq<HistoryChange>)
    requires changes == init + [last]
    ensures Cleared in changes <==> Cleared in init || last == Cleared
  {
    if Cleared in changes {
      var k :| 0 <= k < |changes| && changes[k] == Cleared;
      if k < |init| {
        assert init[k] == Cleared;
      }
    }
    if Cleared in init {
      var k :| 0 <= k < |init| && init[k] == Cleared;
      assert changes[k] == Cleared;
    }
    assert changes[|init|] == last;
  }

  /** The calculator's items, delivered in the order it completes them, are shown newest first, after whatever was already there. */
  lemma DeliveredNewestFirst(h: seq<HistoryItem>, items: seq<HistoryItem>)
    ensures HistoryAfterAll(h, Deliveries(items)) == Reverse(items) + h
  {
    HistoryShape(h, Deliveries(items));
    DeliveriesOnlyAdd(items);
  }

  function Deliveries(items: seq<HistoryItem>): (changes: seq<HistoryChange>)
    ensures |changes| == |items|
    ensures forall i :: 0 <= i < |items| ==> changes[i] == Added(items[i])
  {
    seq(|items|, i requires 0 <= i < |items| => Added(items[i]))
  }

  lemma {:induction false} DeliveriesOnlyAdd(items: seq<HistoryItem>)
    ensures Cleared !in Deliveries(items) && AddedSinceClear(Deliveries(items)) == items
    decreases |items|
  {
    if items != [] {
      var init := items[..|items| - 1];
      assert Deliveries(items)[..|items| - 1] == Deliveries(init);
      DeliveriesOnlyAdd(init);
      assert items == init + [items[|items| - 1]];
    }
  }
}
