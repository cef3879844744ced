/*
 * The tab strip of the editor window (src/helpers/tabview/TabManager.cpp):
 * the list of tabs with the view each one shows, its label and its colour;
 * the lists of tab indices the tab menu asks to close; lookup of a view's tab;
 * removing and moving tabs; and the debounce of the button that opens the tab menu.
 *
 * The source keeps each tab twice, as an item of a card layout (the view) and as
 * a tab of a tab container (label and colour), and keeps both in the same order.
 * Here they are one sequence of Tab records.
 */
module TabStrip {
  import opened Wrappers
  import opened InterfaceKit

  /** The identity of a view (a `BView*`); views are compared by identity only. */
  type ViewId = nat

  /** One tab: the view its card shows, the label (`caption`) and the colour drawn on it. */
  datatype Tab = Tab(view: ViewId, caption: string, color: RgbColor)

  /** Messages the manager sends to its target. */
  datatype TargetMessage =
    | TabCloseMulti(indices: seq<int>)   // TABMANAGER_TAB_CLOSE_MULTI, one "index" entry per tab
    | TabSelected(index: int)            // TABMANAGER_TAB_SELECTED
    | TabNewOpened(index: int)           // TABMANAGER_TAB_NEW_OPENED

  /** The messages of a tab's pop-up menu; `tabIndex` is the "tab_index" field, if present. */
  datatype TabMenuAction =
    | CloseTab(tabIndex: Option<int>)
    | CloseTabsAll
    | CloseTabsOther(tabIndex: Option<int>)
    | OtherAction

  /** The error `SelectedTabIndex` throws (`std::out_of_range`). */
  datatype OutOfRange = OutOfRange(what: string)

  // ---------------------------------------------------------------------------
  // Specification functions on sequences

  predicate StrictlyDecreasing(s: seq<int>)
  {
    forall i, j :: 0 <= i < j < |s| ==> s[i] > s[j]
  }

  /** The values hi-1, hi-2, ..., lo, in that order. */
  function Countdown(hi: int, lo: int): (r: seq<int>)
    decreases hi - lo
    ensures |r| == if hi > lo then hi - lo else 0
    ensures forall k :: 0 <= k < |r| ==> r[k] == hi - 1 - k
  {
    if hi <= lo then [] else [hi - 1] + Countdown(hi - 1, lo)
  }

  /** The values hi-1, hi-2, ..., lo, in that order, leaving out `skip`. */
  function CountdownExcept(hi: int, lo: int, skip: int): (r: seq<int>)
    decreases hi - lo
    ensures forall k :: 0 <= k < |r| ==> lo <= r[k] < hi
    ensures forall x :: x in r <==> lo <= x < hi && x != skip
    ensures StrictlyDecreasing(r)
    ensures |r| == (if hi > lo then hi - lo else 0) - (if lo <= skip < hi then 1 else 0)
  {
    if hi <= lo then []
    else (if hi - 1 == skip then [] else [hi - 1]) + CountdownExcept(hi - 1, lo, skip)
  }

  /** Position of the first tab showing `v`, or -1 when no tab shows it. */
  function FirstIndexOf(tabs: seq<Tab>, v: ViewId): (r: int)
    ensures -1 <= r < |tabs|
    ensures r >= 0 ==> tabs[r].view == v && forall j :: 0 <= j < r ==> tabs[j].view != v
    ensures r == -1 <==> forall j :: 0 <= j < |tabs| ==> tabs[j].view != v
  {
    if tabs == [] then -1
    else if tabs[0].view == v then 0
    else
      var k := FirstIndexOf(tabs[1..], v);
      if k == -1 then -1 else k + 1
  }

  function RemoveAt<T>(s: seq<T>, i: int): (r: seq<T>)
    requires 0 <= i < |s|
    ensures |r| == |s| - 1
    ensures forall k :: 0 <= k < |r| ==> r[k] == if k < i then s[k] else s[k + 1]
  {
    s[..i] + s[i + 1..]
  }

  function InsertAt<T>(s: seq<T>, i: int, x: T): (r: seq<T>)
    requires 0 <= i <= |s|
    ensures |r| == |s| + 1 && r[i] == x
    ensures forall k :: 0 <= k < |r| && k != i ==> r[k] == if k < i then s[k] else s[k - 1]
  {
    s[..i] + [x] + s[i..]
  }

  /** The strip after a tab is dragged from position `from` to position `to`. */
  function MoveItem<T>(s: seq<T>, from: int, to: int): seq<T>
    requires 0 <= from < |s| && 0 <= to < |s|
  {
    InsertAt(RemoveAt(s, from), to, s[from])
  }

  /**
   * The card layout remembers its visible item by identity: removing it leaves no
   * visible item (-1), removing an item before it moves its index down by one.
   */
  function VisibleAfterRemove(visible: int, index: int): int
  {
    if visible == index then -1 else if 0 <= index < visible then visible - 1 else visible
  }

  /** Inserting an item at or before the visible one moves its index up by one. */
  function VisibleAfterInsert(visible: int, index: int): int
  {
    if 0 <= visible && index <= visible then visible + 1 else visible
  }

  // ---------------------------------------------------------------------------
  // Lemmas on the specification functions

  /** "Close all" names every tab exactly once, from the last to the first. */
  lemma {:induction false} CountdownCoversAll(count: nat)
    ensures StrictlyDecreasing(Countdown(count, 0))
    ensures forall x :: x in Countdown(count, 0) <==> 0 <= x < count
  {
    var r := Countdown(count, 0);
    forall x | 0 <= x < count ensures x in r {
      assert r[count - 1 - x] == x;
    }
  }

  /** With nothing to skip in range, "Close other" names the same tabs as "Close all". */
  lemma {:induction false} CountdownExceptOutOfRange(hi: int, lo: int, skip: int)
    requires !(lo <= skip < hi)
    ensures CountdownExcept(hi, lo, skip) == Countdown(hi, lo)
    decreases hi - lo
  {
    if hi > lo {
      CountdownExceptOutOfRange(hi - 1, lo, skip);
    }
  }

  /** Extending the countdown by one more value at the bottom. */
  lemma {:induction false} CountdownExceptExtend(hi: int, lo: int, skip: int)
    requires lo < hi
    ensures CountdownExcept(hi, lo, skip)
         == CountdownExcept(hi, lo + 1, skip) + (if lo == skip then [] else [lo])
    decreases hi - lo
  {
    if hi - 1 > lo {
      CountdownExceptExtend(hi - 1, lo, skip);
    }
  }

  /** A moved tab keeps its view, label and colour and lands at `to`. */
  lemma MoveItemPlacesEntry<T>(s: seq<T>, from: int, to: int)
    requires 0 <= from < |s| && 0 <= to < |s|
    ensures |MoveItem(s, from, to)| == |s|
    ensures MoveItem(s, from, to)[to] == s[from]
  {
  }

  /** The other tabs keep their relative order. */
  lemma MoveItemKeepsOthersInOrder<T>(s: seq<T>, from: int, to: int)
    requires 0 <= from < |s| && 0 <= to < |s|
    ensures RemoveAt(MoveItem(s, from, to), to) == RemoveAt(s, from)
  {
    var m, r := MoveItem(s, from, to), RemoveAt(s, from);
    assert RemoveAt(m, to) == r by {
      forall k | 0 <= k < |r| ensures RemoveAt(m, to)[k] == r[k] {
        if k < to {
        } else {
          assert m[k + 1] == r[k];
        }
      }
    }
  }

  /** Moving rearranges the strip: no tab is lost and none is added. */
  lemma MoveItemPermutes<T>(s: seq<T>, from: int, to: int)
    requires 0 <= from < |s| && 0 <= to < |s|
    ensures multiset(MoveItem(s, from, to)) == multiset(s)
  {
    var r := RemoveAt(s, from);
    calc {
      multiset(MoveItem(s, from, to));
      { assert MoveItem(s, from, to) == r[..to] + [s[from]] + r[to..]; }
      multiset(r[..to]) + multiset{s[from]} + multiset(r[to..]);
      { assert r == r[..to] + r[to..]; }
      multiset(r) + multiset{s[from]};
      { assert r == s[..from] + s[from + 1..]; assert s == s[..from] + [s[from]] + s[from + 1..]; }
      multiset(s);
    }
  }

  /** Dragging a tab back to where it came from restores the strip. */
  lemma MoveItemUndo<T>(s: seq<T>, from: int, to: int)
    requires 0 <= from < |s| && 0 <= to < |s|
    ensures MoveItem(MoveItem(s, from, to), to, from) == s
  {
    var m := MoveItem(s, from, to);
    MoveItemPlacesEntry(s, from, to);
    MoveItemKeepsOthersInOrder(s, from, to);
    var back := MoveItem(m, to, from);
    assert RemoveAt(m, to) == RemoveAt(s, from);
    forall k | 0 <= k < |s| ensures back[k] == s[k] {
      if k != from {
        assert back[k] == RemoveAt(s, from)[if k < from then k else k - 1];
      }
    }
  }

  // ---------------------------------------------------------------------------
  // The tab manager

  /**
   * `TabManager`: the tabs, the card layout's visible index, the messages sent
   * to the target and the controller that handles the tab menu.
   */
  class TabManager {
    var tabs: seq<Tab>
    /** `fCardLayout->VisibleIndex()`: -1 when no item is visible. */
    var visible: int
    /** Messages sent to `fTarget`, oldest first. */
    var outbox: seq<TargetMessage>
    /** Requests to redraw the tab container view. */
    var repaints: nat
    var controller: TabManagerController?
    /** The panel background, the colour a new tab starts with. */
    const panelBackground: RgbColor

    ghost predicate Valid()
      reads this, controller
    {
      controller != null && controller.manager == this && -1 <= visible < |tabs|
    }

    constructor (panelBackground: RgbColor)
      ensures Valid() && fresh(controller)
      ensures tabs == [] && visible == -1 && outbox == [] && repaints == 0
      ensures this.panelBackground == panelBackground && controller.CloseButtonsAvailable()
    {
      tabs, visible, outbox, repaints := [], -1, [], 0;
      this.panelBackground := panelBackground;
      controller := null;
      new;
      controller := new TabManagerController(this);
    }

    function CountTabs(): (n: nat)
      reads this
      ensures n == |tabs|
    {
      |tabs|
    }

    /** `ViewForTab`: the view of the tab at `tabIndex`, or None (NULL) when there is no such tab. */
    function ViewForTab(tabIndex: int): (r: Option<ViewId>)
      reads this
      ensures r.Some? <==> 0 <= tabIndex < |tabs|
      ensures r.Some? ==> r.value == tabs[tabIndex].view
    {
      if 0 <= tabIndex < |tabs| then Some(tabs[tabIndex].view) else None
    }

    /** `TabLabel`: the label of the tab at `tabIndex`, or the empty string when there is no such tab. */
    function TabLabel(tabIndex: int): (r: string)
      reads this
      ensures 0 <= tabIndex < |tabs| ==> r == tabs[tabIndex].caption
      ensures !(0 <= tabIndex < |tabs|) ==> r == ""
    {
      if 0 <= tabIndex < |tabs| then tabs[tabIndex].caption else ""
    }

    /** `TabForView`: the first tab showing `containedView`, or -1. */
    method TabForView(containedView: ViewId) returns (index: int)
      ensures index == FirstIndexOf(tabs, containedView)
    {
      var count := |tabs|;
      var i := 0;
      while i < count
        invariant 0 <= i <= count
        invariant forall j :: 0 <= j < i ==> tabs[j].view != containedView
      {
        if tabs[i].view == containedView {
          return i;
        }
        i := i + 1;
      }
      return -1;
    }

    /** `HasView`: whether some tab shows `containedView`. */
    method HasView(containedView: ViewId) returns (has: bool)
      ensures has <==> exists i :: 0 <= i < |tabs| && tabs[i].view == containedView
    {
      var index := TabForView(containedView);
      has := index >= 0;
    }

    /**
     * `SelectTab(int32)`: the tab container selects the tab, which calls back
     * `TabSelected`, which shows the card (`DisplayTab`) and tells the target.
     * The container is not part of this model; selecting an index it does not
     * hold is taken to do nothing.
     */
    method SelectTab(tabIndex: int)
      requires Valid()
      modifies this`visible, this`outbox
      ensures Valid()
      ensures 0 <= tabIndex < |tabs| ==> visible == tabIndex && outbox == old(outbox) + [TabSelected(tabIndex)]
      ensures !(0 <= tabIndex < |tabs|) ==> visible == old(visible) && outbox == old(outbox)
    {
      if 0 <= tabIndex < |tabs| {
        visible := tabIndex;
        outbox := outbox + [TabSelected(tabIndex)];
      }
    }

    /** `SelectTab(const BView*)`: selects the first tab showing the view, if there is one. */
    method SelectTabOfView(containedView: ViewId)
      requires Valid()
      modifies this`visible, this`outbox
      ensures Valid()
      ensures var i := FirstIndexOf(tabs, containedView);
        if i >= 0 then visible == i && outbox == old(outbox) + [TabSelected(i)]
        else visible == old(visible) && outbox == old(outbox)
    {
      var tabIndex := TabForView(containedView);
      if tabIndex >= 0 {
        SelectTab(tabIndex);
      }
    }

    /** `SelectedTabIndex`: the visible index, or out_of_range when it is not below the tab count. */
    function SelectedTabIndex(): (r: Result<int, OutOfRange>)
      reads this
      ensures r.Failure? <==> visible >= |tabs|
      ensures r.Success? ==> r.value == visible
    {
      if visible >= |tabs| then Failure(OutOfRange("Overflown index")) else Success(visible)
    }

    /** `CloseTabs`: one TABMANAGER_TAB_CLOSE_MULTI message with `tabIndex[0..size)`, in order. */
    method CloseTabs(tabIndex: array<int>, size: int)
      requires 0 <= size <= tabIndex.Length
      modifies this`outbox
      ensures outbox == old(outbox) + [TabCloseMulti(tabIndex[..size])]
    {
      var indices: seq<int> := [];
      for i := 0 to size
        invariant indices == tabIndex[..i]
      {
        indices := indices + [tabIndex[i]];
      }
      outbox := outbox + [TabCloseMulti(indices)];
    }

    /** `AddTab`: a tab for `view` with `label` and the panel colour at `index`; the target is told. */
    method AddTab(view: ViewId, caption: string, index: int)
      requires Valid() && 0 <= index <= |tabs|
      modifies this`tabs, this`visible, this`outbox
      ensures Valid()
      ensures tabs == InsertAt(old(tabs), index, Tab(view, caption, panelBackground))
      ensures visible == VisibleAfterInsert(old(visible), index)
      ensures outbox == old(outbox) + [TabNewOpened(index)]
    {
      tabs := InsertAt(tabs, index, Tab(view, caption, panelBackground));
      visible := VisibleAfterInsert(visible, index);
      outbox := outbox + [TabNewOpened(index)];
    }

    /**
     * `RemoveTab`: removes the tab at `index` and returns its view; an index
     * with no tab returns None (NULL) and changes nothing.
     */
    method RemoveTab(index: int) returns (view: Option<ViewId>)
      requires Valid()
      modifies this`tabs, this`visible
      ensures Valid()
      ensures !(0 <= index < old(|tabs|)) ==> view == None && tabs == old(tabs) && visible == old(visible)
      ensures 0 <= index < old(|tabs|) ==>
        && view == Some(old(tabs)[index].view)
        && tabs == RemoveAt(old(tabs), index)
        && visible == VisibleAfterRemove(old(visible), index)
    {
      if !(0 <= index < |tabs|) {
        return None;
      }
      var item := tabs[index];
      tabs := RemoveAt(tabs, index);
      visible := VisibleAfterRemove(visible, index);
      view := Some(item.view);
    }

    /**
     * `MoveTabs`: removes the tab at `from` and inserts it again at `to` with the
     * same view, label and colour; then `to` is selected.
     */
    method MoveTabs(from: int, to: int)
      requires Valid() && 0 <= from < |tabs| && 0 <= to < |tabs|
      modifies this`tabs, this`visible, this`outbox
      ensures Valid()
      ensures tabs == MoveItem(old(tabs), from, to)
      ensures visible == to && SelectedTabIndex() == Success(to)
      ensures outbox == old(outbox) + [TabSelected(to)]
    {
      ghost var before := tabs;
      var color := tabs[from].color;
      var fromLabel := TabLabel(from);
      var view := RemoveTab(from);
      tabs := InsertAt(tabs, to, Tab(view.value, fromLabel, panelBackground));
      visible := VisibleAfterInsert(visible, to);
      tabs := tabs[to := tabs[to].(color := color)];
      assert tabs == MoveItem(before, from, to);
      SelectTab(to);
    }

    /** `SetCloseButtonsAvailable`: records the setting and redraws only when it changes. */
    method SetCloseButtonsAvailable(available: bool)
      requires Valid()
      modifies controller`closeButtonsAvailable, this`repaints
      ensures Valid() && controller.CloseButtonsAvailable() == available
      ensures repaints == old(repaints) + (if available == old(controller.CloseButtonsAvailable()) then 0 else 1)
    {
      if available == controller.CloseButtonsAvailable() {
        return;
      }
      controller.SetCloseButtonsAvailable(available);
      repaints := repaints + 1;
    }
  }

  /** `TabManagerController`: turns the tab menu's messages into close requests. */
  class TabManagerController {
    const manager: TabManager
    var closeButtonsAvailable: bool

    constructor (manager: TabManager)
      ensures this.manager == manager && CloseButtonsAvailable()
    {
      this.manager := manager;
      closeButtonsAvailable := true;
    }

    /** `SetCloseButtonsAvailable`: records the setting; reading it back gives `available`. */
    method SetCloseButtonsAvailable(available: bool)
      modifies this`closeButtonsAvailable
      ensures CloseButtonsAvailable() == available
    {
      closeButtonsAvailable := available;
    }

    /** `CloseTab`: a close request for the one tab `index`. */
    method CloseTab(index: int)
      modifies manager`outbox
      ensures manager.outbox == old(manager.outbox) + [TabCloseMulti([index])]
    {
      var one := new int[1];
      one[0] := index;
      assert one[..1] == [index];
      manager.CloseTabs(one, 1);
    }

    /** `MoveTabs`: forwards a tab drag to the manager. */
    method MoveTabs(fromIndex: int, toIndex: int)
      requires manager.Valid() && 0 <= fromIndex < |manager.tabs| && 0 <= toIndex < |manager.tabs|
      modifies manager`tabs, manager`visible, manager`outbox
      ensures manager.Valid()
      ensures manager.tabs == MoveItem(old(manager.tabs), fromIndex, toIndex)
      ensures manager.visible == toIndex
      ensures manager.outbox == old(manager.outbox) + [TabSelected(toIndex)]
    {
      manager.MoveTabs(fromIndex, toIndex);
    }

    /**
     * `HandleTabMenuAction`: "Close" closes the tab named in the message, "Close all"
     * every tab from the last to the first, "Close other" every tab but the named
     * one from the last to the first; without a "tab_index", "Close" and "Close
     * other" close nothing.
     */
    method HandleTabMenuAction(message: TabMenuAction)
      modifies manager`outbox
      ensures message.CloseTab? && message.tabIndex.Some? ==>
        manager.outbox == old(manager.outbox) + [TabCloseMulti([message.tabIndex.value])]
      ensures message.CloseTabsAll? ==>
        manager.outbox == old(manager.outbox) + [TabCloseMulti(Countdown(|manager.tabs|, 0))]
      ensures message.CloseTabsOther? && message.tabIndex.Some? ==>
        manager.outbox == old(manager.outbox)
          + [TabCloseMulti(CountdownExcept(|manager.tabs|, 0, message.tabIndex.value))]
      ensures (message.CloseTab? || message.CloseTabsOther?) && message.tabIndex.None? ==>
        manager.outbox == old(manager.outbox)
      ensures message.OtherAction? ==> manager.outbox == old(manager.outbox)
    {
      match message {
        case CloseTab(tabIndex) =>
          if tabIndex.Some? {
            var index := new int[1];
            index[0] := tabIndex.value;
            assert index[..1] == [tabIndex.value];
            manager.CloseTabs(index, 1);
          }
        case CloseTabsAll =>
          var count: int := manager.CountTabs();
          var tabsToClose := new int[count];
          var added := 0;
          var i := count - 1;
          while i >= 0
            modifies tabsToClose
            invariant -1 <= i < count
            invariant added == count - 1 - i
            invariant forall k :: 0 <= k < added ==> tabsToClose[k] == count - 1 - k
          {
            tabsToClose[added] := i;
            added := added + 1;
            i := i - 1;
          }
          assert tabsToClose[..added] == Countdown(count, 0);
          manager.CloseTabs(tabsToClose, added);
        case CloseTabsOther(tabIndex) =>
          var count: int := manager.CountTabs();
          var tabsToClose := new int[count];
          var added := 0;
          if tabIndex.Some? {
            var index := tabIndex.value;
            var i := count - 1;
            while i >= 0
              modifies tabsToClose
              invariant -1 <= i < count
              invariant added <= count - 1 - i
              invariant tabsToClose[..added] == CountdownExcept(count, i + 1, index)
            {
              CountdownExceptExtend(count, i, index);
              if i != index {
                tabsToClose[added] := i;
                added := added + 1;
              }
              i := i - 1;
            }
            manager.CloseTabs(tabsToClose, added);
          }
        case OtherAction =>
      }
    }

    /** `CloseButtonsAvailable`: the setting last recorded, true for a new controller. */
    function CloseButtonsAvailable(): (r: bool)
      reads this
      ensures r <==> closeButtonsAvailable
    {
      closeButtonsAvailable
    }
  }

  /**
   * `TabMenuTabButton`: the button that opens the tab menu. A click opens the
   * menu only when the button is enabled, not already down, and at least one
   * click interval has passed since the menu last closed.
   */
  class TabMenuTabButton {
    var enabled: bool
    /** `Value() == B_CONTROL_ON`: the menu is open. */
    var on: bool
    /** `fCloseTime`: when the menu last closed (microseconds). */
    var closeTime: int
    /** How many times the button invoked its MSG_OPEN_TAB_MENU message. */
    var invocations: nat

    constructor ()
      ensures enabled && !on && closeTime == 0 && invocations == 0
    {
      enabled, on, closeTime, invocations := true, false, 0, 0;
    }

    /** Whether a click at `clickTime` opens the menu, given the system's double-click interval. */
    function OpensMenu(clickTime: int, clickSpeed: int): (r: bool)
      reads this
      ensures !enabled || on ==> !r
      ensures enabled && !on ==> (r <==> clickTime - closeTime >= clickSpeed)
    {
      !(!enabled || on || clickTime < closeTime + clickSpeed)
    }

    /** A click that would open the menu still opens it when it comes later. */
    lemma LaterClickOpens(clickTime: int, later: int, clickSpeed: int)
      requires OpensMenu(clickTime, clickSpeed) && clickTime <= later
      ensures OpensMenu(later, clickSpeed)
    {
    }

    /** `MouseDown`: the click time and the click interval come from the window's message and the system. */
    method MouseDown(clickTime: int, clickSpeed: int)
      modifies this`on, this`invocations
      ensures var fired := old(enabled && !on && clickTime >= closeTime + clickSpeed);
        && invocations == old(invocations) + (if fired then 1 else 0)
        && on == (old(on) || fired)
    {
      if !OpensMenu(clickTime, clickSpeed) {
        return;
      }
      invocations := invocations + 1;
      on := true;
    }

    /** `MenuClosed`: the button comes up and remembers when the menu closed. */
    method MenuClosed(now: int)
      modifies this`closeTime, this`on
      ensures closeTime == now && !on
      ensures forall t, speed :: t < now + speed ==> !OpensMenu(t, speed)
    {
      closeTime := now;
      on := false;
    }
  }
}
