/**
 * The data panel: the data browser controller that holds the current data group,
 * filter and data item; the list and grid controllers that mirror the filtered data
 * items; the library items with their counted titles; the data group tree's index
 * lookup and flat count; and the panel's handlers that connect them.
 *
 * Events and calls into collaborators (the document controller, the widgets) are
 * recorded in logs; every method is atomic.
 */
module DataPanel {
  import opened Wrappers

  /** A data item; only its identity and its category matter here. */
  datatype DataItem = DataItem(id: nat, category: string)

  datatype DataGroup = DataGroup(id: nat)

  /** A display item wraps one data item. */
  datatype DisplayItem = DisplayItem(id: nat, dataItem: DataItem)

  // ---------------------------------------------------------------------------
  // Data browser controller
  // ---------------------------------------------------------------------------

  /** What the controller fires or asks of the document controller, in order. */
  datatype BrowserEvent =
    | GroupOrFilterSet(group: Option<DataGroup>, filterId: Option<string>)
    | Periodic
    | FilterChanged(group: Option<DataGroup>, filterId: Option<string>)
    | SelectionChanged(item: Option<DataItem>)
    | SelectedDataItemNotified(item: Option<DataItem>)

  datatype Browser = Browser(
    focused: bool,
    dataGroup: Option<DataGroup>,
    dataItem: Option<DataItem>,
    filterId: Option<string>,
    selected: seq<DisplayItem>,
    blocked: bool,
    events: seq<BrowserEvent>)

  /** Which event listener, if any, raises an exception while an event fires. */
  datatype Fault = NoFault | FilterListenerRaises | SelectionListenerRaises

  /** The state after a call and whether the call ended by raising. */
  datatype Outcome = Outcome(after: Browser, raised: bool)

  /** A temporary data item forces the "temporary" filter; otherwise the filter given. */
  function EffectiveFilter(item: Option<DataItem>, filterId: Option<string>): Option<string> {
    if item.Some? && item.value.category == "temporary" then Some("temporary") else filterId
  }

  /** `set_data_browser_selection`. The re-entry guard is set for the duration of the
      call and reset afterwards, also when a listener raises. */
  function AfterSelect(b: Browser, group: Option<DataGroup>, item: Option<DataItem>,
                       filterId: Option<string>, fault: Fault): Outcome
  {
    if b.blocked then Outcome(b, false)
    else
      var f := EffectiveFilter(item, filterId);
      var filterChanged := group != b.dataGroup || f != b.filterId;
      var b1 := if filterChanged
        then b.(dataGroup := group, filterId := f,
                events := b.events + [GroupOrFilterSet(group, f), Periodic, FilterChanged(group, f)])
        else b;
      if filterChanged && fault == FilterListenerRaises then Outcome(b1, true)
      else
        var trigger := filterChanged || b1.dataItem != item;
        var b2 := b1.(dataItem := item);
        if trigger then Outcome(b2.(events := b2.events + [SelectionChanged(item)]), fault == SelectionListenerRaises)
        else Outcome(b2, false)
  }

  /** The events a call appended to the log. */
  function NewEvents(before: Browser, after: Browser): seq<BrowserEvent>
    requires |before.events| <= |after.events|
  {
    after.events[|before.events|..]
  }

  lemma SelectOnlyAppends(b: Browser, group: Option<DataGroup>, item: Option<DataItem>,
                          filterId: Option<string>, fault: Fault)
    ensures b.events <= AfterSelect(b, group, item, filterId, fault).after.events
    ensures AfterSelect(b, group, item, filterId, fault).after.blocked == b.blocked
  {
  }

  /** A call made while the guard is set changes nothing and fires nothing. */
  lemma BlockedCallChangesNothing(b: Browser, group: Option<DataGroup>, item: Option<DataItem>,
                                  filterId: Option<string>, fault: Fault)
    requires b.blocked
    ensures AfterSelect(b, group, item, filterId, fault) == Outcome(b, false)
  {
  }

  /** A temporary data item always ends up under the "temporary" filter. */
  lemma TemporaryItemForcesFilter(b: Browser, group: Option<DataGroup>, item: DataItem,
                                  filterId: Option<string>, fault: Fault)
    requires !b.blocked && item.category == "temporary"
    ensures AfterSelect(b, group, Some(item), filterId, fault).after.filterId == Some("temporary")
  {
  }

  /** The events one unguarded call fires, in order. */
  function Fired(b: Browser, group: Option<DataGroup>, item: Option<DataItem>,
                 filterId: Option<string>, fault: Fault): seq<BrowserEvent>
  {
    var f := EffectiveFilter(item, filterId);
    var filterChanged := group != b.dataGroup || f != b.filterId;
    (if filterChanged then [GroupOrFilterSet(group, f), Periodic, FilterChanged(group, f)] else [])
    + (if !(filterChanged && fault == FilterListenerRaises) && (filterChanged || b.dataItem != item)
       then [SelectionChanged(item)] else [])
  }

  lemma SelectFires(b: Browser, group: Option<DataGroup>, item: Option<DataItem>,
                    filterId: Option<string>, fault: Fault)
    requires !b.blocked
    ensures var o := AfterSelect(b, group, item, filterId, fault);
      b.events <= o.after.events && NewEvents(b, o.after) == Fired(b, group, item, filterId, fault)
  {
  }

  /** The filter-changed event is among the fired events once, exactly when the group or
      filter differed, and never with other arguments. */
  lemma FiredFilterOnce(b: Browser, group: Option<DataGroup>, item: Option<DataItem>,
                        filterId: Option<string>, fault: Fault)
    ensures var f := EffectiveFilter(item, filterId);
      var fired := Fired(b, group, item, filterId, fault);
      && (forall e :: e in fired && e.FilterChanged? ==> e == FilterChanged(group, f))
      && multiset(fired)[FilterChanged(group, f)] == (if group != b.dataGroup || f != b.filterId then 1 else 0)
  {
    var f := EffectiveFilter(item, filterId);
    var head: seq<BrowserEvent> := if group != b.dataGroup || f != b.filterId
      then [GroupOrFilterSet(group, f), Periodic, FilterChanged(group, f)] else [];
    var tail: seq<BrowserEvent> := Fired(b, group, item, filterId, fault)[|head|..];
    assert Fired(b, group, item, filterId, fault) == head + tail;
    assert tail == [] || tail == [SelectionChanged(item)];
    assert multiset(tail)[FilterChanged(group, f)] == 0;
  }

  /** The selection-changed event is among the fired events at most once, with the item,
      exactly when the filter or the item changed and the filter listener did not raise. */
  lemma FiredSelectionOnce(b: Browser, group: Option<DataGroup>, item: Option<DataItem>,
                           filterId: Option<string>, fault: Fault)
    ensures var f := EffectiveFilter(item, filterId);
      var filterChanged := group != b.dataGroup || f != b.filterId;
      var fired := Fired(b, group, item, filterId, fault);
      && (forall e :: e in fired && e.SelectionChanged? ==> e == SelectionChanged(item))
      && multiset(fired)[SelectionChanged(item)] ==
           (if !(filterChanged && fault == FilterListenerRaises) && (filterChanged || b.dataItem != item) then 1 else 0)
  {
    var f := EffectiveFilter(item, filterId);
    var head: seq<BrowserEvent> := if group != b.dataGroup || f != b.filterId
      then [GroupOrFilterSet(group, f), Periodic, FilterChanged(group, f)] else [];
    var tail: seq<BrowserEvent> := Fired(b, group, item, filterId, fault)[|head|..];
    assert Fired(b, group, item, filterId, fault) == head + tail;
    assert multiset(head)[SelectionChanged(item)] == 0;
  }

  /** The stored group and filter become the requested ones, and the filter-changed
      event fires exactly once, with them, exactly when either differed. */
  lemma FilterEventIffChanged(b: Browser, group: Option<DataGroup>, item: Option<DataItem>,
                              filterId: Option<string>, fault: Fault)
    requires !b.blocked
    ensures var o := AfterSelect(b, group, item, filterId, fault);
      var f := EffectiveFilter(item, filterId);
      && b.events <= o.after.events
      && o.after.dataGroup == group && o.after.filterId == f
      && (forall e :: e in NewEvents(b, o.after) && e.FilterChanged? ==> e == FilterChanged(group, f))
      && multiset(NewEvents(b, o.after))[FilterChanged(group, f)] == (if group != b.dataGroup || f != b.filterId then 1 else 0)
  {
    SelectFires(b, group, item, filterId, fault);
    FiredFilterOnce(b, group, item, filterId, fault);
  }

  /** Unless the filter listener raised first, the selection-changed event fires at
      most once, with the requested item, exactly when the filter or the item changed;
      the stored item becomes the requested one. */
  lemma SelectionEventIffTriggered(b: Browser, group: Option<DataGroup>, item: Option<DataItem>,
                                   filterId: Option<string>, fault: Fault)
    requires !b.blocked
    ensures var o := AfterSelect(b, group, item, filterId, fault);
      var f := EffectiveFilter(item, filterId);
      var filterChanged := group != b.dataGroup || f != b.filterId;
      && b.events <= o.after.events
      && (forall e :: e in NewEvents(b, o.after) && e.SelectionChanged? ==> e == SelectionChanged(item))
      && (filterChanged && fault == FilterListenerRaises ==>
            o.raised && o.after.dataItem == b.dataItem && multiset(NewEvents(b, o.after))[SelectionChanged(item)] == 0)
      && (!(filterChanged && fault == FilterListenerRaises) ==>
            && o.after.dataItem == item
            && multiset(NewEvents(b, o.after))[SelectionChanged(item)] == (if filterChanged || b.dataItem != item then 1 else 0)
            && o.raised == (fault == SelectionListenerRaises && (filterChanged || b.dataItem != item)))
  {
    SelectFires(b, group, item, filterId, fault);
    FiredSelectionOnce(b, group, item, filterId, fault);
  }

  /** `selected_display_items_changed`: one display item selects its data item, none
      clears the data item, several leave the browser selection alone; the focused
      controller then notifies the document controller and the display items are kept. */
  function AfterSelectedDisplayItemsChanged(b: Browser, items: seq<DisplayItem>, fault: Fault): Outcome {
    var item := if |items| == 1 then Some(items[0].dataItem) else None;
    var o := if |items| <= 1 then AfterSelect(b, b.dataGroup, item, b.filterId, fault) else Outcome(b, false);
    if o.raised then o
    else
      var b1 := if o.after.focused
        then o.after.(events := o.after.events + [SelectedDataItemNotified(item)])
        else o.after;
      Outcome(b1.(selected := items), false)
  }

  /** `focused`: gaining focus tells the document controller the current data item. */
  function AfterSetFocused(b: Browser, focused: bool): Browser {
    var b1 := if focused then b.(events := b.events + [SelectedDataItemNotified(b.dataItem)]) else b;
    b1.(focused := focused)
  }

  /** `data_item`: the data item, visible only while the browser has focus. */
  function VisibleDataItem(b: Browser): Option<DataItem> {
    if b.focused then b.dataItem else None
  }

  /** `selected_data_items`: the selected display items' data items, only while focused. */
  function VisibleSelectedDataItems(b: Browser): seq<DataItem> {
    if b.focused then seq(|b.selected|, i requires 0 <= i < |b.selected| => b.selected[i].dataItem) else []
  }

  /** Selecting one display item in a focused, unguarded browser whose data group and filter
      stay as they are makes its data item the visible one, notifies it, and exposes
      exactly that item as the selected data items. */
  lemma SingleSelectionIsVisible(b: Browser, d: DisplayItem)
    requires b.focused && !b.blocked
    requires EffectiveFilter(Some(d.dataItem), b.filterId) == b.filterId
    ensures var o := AfterSelectedDisplayItemsChanged(b, [d], NoFault);
      && !o.raised
      && VisibleDataItem(o.after) == Some(d.dataItem)
      && VisibleSelectedDataItems(o.after) == [d.dataItem]
      && o.after.events[|o.after.events| - 1] == SelectedDataItemNotified(Some(d.dataItem))
      && o.after.dataGroup == b.dataGroup && o.after.filterId == b.filterId
  {
  }

  /** Several selected display items leave the browser's group, filter and item alone;
      no display item clears the item. */
  lemma MultipleSelectionKeepsItem(b: Browser, items: seq<DisplayItem>, fault: Fault)
    ensures var o := AfterSelectedDisplayItemsChanged(b, items, fault);
      && (|items| > 1 ==>
            (!o.raised && o.after.dataItem == b.dataItem
             && o.after.dataGroup == b.dataGroup && o.after.filterId == b.filterId && o.after.selected == items))
      && (|items| == 0 && !b.blocked && !o.raised ==> o.after.dataItem == None && o.after.selected == [])
  {
  }

  class DataBrowserController {
    var focused: bool
    var dataGroup: Option<DataGroup>
    var dataItem: Option<DataItem>
    var filterId: Option<string>
    var selected: seq<DisplayItem>
    var blocked: bool
    var events: seq<BrowserEvent>

    ghost function Snap(): Browser
      reads this
    {
      Browser(focused, dataGroup, dataItem, filterId, selected, blocked, events)
    }

    /** Starts unfocused with nothing selected, and resets the document controller's
        data group and filter. */
    constructor ()
      ensures Snap() == Browser(false, None, None, None, [], false, [GroupOrFilterSet(None, None)])
    {
      focused := false;
      dataGroup := None;
      dataItem := None;
      filterId := None;
      selected := [];
      blocked := false;
      events := [GroupOrFilterSet(None, None)];
    }

    method SetFocused(f: bool)
      modifies this
      ensures Snap() == AfterSetFocused(old(Snap()), f)
    {
      if f {
        events := events + [SelectedDataItemNotified(dataItem)];
      }
      focused := f;
    }

    method SetDataBrowserSelection(group: Option<DataGroup>, item: Option<DataItem>,
                                   filter: Option<string>, fault: Fault) returns (raised: bool)
      modifies this
      ensures Snap() == AfterSelect(old(Snap()), group, item, filter, fault).after
      ensures raised == AfterSelect(old(Snap()), group, item, filter, fault).raised
    {
      raised := false;
      if !blocked {
        blocked := true;
        var trigger := false;
        var f := EffectiveFilter(item, filter);
        if group != dataGroup || f != filterId {
          dataGroup := group;
          filterId := f;
          events := events + [GroupOrFilterSet(group, f), Periodic, FilterChanged(group, f)];
          raised := fault == FilterListenerRaises;
          trigger := true;
        }
        if !raised {
          if dataItem != item {
            dataItem := item;
            trigger := true;
          }
          if trigger {
            events := events + [SelectionChanged(item)];
            raised := fault == SelectionListenerRaises;
          }
        }
        blocked := false;
      }
    }

    method SelectedDisplayItemsChanged(items: seq<DisplayItem>, fault: Fault) returns (raised: bool)
      modifies this
      ensures Snap() == AfterSelectedDisplayItemsChanged(old(Snap()), items, fault).after
      ensures raised == AfterSelectedDisplayItemsChanged(old(Snap()), items, fault).raised
    {
      var item: Option<DataItem> := None;
      raised := false;
      if |items| == 0 {
        raised := SetDataBrowserSelection(dataGroup, None, filterId, fault);
      } else if |items| == 1 {
        item := Some(items[0].dataItem);
        raised := SetDataBrowserSelection(dataGroup, item, filterId, fault);
      }
      if !raised {
        if focused {
          events := events + [SelectedDataItemNotified(item)];
        }
        selected := items;
      }
    }

    method GetDataItem() returns (r: Option<DataItem>)
      ensures r == VisibleDataItem(Snap())
      ensures r.Some? ==> focused && r == dataItem
    {
      r := if focused then dataItem else None;
    }

    method GetSelectedDataItems() returns (r: seq<DataItem>)
      ensures r == VisibleSelectedDataItems(Snap())
      ensures focused ==> |r| == |selected| && forall i :: 0 <= i < |r| ==> r[i] == selected[i].dataItem
      ensures !focused ==> r == []
    {
      r := [];
      if focused {
        var i := 0;
        while i < |selected|
          invariant 0 <= i <= |selected|
          invariant |r| == i && forall k :: 0 <= k < i ==> r[k] == selected[k].dataItem
        {
          r := r + [selected[i].dataItem];
          i := i + 1;
        }
      }
    }
  }

  // ---------------------------------------------------------------------------
  // List and grid controllers
  // ---------------------------------------------------------------------------

  /** A needs-update listener registered on one display item. */
  datatype Listener = Listener(source: DisplayItem)

  /** Where Python's `list.insert(i, x)` puts `x` in a list of length `n`. */
  function InsertIndex(i: int, n: nat): (k: nat)
    ensures k <= n
    ensures 0 <= i <= n ==> k == i
  {
    if i < 0 then (if i + n < 0 then 0 else i + n) else if i > n then n else i
  }

  /** Python's `list.insert`. */
  function InsertAt<T>(s: seq<T>, i: int, x: T): (r: seq<T>)
    ensures |r| == |s| + 1
    ensures r[InsertIndex(i, |s|)] == x
  {
    var k := InsertIndex(i, |s|);
    s[..k] + [x] + s[k..]
  }

  /** The position Python's `del s[i]` deletes, for `-len(s) <= i < len(s)`. */
  function DeleteIndex(i: int, n: nat): (k: nat)
    requires i < n && 0 <= i + n
    ensures k < n
  {
    if i < 0 then i + n else i
  }

  /** Python's `del s[i]`. */
  function DeleteAt<T>(s: seq<T>, i: int): (r: seq<T>)
    requires -|s| <= i < |s|
    ensures |r| == |s| - 1
  {
    var k := DeleteIndex(i, |s|);
    s[..k] + s[k + 1..]
  }

  /** Deleting at the position an insertion used restores the list. */
  lemma DeleteUndoesInsert<T>(s: seq<T>, i: int, x: T)
    ensures DeleteAt(InsertAt(s, i, x), InsertIndex(i, |s|)) == s
  {
    var k := InsertIndex(i, |s|);
    var t := InsertAt(s, i, x);
    assert t[..k] == s[..k];
    assert t[k + 1..] == s[k..];
    assert s == s[..k] + s[k..];
  }

  /** Element `j` of a list after an insertion. */
  lemma InsertAtIndex<T>(s: seq<T>, i: int, x: T, j: nat)
    requires j < |s| + 1
    ensures var k := InsertIndex(i, |s|);
      InsertAt(s, i, x)[j] == if j < k then s[j] else if j == k then x else s[j - 1]
  {
  }

  /** Listener `i` listens to display item `i`. */
  ghost predicate Aligned(items: seq<DisplayItem>, listeners: seq<Listener>) {
    |items| == |listeners| && forall i :: 0 <= i < |items| ==> listeners[i].source == items[i]
  }

  lemma {:induction false} InsertKeepsAligned(items: seq<DisplayItem>, listeners: seq<Listener>, i: int, d: DisplayItem)
    requires Aligned(items, listeners)
    ensures Aligned(InsertAt(items, i, d), InsertAt(listeners, i, Listener(d)))
  {
    var items' := InsertAt(items, i, d);
    var listeners' := InsertAt(listeners, i, Listener(d));
    forall j | 0 <= j < |items'| ensures listeners'[j].source == items'[j] {
      InsertAtIndex(items, i, d, j);
      InsertAtIndex(listeners, i, Listener(d), j);
    }
  }

  lemma {:induction false} DeleteKeepsAligned(items: seq<DisplayItem>, listeners: seq<Listener>, i: int)
    requires Aligned(items, listeners) && -|items| <= i < |items|
    ensures Aligned(DeleteAt(items, i), DeleteAt(listeners, i))
    ensures listeners[DeleteIndex(i, |items|)].source == items[DeleteIndex(i, |items|)]
  {
    var k := DeleteIndex(i, |items|);
    var items' := DeleteAt(items, i);
    var listeners' := DeleteAt(listeners, i);
    forall j | 0 <= j < |items'| ensures listeners'[j].source == items'[j] {
      if j < k {
        assert items'[j] == items[j] && listeners'[j] == listeners[j];
      } else {
        assert items'[j] == items[j + 1] && listeners'[j] == listeners[j + 1];
      }
    }
  }

  /** The selection shared by the list and grid controllers. */
  class Selection {
    var indexes: seq<int>

    constructor ()
      ensures indexes == []
    {
      indexes := [];
    }

    method Set(index: int)
      modifies this
      ensures indexes == [index]
    {
      indexes := [index];
    }

    method Clear()
      modifies this
      ensures indexes == []
    {
      indexes := [];
    }
  }

  /** The display items at the given indexes, in the order of the indexes. */
  function ItemsAt(items: seq<DisplayItem>, indexes: seq<int>): (r: seq<DisplayItem>)
    requires forall k :: 0 <= k < |indexes| ==> 0 <= indexes[k] < |items|
    ensures |r| == |indexes|
    ensures forall k :: 0 <= k < |indexes| ==> r[k] == items[indexes[k]]
  {
    seq(|indexes|, k requires 0 <= k < |indexes| => items[indexes[k]])
  }

  /** The list controller and, with the same list logic, the grid controller. */
  class DataListController {
    const selection: Selection
    var displayItems: seq<DisplayItem>
    var listeners: seq<Listener>
    /** The listeners closed so far, in order. */
    var closedListeners: seq<Listener>
    /** `__changed_display_items`. */
    var changed: bool
    /** Whether the update task is queued under the controller's key. */
    var updateQueued: bool
    /** How many times the canvas was asked to update. */
    var canvasUpdates: nat
    var selectedIndexes: seq<int>
    var closed: bool

    ghost predicate Valid()
      reads this
    {
      Aligned(displayItems, listeners)
    }

    constructor (selection: Selection)
      ensures this.selection == selection && Valid() && !closed
      ensures displayItems == [] && listeners == [] && closedListeners == []
      ensures !changed && !updateQueued && canvasUpdates == 0 && selectedIndexes == []
    {
      this.selection := selection;
      displayItems := [];
      listeners := [];
      closedListeners := [];
      changed := false;
      updateQueued := false;
      canvasUpdates := 0;
      selectedIndexes := [];
      closed := false;
    }

    method DisplayItemInserted(d: DisplayItem, beforeIndex: int)
      requires Valid() && !closed
      modifies this`displayItems, this`listeners, this`canvasUpdates
      ensures Valid()
      ensures displayItems == InsertAt(old(displayItems), beforeIndex, d)
      ensures listeners == InsertAt(old(listeners), beforeIndex, Listener(d))
      ensures canvasUpdates == old(canvasUpdates) + 1
    {
      InsertKeepsAligned(displayItems, listeners, beforeIndex, d);
      displayItems := InsertAt(displayItems, beforeIndex, d);
      listeners := InsertAt(listeners, beforeIndex, Listener(d));
      canvasUpdates := canvasUpdates + 1;
    }

    method DisplayItemRemoved(index: int)
      requires Valid() && !closed
      requires -|displayItems| <= index < |displayItems|
      modifies this`displayItems, this`listeners, this`closedListeners, this`canvasUpdates
      ensures Valid()
      ensures displayItems == DeleteAt(old(displayItems), index)
      ensures listeners == DeleteAt(old(listeners), index)
      ensures closedListeners == old(closedListeners) + [Listener(old(displayItems)[DeleteIndex(index, |old(displayItems)|)])]
      ensures canvasUpdates == old(canvasUpdates) + 1
    {
      DeleteKeepsAligned(displayItems, listeners, index);
      closedListeners := closedListeners + [listeners[DeleteIndex(index, |listeners|)]];
      listeners := DeleteAt(listeners, index);
      displayItems := DeleteAt(displayItems, index);
      canvasUpdates := canvasUpdates + 1;
    }

    /** A display item reports new content: mark the list changed and queue the update. */
    method DisplayItemNeedsUpdate()
      modifies this`changed, this`updateQueued
      ensures changed && updateQueued
    {
      changed := true;
      updateQueued := true;
    }

    /** The queued update: read and clear the flag, refresh the canvas if it was set. */
    method UpdateDisplayItems() returns (refreshed: bool)
      requires updateQueued
      modifies this`changed, this`updateQueued, this`canvasUpdates
      ensures refreshed == old(changed) && !changed && !updateQueued
      ensures canvasUpdates == old(canvasUpdates) + (if refreshed then 1 else 0)
    {
      updateQueued := false;
      refreshed := changed;
      changed := false;
      if refreshed {
        canvasUpdates := canvasUpdates + 1;
      }
    }

    /** The delete key: the selected display items go to the delete callback, if set. */
    method DeletePressed(hasCallback: bool) returns (deleted: Option<seq<DisplayItem>>)
      requires forall k :: 0 <= k < |selection.indexes| ==> 0 <= selection.indexes[k] < |displayItems|
      ensures deleted.Some? <==> hasCallback
      ensures deleted.Some? ==> deleted.value == ItemsAt(displayItems, selection.indexes)
    {
      deleted := None;
      if hasCallback {
        var indexes := selection.indexes;
        var r: seq<DisplayItem> := [];
        for k := 0 to |indexes|
          invariant r == ItemsAt(displayItems, indexes[..k])
        {
          r := r + [displayItems[indexes[k]]];
        }
        assert indexes[..|indexes|] == indexes;
        deleted := Some(r);
      }
    }

    /** The selection changed: remember its indexes and hand the selected display items
        to the selection callback, if set. */
    method SelectionChangedNotification(hasCallback: bool) returns (notified: Option<seq<DisplayItem>>)
      requires forall k :: 0 <= k < |selection.indexes| ==> 0 <= selection.indexes[k] < |displayItems|
      modifies this`selectedIndexes
      ensures selectedIndexes == selection.indexes
      ensures notified.Some? <==> hasCallback
      ensures notified.Some? ==> notified.value == ItemsAt(displayItems, selection.indexes)
    {
      selectedIndexes := selection.indexes;
      notified := None;
      if hasCallback {
        notified := Some(ItemsAt(displayItems, selection.indexes));
      }
    }

    /** Clears the queued update and closes every listener; a second close fails. */
    method Close()
      requires !closed
      modifies this`closed, this`updateQueued, this`listeners, this`closedListeners, this`displayItems
      ensures closed && !updateQueued
      ensures closedListeners == old(closedListeners) + old(listeners)
      ensures listeners == [] && displayItems == []
    {
      updateQueued := false;
      closedListeners := closedListeners + listeners;
      listeners := [];
      displayItems := [];
      closed := true;
    }
  }

  // ---------------------------------------------------------------------------
  // Library items: counted titles
  // ---------------------------------------------------------------------------

  predicate IsDigit(c: char) {
    '0' <= c <= '9'
  }

  function DigitChar(d: nat): (c: char)
    requires d < 10
    ensures IsDigit(c)
  {
    ('0' as int + d) as char
  }

  function DigitValue(c: char): nat
    requires IsDigit(c)
  {
    c as int - '0' as int
  }

  /** Decimal digits of `n`, most significant first, as `%i` writes them. */
  function NatDigits(n: nat): (s: string)
    ensures |s| > 0 && forall i :: 0 <= i < |s| ==> IsDigit(s[i])
    decreases n
  {
    if n < 10 then [DigitChar(n)] else NatDigits(n / 10) + [DigitChar(n % 10)]
  }

  /** `"%i" % n`. */
  function FormatInt(n: int): (s: string)
    ensures |s| > 0
  {
    if n < 0 then "-" + NatDigits(-n) else NatDigits(n)
  }

  /** Reads decimal digits back. */
  function ParseNat(s: string): nat
    requires forall i :: 0 <= i < |s| ==> IsDigit(s[i])
    decreases |s|
  {
    if s == [] then 0 else ParseNat(s[..|s| - 1]) * 10 + DigitValue(s[|s| - 1])
  }

  function ParseInt(s: string): int
    requires |s| > 0
    requires s[0] == '-' || IsDigit(s[0])
    requires forall i :: 1 <= i < |s| ==> IsDigit(s[i])
  {
    if s[0] == '-' then 0 - ParseNat(s[1..]) else ParseNat(s)
  }

  lemma {:induction false} ParseNatDigits(n: nat)
    ensures ParseNat(NatDigits(n)) == n
    decreases n
  {
    if n >= 10 {
      var s := NatDigits(n / 10);
      var t := NatDigits(n);
      assert t == s + [DigitChar(n % 10)];
      assert t[..|t| - 1] == s;
      ParseNatDigits(n / 10);
    }
  }

  /** Formatting an integer and reading it back gives the integer. */
  lemma ParseFormatInt(n: int)
    ensures ParseInt(FormatInt(n)) == n
  {
    if n < 0 {
      assert FormatInt(n)[1..] == NatDigits(-n);
      ParseNatDigits(-n);
    } else {
      ParseNatDigits(n);
    }
  }

  /** `LibraryItemController.title`: the base title followed by the count in parentheses. */
  function TitleOf(baseTitle: string, count: int): (t: string)
    ensures |t| >= |baseTitle| + 4 && t[..|baseTitle|] == baseTitle
    ensures t[|baseTitle|..|baseTitle| + 2] == " (" && t[|t| - 1] == ')'
  {
    baseTitle + " (" + FormatInt(count) + ")"
  }

  /** The count can be read back from the title. */
  lemma TitleShowsCount(baseTitle: string, count: int)
    ensures var t := TitleOf(baseTitle, count);
      var digits := t[|baseTitle| + 2..|t| - 1];
      digits == FormatInt(count)
  {
  }

  /** Different counts give different titles. */
  lemma TitleDeterminesCount(baseTitle: string, c1: int, c2: int)
    requires TitleOf(baseTitle, c1) == TitleOf(baseTitle, c2)
    ensures c1 == c2
  {
    var t := TitleOf(baseTitle, c1);
    TitleShowsCount(baseTitle, c1);
    TitleShowsCount(baseTitle, c2);
    assert FormatInt(c1) == t[|baseTitle| + 2..|t| - 1] == FormatInt(c2);
    ParseFormatInt(c1);
    ParseFormatInt(c2);
  }

  class LibraryItemController {
    const baseTitle: string
    var count: int
    /** Whether `on_title_changed` is set. */
    var hasTitleCallback: bool
    /** Titles handed to the document controller's task queue, in order. */
    var queuedTitles: seq<string>

    function Title(): string
      reads this
    {
      TitleOf(baseTitle, count)
    }

    /** The count starts at the binding's number of data items. */
    constructor (baseTitle: string, bindingSize: nat)
      ensures this.baseTitle == baseTitle && count == bindingSize
      ensures !hasTitleCallback && queuedTitles == []
    {
      this.baseTitle := baseTitle;
      count := bindingSize;
      hasTitleCallback := false;
      queuedTitles := [];
    }

    method SetTitleCallback(isSet: bool)
      modifies this`hasTitleCallback
      ensures hasTitleCallback == isSet
    {
      hasTitleCallback := isSet;
    }

    method DataItemInserted()
      modifies this`count, this`queuedTitles
      ensures count == old(count) + 1
      ensures queuedTitles == old(queuedTitles) + (if hasTitleCallback then [TitleOf(baseTitle, count)] else [])
    {
      count := count + 1;
      if hasTitleCallback {
        queuedTitles := queuedTitles + [Title()];
      }
    }

    method DataItemRemoved()
      modifies this`count, this`queuedTitles
      ensures count == old(count) - 1
      ensures queuedTitles == old(queuedTitles) + (if hasTitleCallback then [TitleOf(baseTitle, count)] else [])
    {
      count := count - 1;
      if hasTitleCallback {
        queuedTitles := queuedTitles + [Title()];
      }
    }
  }

  // ---------------------------------------------------------------------------
  // Library drops
  // ---------------------------------------------------------------------------

  datatype DropAction = NoDrop | Copy

  /** The answer to a drop on the library tree, and whether the files were offered to
      the receive-files callback (`accepts` is that callback's answer). */
  datatype DropResult = DropResult(action: DropAction, filesOffered: bool)

  function LibraryDrop(hasFilePaths: bool, row: int, hasReceiver: bool, accepts: bool): (r: DropResult)
    ensures r.filesOffered <==> hasFilePaths && row < 0 && hasReceiver
    ensures r.action == Copy <==> r.filesOffered && accepts
  {
    if hasFilePaths && row < 0 && hasReceiver
    then DropResult(if accepts then Copy else NoDrop, true)
    else DropResult(NoDrop, false)
  }

  /** Drops between items, and drops without files, are refused without offering anything. */
  lemma DropBetweenItemsRefused(hasFilePaths: bool, row: int, hasReceiver: bool, accepts: bool)
    requires row >= 0 || !hasFilePaths
    ensures LibraryDrop(hasFilePaths, row, hasReceiver, accepts) == DropResult(NoDrop, false)
  {
  }

  // ---------------------------------------------------------------------------
  // Data group tree
  // ---------------------------------------------------------------------------

  /** A parent item of the data group tree: its row, its id, and the data group of each
      child item (a child's row is its position). */
  datatype TreeItem = TreeItem(row: int, id: int, childGroups: seq<Option<DataGroup>>)

  /** A container of data items: a data item, a data group or the document; when it
      has a `data_items` list, `hasDataItems` is set and `dataItems` holds it. */
  datatype Container = Container(isDataItem: bool, id: nat, hasDataItems: bool, dataItems: seq<Container>)

  function Children(c: Container): seq<Container> {
    if c.hasDataItems then c.dataItems else []
  }

  /** The data items found by `__append_data_item_flat`, in the order it appends them. */
  function Flatten(c: Container): seq<Container>
    decreases c, 1, 0
  {
    (if c.isDataItem then [c] else []) + FlattenFirst(c, |Children(c)|)
  }

  /** The flattening of the first `i` children of `c`. */
  function FlattenFirst(c: Container, i: nat): seq<Container>
    requires i <= |Children(c)|
    decreases c, 0, i
  {
    if i == 0 then []
    else
      assert Children(c)[i - 1] in c.dataItems;
      FlattenFirst(c, i - 1) + Flatten(Children(c)[i - 1])
  }

  /** `x` is `c` or lies below it through the data item lists. */
  ghost predicate Reachable(c: Container, x: Container)
    decreases c
  {
    x == c || (c.hasDataItems && exists k :: k in c.dataItems && Reachable(k, x))
  }

  /** A node is flattened exactly when it is a data item reachable from the container. */
  lemma {:induction false} FlattenMembers(c: Container, x: Container)
    ensures x in Flatten(c) <==> x.isDataItem && Reachable(c, x)
    decreases c, 1, 0
  {
    var kids := Children(c);
    FlattenFirstMembers(c, x, |kids|);
    if x.isDataItem && Reachable(c, x) && x != c {
      var k :| k in c.dataItems && Reachable(k, x);
      var j :| 0 <= j < |kids| && kids[j] == k;
      assert x in FlattenFirst(c, |kids|);
    }
    if x in FlattenFirst(c, |kids|) {
      var j :| 0 <= j < |kids| && Reachable(kids[j], x);
      assert kids[j] in c.dataItems;
    }
  }

  lemma {:induction false} FlattenFirstMembers(c: Container, x: Container, i: nat)
    requires i <= |Children(c)|
    ensures x in FlattenFirst(c, i) <==> x.isDataItem && exists j :: 0 <= j < i && Reachable(Children(c)[j], x)
    decreases c, 0, i
  {
    if i > 0 {
      var kid := Children(c)[i - 1];
      assert kid in c.dataItems;
      FlattenFirstMembers(c, x, i - 1);
      FlattenMembers(kid, x);
      if x.isDataItem && exists j :: 0 <= j < i && Reachable(Children(c)[j], x) {
        var j :| 0 <= j < i && Reachable(Children(c)[j], x);
        if j < i - 1 {
          assert x in FlattenFirst(c, i - 1);
        }
      }
    }
  }

  /** `__append_data_item_flat`: appends the container if it is a data item, then the
      flattening of each of its data items. */
  method AppendDataItemFlat(c: Container, acc: seq<Container>) returns (r: seq<Container>)
    ensures r == acc + Flatten(c)
    decreases c, 1
  {
    r := acc;
    if c.isDataItem {
      r := r + [c];
    }
    if c.hasDataItems {
      var kids := c.dataItems;
      for i := 0 to |kids|
        invariant r == acc + (if c.isDataItem then [c] else []) + FlattenFirst(c, i)
      {
        r := AppendDataItemFlat(kids[i], r);
      }
    }
  }

  /** `__get_data_item_count_flat`: the number of data items under the container. */
  method GetDataItemCountFlat(c: Container) returns (n: nat)
    ensures n == |Flatten(c)|
    ensures n == 0 <==> forall x :: Reachable(c, x) ==> !x.isDataItem
  {
    var items := AppendDataItemFlat(c, []);
    n := |items|;
    if n == 0 {
      forall x | Reachable(c, x) ensures !x.isDataItem {
        FlattenMembers(c, x);
      }
    } else {
      FlattenMembers(c, Flatten(c)[0]);
    }
  }

  class DataGroupModelController {
    /** The parent item of each data group's item in the tree. */
    var parentOf: map<DataGroup, TreeItem>
    var root: TreeItem

    constructor (root: TreeItem)
      ensures this.root == root && parentOf == map[]
    {
      this.root := root;
      parentOf := map[];
    }

    /** The parent to search: that of the group's item, or the root if it has none. */
    function SearchParent(g: DataGroup): TreeItem
      reads this
    {
      if g in parentOf then parentOf[g] else root
    }

    /** `get_data_group_index`: the first child of the parent holding the group, as
        (row, parent row, parent id), or (-1, -1, 0) when there is none. */
    method GetDataGroupIndex(g: DataGroup) returns (index: int, parentRow: int, parentId: int)
      ensures var p := SearchParent(g);
        && (index == -1 <==> Some(g) !in p.childGroups)
        && (index == -1 ==> parentRow == -1 && parentId == 0)
        && (index != -1 ==>
              && 0 <= index < |p.childGroups| && p.childGroups[index] == Some(g)
              && Some(g) !in p.childGroups[..index]
              && parentRow == p.row && parentId == p.id)
    {
      var p := SearchParent(g);
      var found := -1;
      var i := 0;
      while i < |p.childGroups|
        invariant 0 <= i <= |p.childGroups|
        invariant Some(g) !in p.childGroups[..i]
      {
        if p.childGroups[i] == Some(g) {
          found := i;
          break;
        }
        i := i + 1;
      }
      if found >= 0 {
        index, parentRow, parentId := found, p.row, p.id;
      } else {
        assert p.childGroups[..i] == p.childGroups;
        index, parentRow, parentId := -1, -1, 0;
      }
    }
  }

  // ---------------------------------------------------------------------------
  // The panel
  // ---------------------------------------------------------------------------

  /** The filter a library row selects: the latest session, the live items, or all. */
  function LibraryRowFilter(row: int): Option<string> {
    if row == 2 then Some("latest-session") else if row == 1 then Some("temporary") else None
  }

  /** The library row shown for a filter without a data group. */
  function FilterLibraryRow(filterId: Option<string>): int {
    if filterId == Some("latest-session") then 2 else if filterId == Some("temporary") then 1 else 0
  }

  /** The first selected row of the library tree, or -1. */
  function SelectedRow(rows: seq<int>): int {
    if |rows| > 0 then rows[0] else -1
  }

  /** The filter a library row selects is shown as that row again (row 0 for all others). */
  lemma RowFilterRoundTrip(row: int)
    ensures FilterLibraryRow(LibraryRowFilter(row)) == (if row == 1 || row == 2 then row else 0)
  {
  }

  /** The row shown for one of the library's filters selects that filter again. */
  lemma FilterRowRoundTrip(filterId: Option<string>)
    ensures filterId in {None, Some("temporary"), Some("latest-session")} ==>
      LibraryRowFilter(FilterLibraryRow(filterId)) == filterId
  {
  }

  /** Selecting a library row makes the browser fire a filter change, when it fires one,
      that the panel shows as that same row (rows other than 1 and 2 show as row 0). */
  lemma LibrarySelectionShowsRow(b: Browser, rows: seq<int>, fault: Fault)
    requires !b.blocked
    ensures var o := AfterSelect(b, None, None, LibraryRowFilter(SelectedRow(rows)), fault);
      var row := SelectedRow(rows);
      forall e :: e in NewEvents(b, o.after) && e.FilterChanged? ==>
        e.group == None && FilterLibraryRow(e.filterId) == (if row == 1 || row == 2 then row else 0)
  {
    FilterEventIffChanged(b, None, None, LibraryRowFilter(SelectedRow(rows)), fault);
  }

  /** The index of the first display item holding the data item, or -1. */
  method IndexOfDataItem(items: seq<DisplayItem>, item: Option<DataItem>) returns (index: int)
    ensures -1 <= index < |items|
    ensures index == -1 <==> forall i :: 0 <= i < |items| ==> Some(items[i].dataItem) != item
    ensures index >= 0 ==>
      (Some(items[index].dataItem) == item && forall i :: 0 <= i < index ==> Some(items[i].dataItem) != item)
  {
    index := -1;
    var i := 0;
    while i < |items|
      invariant 0 <= i <= |items|
      invariant forall j :: 0 <= j < i ==> Some(items[j].dataItem) != item
    {
      if Some(items[i].dataItem) == item {
        index := i;
        return;
      }
      i := i + 1;
    }
  }

  class DataPanel {
    const browser: DataBrowserController
    const listController: DataListController
    const gridController: DataListController
    const dataGroupModel: DataGroupModelController
    var blocked: bool
    var displayItems: seq<DisplayItem>
    /** Display items closed on removal, in order. */
    var closedDisplayItems: seq<DisplayItem>
    /** The current row of the library tree, `None` when cleared. */
    var libraryRow: Option<int>
    /** The current (row, parent row, parent id) of the data group tree, `None` when cleared. */
    var dataGroupRow: Option<(int, int, int)>
    /** 0 while the list is shown, otherwise the grid. */
    var viewIndex: nat

    /** The panel, the list and the grid show the same display items, and the list and
        the grid share the browser's selection. */
    ghost predicate Valid()
      reads this, listController, gridController
    {
      && listController != gridController
      && listController.selection == gridController.selection
      && listController.Valid() && gridController.Valid()
      && !listController.closed && !gridController.closed
      && listController.displayItems == displayItems
      && gridController.displayItems == displayItems
    }

    constructor (browser: DataBrowserController, listController: DataListController,
                 gridController: DataListController, dataGroupModel: DataGroupModelController)
      requires listController != gridController
      requires listController.selection == gridController.selection
      requires listController.Valid() && gridController.Valid()
      requires !listController.closed && !gridController.closed
      requires listController.displayItems == [] && gridController.displayItems == []
      ensures this.browser == browser && this.dataGroupModel == dataGroupModel
      ensures this.listController == listController && this.gridController == gridController
      ensures Valid() && !blocked && displayItems == [] && closedDisplayItems == []
      ensures libraryRow == None && dataGroupRow == None && viewIndex == 0
    {
      this.browser := browser;
      this.listController := listController;
      this.gridController := gridController;
      this.dataGroupModel := dataGroupModel;
      blocked := false;
      displayItems := [];
      closedDisplayItems := [];
      libraryRow := None;
      dataGroupRow := None;
      viewIndex := 0;
    }

    /** `library_widget_selection_changed`: row 2 selects the latest session, row 1 the
        live items, anything else everything; guarded against re-entry. */
    method LibraryWidgetSelectionChanged(rows: seq<int>, fault: Fault) returns (raised: bool)
      modifies this`blocked, browser
      ensures blocked == old(blocked)
      ensures old(blocked) ==> browser.Snap() == old(browser.Snap()) && !raised
      ensures !old(blocked) ==>
        var o := AfterSelect(old(browser.Snap()), None, None, LibraryRowFilter(SelectedRow(rows)), fault);
        browser.Snap() == o.after && raised == o.raised
    {
      raised := false;
      if !blocked {
        blocked := true;
        var index := if |rows| > 0 then rows[0] else -1;
        if index == 2 {
          raised := browser.SetDataBrowserSelection(None, None, Some("latest-session"), fault);
        } else if index == 1 {
          raised := browser.SetDataBrowserSelection(None, None, Some("temporary"), fault);
        } else {
          raised := browser.SetDataBrowserSelection(None, None, None, fault);
        }
        blocked := false;
      }
    }

    /** `__data_panel_filter_changed`: a data group selects its row in the group tree and
        clears the library row; otherwise the library row for the filter is selected. */
    method DataPanelFilterChanged(group: Option<DataGroup>, filterId: Option<string>)
      modifies this`libraryRow, this`dataGroupRow
      ensures group.None? ==> dataGroupRow == None && libraryRow == Some(FilterLibraryRow(filterId))
      ensures group.Some? ==> libraryRow == None && dataGroupRow.Some?
      ensures group.Some? && Some(group.value) in dataGroupModel.SearchParent(group.value).childGroups ==>
        var (row, parentRow, parentId) := dataGroupRow.value;
        var p := dataGroupModel.SearchParent(group.value);
        0 <= row < |p.childGroups| && p.childGroups[row] == group && parentRow == p.row && parentId == p.id
      ensures group.Some? && Some(group.value) !in dataGroupModel.SearchParent(group.value).childGroups ==>
        dataGroupRow == Some((-1, -1, 0))
    {
      if group.Some? {
        var index, parentRow, parentId := dataGroupModel.GetDataGroupIndex(group.value);
        libraryRow := None;
        dataGroupRow := Some((index, parentRow, parentId));
      } else {
        dataGroupRow := None;
        if filterId == Some("latest-session") {
          libraryRow := Some(2);
        } else if filterId == Some("temporary") {
          libraryRow := Some(1);
        } else {
          libraryRow := Some(0);
        }
      }
    }

    /** `__data_panel_selection_changed`: select the first display item holding the data
        item, or clear the selection. The list and the grid share one selection, so the
        shown view only decides which of the two scrolls to it. */
    method DataPanelSelectionChanged(item: Option<DataItem>)
      requires Valid()
      modifies listController.selection
      ensures Valid()
      ensures gridController.selection.indexes == listController.selection.indexes
      ensures var sel := listController.selection.indexes;
        sel == [] <==> forall i :: 0 <= i < |displayItems| ==> Some(displayItems[i].dataItem) != item
      ensures var sel := listController.selection.indexes;
        sel != [] ==>
          |sel| == 1 && 0 <= sel[0] < |displayItems|
          && Some(displayItems[sel[0]].dataItem) == item
          && forall i :: 0 <= i < sel[0] ==> Some(displayItems[i].dataItem) != item
    {
      var index := IndexOfDataItem(displayItems, item);
      var shown := if viewIndex == 0 then listController else gridController;
      if index >= 0 {
        shown.selection.Set(index);
      } else {
        shown.selection.Clear();
      }
    }

    /** A data item entered the filtered list: wrap it and insert it everywhere; each
        controller registers a listener at the same place and updates its canvas once. */
    method DataItemInserted(item: DataItem, beforeIndex: int, displayId: nat)
      requires Valid()
      modifies this`displayItems
      modifies listController`displayItems, listController`listeners, listController`canvasUpdates
      modifies gridController`displayItems, gridController`listeners, gridController`canvasUpdates
      ensures Valid()
      ensures var d := DisplayItem(displayId, item);
        && displayItems == InsertAt(old(displayItems), beforeIndex, d)
        && listController.listeners == InsertAt(old(listController.listeners), beforeIndex, Listener(d))
        && gridController.listeners == InsertAt(old(gridController.listeners), beforeIndex, Listener(d))
      ensures listController.canvasUpdates == old(listController.canvasUpdates) + 1
      ensures gridController.canvasUpdates == old(gridController.canvasUpdates) + 1
      ensures listController.closedListeners == old(listController.closedListeners)
      ensures gridController.closedListeners == old(gridController.closedListeners)
    {
      var d := DisplayItem(displayId, item);
      displayItems := InsertAt(displayItems, beforeIndex, d);
      listController.DisplayItemInserted(d, beforeIndex);
      gridController.DisplayItemInserted(d, beforeIndex);
    }

    /** A data item left the filtered list: remove it everywhere and close its display item. */
    method DataItemRemoved(index: int)
      requires Valid()
      requires -|displayItems| <= index < |displayItems|
      modifies this`displayItems, this`closedDisplayItems
      modifies listController`displayItems, listController`listeners, listController`closedListeners,
               listController`canvasUpdates
      modifies gridController`displayItems, gridController`listeners, gridController`closedListeners,
               gridController`canvasUpdates
      ensures Valid()
      ensures var removed := old(displayItems)[DeleteIndex(index, |old(displayItems)|)];
        && displayItems == DeleteAt(old(displayItems), index)
        && closedDisplayItems == old(closedDisplayItems) + [removed]
        && listController.closedListeners == old(listController.closedListeners) + [Listener(removed)]
        && gridController.closedListeners == old(gridController.closedListeners) + [Listener(removed)]
      ensures listController.listeners == DeleteAt(old(listController.listeners), index)
      ensures gridController.listeners == DeleteAt(old(gridController.listeners), index)
      ensures listController.canvasUpdates == old(listController.canvasUpdates) + 1
      ensures gridController.canvasUpdates == old(gridController.canvasUpdates) + 1
    {
      listController.DisplayItemRemoved(index);
      gridController.DisplayItemRemoved(index);
      closedDisplayItems := closedDisplayItems + [displayItems[DeleteIndex(index, |displayItems|)]];
      displayItems := DeleteAt(displayItems, index);
    }
  }
}
