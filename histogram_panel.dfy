/**
 * The histogram panel and its worker thread.
 *
 * The thread keeps a one-element hand-off slot for a reference-counted data item:
 * `handle_data` replaces the pending item (releasing the one it replaces), a pass of
 * the processing loop grabs the item, hands it to the panel and releases it, and
 * `close` releases whatever is still pending. The panel keeps the item, the drawn
 * display limits, the mouse-drag state and two dirty flags that gate redrawing.
 *
 * Every method is atomic; the processing loop is an explicit `ProcessingPass` step.
 */
module HistogramPanel {
  import opened Wrappers

  /** The identity of a reference-counted data item. */
  datatype DataItemRef = DataItemRef(id: nat)

  /** Reference counts of the data items; an item without an entry has count 0. */
  type RefCounts = map<DataItemRef, int>

  function Count(refs: RefCounts, x: DataItemRef): int {
    if x in refs then refs[x] else 0
  }

  function AddRef(refs: RefCounts, x: DataItemRef): RefCounts {
    refs[x := Count(refs, x) + 1]
  }

  function RemoveRef(refs: RefCounts, x: DataItemRef): RefCounts {
    refs[x := Count(refs, x) - 1]
  }

  // ---------------------------------------------------------------------------
  // The hand-off slot, as a value
  // ---------------------------------------------------------------------------

  /** The thread's pending item together with the reference counts. */
  datatype Handoff = Handoff(pending: Option<DataItemRef>, refs: RefCounts)

  function AfterHandleData(h: Handoff, x: Option<DataItemRef>): Handoff {
    var released := if h.pending.Some? then RemoveRef(h.refs, h.pending.value) else h.refs;
    Handoff(x, if x.Some? then AddRef(released, x.value) else released)
  }

  /** One pass of the processing loop: grab the pending item, process it, release it. */
  function AfterPass(h: Handoff): Handoff {
    if h.pending.Some? then Handoff(None, RemoveRef(h.refs, h.pending.value)) else h
  }

  /** `close` releases a pending item but does not empty the slot. */
  function AfterClose(h: Handoff): Handoff {
    if h.pending.Some? then h.(refs := RemoveRef(h.refs, h.pending.value)) else h
  }

  /** The one extra reference the slot holds on `x`, if `x` is pending. */
  function Held(h: Handoff, x: DataItemRef): int {
    if h.pending == Some(x) then 1 else 0
  }

  /** Every item's count is its starting count plus the reference the slot holds. */
  ghost predicate Balanced(h: Handoff, start: RefCounts) {
    forall x :: Count(h.refs, x) == Count(start, x) + Held(h, x)
  }

  lemma HandleDataKeepsBalance(h: Handoff, start: RefCounts, x: Option<DataItemRef>)
    requires Balanced(h, start)
    ensures Balanced(AfterHandleData(h, x), start)
  {
    var h' := AfterHandleData(h, x);
    forall y ensures Count(h'.refs, y) == Count(start, y) + Held(h', y) {
      assert Count(h.refs, y) == Count(start, y) + Held(h, y);
    }
  }

  lemma PassKeepsBalance(h: Handoff, start: RefCounts)
    requires Balanced(h, start)
    ensures Balanced(AfterPass(h), start)
  {
    var h' := AfterPass(h);
    forall y ensures Count(h'.refs, y) == Count(start, y) + Held(h', y) {
      assert Count(h.refs, y) == Count(start, y) + Held(h, y);
    }
  }

  /** Closing a balanced slot brings every count back to its starting value. */
  lemma CloseRestoresCounts(h: Handoff, start: RefCounts)
    requires Balanced(h, start)
    ensures forall x :: Count(AfterClose(h).refs, x) == Count(start, x)
  {
    forall y ensures Count(AfterClose(h).refs, y) == Count(start, y) {
      assert Count(h.refs, y) == Count(start, y) + Held(h, y);
    }
  }

  /** The thread's operations before it is closed. */
  datatype ThreadOp = HandleData(item: Option<DataItemRef>) | Pass

  function RunOps(h: Handoff, ops: seq<ThreadOp>): Handoff
    decreases |ops|
  {
    if ops == [] then h
    else RunOps(if ops[0].Pass? then AfterPass(h) else AfterHandleData(h, ops[0].item), ops[1..])
  }

  lemma {:induction false} RunOpsKeepsBalance(h: Handoff, start: RefCounts, ops: seq<ThreadOp>)
    requires Balanced(h, start)
    ensures Balanced(RunOps(h, ops), start)
    decreases |ops|
  {
    if ops != [] {
      var next := if ops[0].Pass? then AfterPass(h) else AfterHandleData(h, ops[0].item);
      if ops[0].Pass? {
        PassKeepsBalance(h, start);
      } else {
        HandleDataKeepsBalance(h, start, ops[0].item);
      }
      RunOpsKeepsBalance(next, start, ops[1..]);
    }
  }

  /** Reference balance: starting from an empty slot, any sequence of `handle_data`
      calls and grab-process-release passes, followed by one `close`, leaves every
      item's reference count where it started. */
  lemma ReferenceBalance(start: RefCounts, ops: seq<ThreadOp>)
    ensures forall x :: Count(AfterClose(RunOps(Handoff(None, start), ops)).refs, x) == Count(start, x)
  {
    RunOpsKeepsBalance(Handoff(None, start), start, ops);
    CloseRestoresCounts(RunOps(Handoff(None, start), ops), start);
  }

  /** Coalescing: after `handle_data(a)` and `handle_data(b)` the slot holds `b` with one
      extra reference, and `a` is back to its starting count unless it is `b`. */
  lemma Coalescing(start: RefCounts, a: DataItemRef, b: DataItemRef)
    ensures var h := AfterHandleData(AfterHandleData(Handoff(None, start), Some(a)), Some(b));
      && h.pending == Some(b)
      && Count(h.refs, b) == Count(start, b) + 1
      && Count(h.refs, a) == Count(start, a) + (if a == b then 1 else 0)
      && AfterPass(h).pending == None
      && Count(AfterPass(h).refs, a) == Count(start, a)
      && Count(AfterPass(h).refs, b) == Count(start, b)
  {
  }

  // ---------------------------------------------------------------------------
  // The panel's display-limit bookkeeping, as values
  // ---------------------------------------------------------------------------

  /** A pair of display limits, lower then upper, as fractions of the histogram width. */
  type Limits = (real, real)

  /** The limits while dragging: the anchor and the current position, in order. */
  function DragLimits(start: real, current: real): (r: Limits)
    ensures r.0 <= r.1
    ensures r == (start, current) || r == (current, start)
  {
    (if start < current then start else current, if start < current then current else start)
  }

  /** Converts fractional limits to data values within the item's display range. */
  function ToDataLimits(limits: Limits, dataMin: real, dataMax: real): (r: Limits)
    ensures limits.0 <= limits.1 && dataMin <= dataMax ==> r.0 <= r.1
    ensures 0.0 <= limits.0 <= limits.1 <= 1.0 && dataMin <= dataMax ==> dataMin <= r.0 && r.1 <= dataMax
  {
    ScaleMonotone(limits.0, limits.1, dataMin, dataMax);
    ScaleMonotone(0.0, limits.0, dataMin, dataMax);
    ScaleMonotone(limits.1, 1.0, dataMin, dataMax);
    (Scale(limits.0, dataMin, dataMax), Scale(limits.1, dataMin, dataMax))
  }

  /** The data value at fraction `f` of the range from `dataMin` to `dataMax`. */
  function Scale(f: real, dataMin: real, dataMax: real): real {
    dataMin + f * (dataMax - dataMin)
  }

  lemma ScaleMonotone(a: real, b: real, dataMin: real, dataMax: real)
    ensures a <= b && dataMin <= dataMax ==> Scale(a, dataMin, dataMax) <= Scale(b, dataMin, dataMax)
    ensures Scale(0.0, dataMin, dataMax) == dataMin && Scale(1.0, dataMin, dataMax) == dataMax
  {
    var span := dataMax - dataMin;
    if a <= b && 0.0 <= span {
      assert b * span - a * span == (b - a) * span;
    }
  }

  /** The panel's fields. `itemLimits` holds the display limits the panel has written to
      each data item (`None` when it cleared them); items it never wrote are absent. */
  datatype PanelView = PanelView(
    dataItem: Option<DataItemRef>,
    displayLimits: Limits,
    pressed: bool,
    start: real,
    histogramDirty: bool,
    adornmentsDirty: bool,
    itemLimits: map<DataItemRef, Option<Limits>>)

  /** `__update_histogram` with a widget: the histogram is redrawn (clearing its flag)
      only when it is dirty and the item's histogram data is non-empty; the adornments
      are redrawn whenever they are dirty. Without a widget nothing happens.
      `histogramSize` is the length of the current item's histogram data. */
  function Redraw(p: PanelView, drawable: bool, histogramSize: nat): PanelView {
    if !drawable then p
    else
      p.(histogramDirty := p.histogramDirty && !(p.dataItem.Some? && histogramSize > 0),
         adornmentsDirty := false)
  }

  function AfterSetDataItem(p: PanelView, d: Option<DataItemRef>, drawable: bool, histogramSize: nat): PanelView {
    Redraw(p.(dataItem := d,
              displayLimits := if p.pressed then p.displayLimits else (0.0, 1.0),
              histogramDirty := true,
              adornmentsDirty := true), drawable, histogramSize)
  }

  function AfterSetDisplayLimits(p: PanelView, limits: Limits, drawable: bool, histogramSize: nat): PanelView {
    Redraw(p.(displayLimits := limits, adornmentsDirty := true), drawable, histogramSize)
  }

  function AfterSizeChanged(p: PanelView, width: int, height: int, drawable: bool, histogramSize: nat): PanelView {
    if width > 0 && height > 0 then Redraw(p.(histogramDirty := true), drawable, histogramSize) else p
  }

  function AfterDoubleClick(p: PanelView, drawable: bool, histogramSize: nat): PanelView {
    var q := AfterSetDisplayLimits(p, (0.0, 1.0), drawable, histogramSize);
    if q.dataItem.Some? then q.(itemLimits := q.itemLimits[q.dataItem.value := None]) else q
  }

  function AfterPress(p: PanelView, position: real, drawable: bool, histogramSize: nat): PanelView {
    AfterSetDisplayLimits(p.(pressed := true, start := position), (position, position), drawable, histogramSize)
  }

  /** `mouse_released` writes the item's display limits only when there is an item and
      the dragged range is strictly between 0 and 1. */
  predicate ReleaseWrites(p: PanelView) {
    p.dataItem.Some? && 0.0 < p.displayLimits.1 - p.displayLimits.0 < 1.0
  }

  function AfterRelease(p: PanelView, dataMin: real, dataMax: real): PanelView {
    var q := p.(pressed := false);
    if ReleaseWrites(p)
    then q.(itemLimits := q.itemLimits[p.dataItem.value := Some(ToDataLimits(p.displayLimits, dataMin, dataMax))])
    else q
  }

  function AfterMove(p: PanelView, position: real, drawable: bool, histogramSize: nat): PanelView {
    if p.pressed then AfterSetDisplayLimits(p, DragLimits(p.start, position), drawable, histogramSize) else p
  }

  /** The drawn limits are always in order. */
  predicate LimitsOrdered(p: PanelView) {
    p.displayLimits.0 <= p.displayLimits.1
  }

  /** The panel's events, with the item's histogram size and display range at that moment. */
  datatype PanelEvent =
    | SetDataItem(d: Option<DataItemRef>, histogramSize: nat)
    | SizeChanged(width: int, height: int, histogramSize: nat)
    | DoubleClicked(histogramSize: nat)
    | Pressed(position: real, histogramSize: nat)
    | Released(dataMin: real, dataMax: real)
    | Moved(position: real, histogramSize: nat)

  function ApplyEvent(p: PanelView, drawable: bool, e: PanelEvent): PanelView {
    match e
    case SetDataItem(d, n) => AfterSetDataItem(p, d, drawable, n)
    case SizeChanged(w, hgt, n) => AfterSizeChanged(p, w, hgt, drawable, n)
    case DoubleClicked(n) => AfterDoubleClick(p, drawable, n)
    case Pressed(x, n) => AfterPress(p, x, drawable, n)
    case Released(lo, hi) => AfterRelease(p, lo, hi)
    case Moved(x, n) => AfterMove(p, x, drawable, n)
  }

  function RunEvents(p: PanelView, drawable: bool, events: seq<PanelEvent>): PanelView
    decreases |events|
  {
    if events == [] then p else RunEvents(ApplyEvent(p, drawable, events[0]), drawable, events[1..])
  }

  /** Whatever the user and the thread do, the drawn lower limit never exceeds the upper. */
  lemma {:induction false} LimitsStayOrdered(p: PanelView, drawable: bool, events: seq<PanelEvent>)
    requires LimitsOrdered(p)
    ensures LimitsOrdered(RunEvents(p, drawable, events))
    decreases |events|
  {
    if events != [] {
      var next := ApplyEvent(p, drawable, events[0]);
      match events[0] {
        case Moved(x, n) =>
          if p.pressed {
            assert next.displayLimits == DragLimits(p.start, x);
          }
        case _ =>
      }
      LimitsStayOrdered(next, drawable, events[1..]);
    }
  }

  /** `_set_data_item` stores the item and resets the limits to (0, 1) unless the mouse is
      pressed; with a widget the adornments are redrawn and the histogram stays dirty only
      when there is no item or its histogram data is empty; without one both stay dirty. */
  lemma SetDataItemEffect(p: PanelView, d: Option<DataItemRef>, drawable: bool, histogramSize: nat)
    ensures var q := AfterSetDataItem(p, d, drawable, histogramSize);
      && q.dataItem == d
      && q.displayLimits == (if p.pressed then p.displayLimits else (0.0, 1.0))
      && q.pressed == p.pressed && q.itemLimits == p.itemLimits
      && q.adornmentsDirty == !drawable
      && q.histogramDirty == (!drawable || d.None? || histogramSize == 0)
  {
  }

  /** `mouse_released` changes the items' display limits exactly when it writes them, and
      what it writes is ordered and, for limits within (0, 1), inside the display range. */
  lemma ReleaseEffect(p: PanelView, dataMin: real, dataMax: real)
    requires LimitsOrdered(p) && dataMin <= dataMax
    ensures var q := AfterRelease(p, dataMin, dataMax);
      && !q.pressed
      && (q.itemLimits != p.itemLimits ==> ReleaseWrites(p))
      && (ReleaseWrites(p) ==>
            var w := q.itemLimits[p.dataItem.value];
            && w.Some? && w.value.0 <= w.value.1
            && (0.0 <= p.displayLimits.0 && p.displayLimits.1 <= 1.0 ==>
                  dataMin <= w.value.0 && w.value.1 <= dataMax))
  {
  }

  /** `size_changed` only marks the histogram dirty for a non-empty size. */
  lemma SizeChangedEffect(p: PanelView, width: int, height: int, drawable: bool, histogramSize: nat)
    ensures var q := AfterSizeChanged(p, width, height, drawable, histogramSize);
      && (width <= 0 || height <= 0 ==> q == p)
      && (width > 0 && height > 0 && !drawable ==> q.histogramDirty)
  {
  }

  /** A redraw clears the histogram flag only when there is histogram data to draw. */
  lemma RedrawNeedsHistogramData(p: PanelView, drawable: bool, histogramSize: nat)
    requires p.histogramDirty
    ensures !Redraw(p, drawable, histogramSize).histogramDirty <==>
      drawable && p.dataItem.Some? && histogramSize > 0
  {
  }

  // ---------------------------------------------------------------------------
  // The thread
  // ---------------------------------------------------------------------------

  class HistogramThread {
    const panel: HistogramPanel
    /** `__data_item`: the pending item. */
    var dataItem: Option<DataItemRef>
    /** The reference counts of the data items (they live on the items in the program). */
    var refs: RefCounts
    /** Whether the processing loop still runs (until `close`). */
    var running: bool

    ghost function View(): Handoff
      reads this
    {
      Handoff(dataItem, refs)
    }

    constructor (panel: HistogramPanel, counts: RefCounts)
      ensures this.panel == panel && running
      ensures View() == Handoff(None, counts)
    {
      this.panel := panel;
      dataItem := None;
      refs := counts;
      running := true;
    }

    /** Stops the loop, then releases an item that was handed over but never grabbed. */
    method Close()
      modifies this`running, this`refs
      ensures !running
      ensures View() == AfterClose(old(View()))
    {
      running := false;
      if dataItem.Some? {
        refs := RemoveRef(refs, dataItem.value);
      }
    }

    method HandleData(d: Option<DataItemRef>)
      modifies this`dataItem, this`refs
      ensures View() == AfterHandleData(old(View()), d)
    {
      if dataItem.Some? {
        refs := RemoveRef(refs, dataItem.value);
      }
      dataItem := d;
      if d.Some? {
        refs := AddRef(refs, d.value);
      }
    }

    method GrabData() returns (d: Option<DataItemRef>)
      modifies this`dataItem
      ensures d == old(dataItem) && dataItem == None
    {
      d := dataItem;
      dataItem := None;
    }

    method ProcessData(d: Option<DataItemRef>, histogramSize: nat)
      requires panel.Valid()
      modifies panel
      ensures panel.Valid() && panel.thread == old(panel.thread)
      ensures panel.View() == AfterSetDataItem(old(panel.View()), d, panel.drawable, histogramSize)
    {
      panel.SetDataItem(d, histogramSize);
    }

    method ReleaseData(d: DataItemRef)
      modifies this`refs
      ensures refs == RemoveRef(old(refs), d)
    {
      refs := RemoveRef(refs, d);
    }

    /** One pass of the processing loop: grab the pending item, hand it to the panel,
        and release the grabbed item. */
    method ProcessingPass(histogramSize: nat)
      requires running && panel.Valid()
      modifies this, panel
      ensures running && panel.Valid() && panel.thread == old(panel.thread)
      ensures View() == AfterPass(old(View()))
      ensures panel.View() == AfterSetDataItem(old(panel.View()), old(dataItem), panel.drawable, histogramSize)
    {
      var d := GrabData();
      ProcessData(d, histogramSize);
      if d.Some? {
        ReleaseData(d.value);
      }
    }
  }

  // ---------------------------------------------------------------------------
  // The panel
  // ---------------------------------------------------------------------------

  class HistogramPanel {
    /** Whether the panel has a user interface and a widget to draw into. */
    const drawable: bool
    var dataItem: Option<DataItemRef>
    var displayLimits: Limits
    var pressed: bool
    var start: real
    var histogramDirty: bool
    var adornmentsDirty: bool
    var itemLimits: map<DataItemRef, Option<Limits>>
    var thread: HistogramThread?

    ghost function View(): PanelView
      reads this
    {
      PanelView(dataItem, displayLimits, pressed, start, histogramDirty, adornmentsDirty, itemLimits)
    }

    ghost predicate Valid()
      reads this
    {
      LimitsOrdered(View())
    }

    constructor (drawable: bool, counts: RefCounts)
      ensures this.drawable == drawable && Valid()
      ensures View() == PanelView(None, (0.0, 1.0), false, 0.0, true, true, map[])
      ensures thread != null && fresh(thread) && thread.panel == this
      ensures thread.running && thread.View() == Handoff(None, counts)
    {
      this.drawable := drawable;
      dataItem := None;
      displayLimits := (0.0, 1.0);
      pressed := false;
      start := 0.0;
      histogramDirty := true;
      adornmentsDirty := true;
      itemLimits := map[];
      new;
      thread := new HistogramThread(this, counts);
    }

    /** Closes the thread, which releases any item still pending, and forgets it. */
    method Close()
      requires thread != null
      modifies this`thread, thread
      ensures thread == null
      ensures !old(thread).running && old(thread).View() == AfterClose(old(thread.View()))
    {
      thread.Close();
      thread := null;
    }

    /** Notification from the document controller: hands the item to the thread. */
    method SelectedDataItemChanged(d: Option<DataItemRef>)
      modifies thread
      ensures thread != null ==> thread.View() == AfterHandleData(old(thread.View()), d)
      ensures thread != null ==> thread.running == old(thread.running)
    {
      if thread != null {
        thread.HandleData(d);
      }
    }

    method UpdateHistogram(histogramSize: nat)
      modifies this`histogramDirty, this`adornmentsDirty
      ensures View() == Redraw(old(View()), drawable, histogramSize)
    {
      if drawable {
        MakeHistogram(histogramSize);
        MakeAdornments();
      }
    }

    method MakeHistogram(histogramSize: nat)
      modifies this`histogramDirty
      ensures histogramDirty == (old(histogramDirty) && !(dataItem.Some? && histogramSize > 0))
    {
      if histogramDirty && dataItem.Some? && histogramSize > 0 {
        histogramDirty := false;
      }
    }

    method MakeAdornments()
      modifies this`adornmentsDirty
      ensures adornmentsDirty == (old(adornmentsDirty) && !drawable)
    {
      if drawable && adornmentsDirty {
        adornmentsDirty := false;
      }
    }

    method SetDisplayLimits(limits: Limits, histogramSize: nat)
      requires limits.0 <= limits.1
      modifies this
      ensures Valid()
      ensures View() == AfterSetDisplayLimits(old(View()), limits, drawable, histogramSize)
      ensures thread == old(thread)
    {
      displayLimits := limits;
      adornmentsDirty := true;
      UpdateHistogram(histogramSize);
    }

    method SizeChanged(width: int, height: int, histogramSize: nat)
      requires Valid()
      modifies this
      ensures Valid()
      ensures View() == AfterSizeChanged(old(View()), width, height, drawable, histogramSize)
      ensures thread == old(thread)
    {
      if width > 0 && height > 0 {
        histogramDirty := true;
        UpdateHistogram(histogramSize);
      }
    }

    method MouseDoubleClicked(histogramSize: nat)
      modifies this
      ensures Valid()
      ensures View() == AfterDoubleClick(old(View()), drawable, histogramSize)
      ensures thread == old(thread)
    {
      SetDisplayLimits((0.0, 1.0), histogramSize);
      if dataItem.Some? {
        itemLimits := itemLimits[dataItem.value := None];
      }
    }

    /** `x` and `width` are the mouse position and the canvas width in pixels. */
    method MousePressed(x: real, width: real, histogramSize: nat)
      requires width != 0.0
      modifies this
      ensures Valid()
      ensures View() == AfterPress(old(View()), x / width, drawable, histogramSize)
      ensures thread == old(thread)
    {
      pressed := true;
      start := x / width;
      SetDisplayLimits((start, start), histogramSize);
    }

    /** `dataMin` and `dataMax` are the item's display range. */
    method MouseReleased(dataMin: real, dataMax: real)
      requires Valid()
      modifies this
      ensures Valid()
      ensures View() == AfterRelease(old(View()), dataMin, dataMax)
      ensures thread == old(thread)
    {
      pressed := false;
      var range := displayLimits.1 - displayLimits.0;
      if dataItem.Some? && range > 0.0 && range < 1.0 {
        itemLimits := itemLimits[dataItem.value := Some(ToDataLimits(displayLimits, dataMin, dataMax))];
      }
    }

    method MousePositionChanged(x: real, width: real, histogramSize: nat)
      requires Valid()
      requires pressed ==> width != 0.0
      modifies this
      ensures Valid()
      ensures old(pressed) ==> View() == AfterMove(old(View()), x / width, drawable, histogramSize)
      ensures !old(pressed) ==> View() == old(View())
      ensures thread == old(thread)
    {
      if pressed {
        var current := x / width;
        SetDisplayLimits(DragLimits(start, current), histogramSize);
      }
    }

    /** Called by the thread's processing pass with the grabbed item. */
    method SetDataItem(d: Option<DataItemRef>, histogramSize: nat)
      requires Valid()
      modifies this
      ensures Valid()
      ensures View() == AfterSetDataItem(old(View()), d, drawable, histogramSize)
      ensures thread == old(thread)
    {
      dataItem := d;
      if !pressed {
        displayLimits := (0.0, 1.0);
      }
      histogramDirty := true;
      adornmentsDirty := true;
      UpdateHistogram(histogramSize);
    }
  }
}
