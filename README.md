# Data item processors, the histogram panel and the data panel of Nion Swift

This project models three stateful parts of Nion Swift's user interface core in
Dafny and proves properties of them.

- **`DataItemProcessor`** (`data_item_processor.dfy`). This is the cache of a value derived from a data item, such as
  a histogram or statistics. The value is kept in the processor and in one named slot of
  the item's cache. A three-state dirty flag (`None`, `True`, `False`) gates recomputation.
  A recomputation is a job handed to the item's shared-task dispatcher, and at most one
  job is queued or running at a time. The item's cache is a map from slot name to
  (value, dirty). Its task queue is a sequence. The dispatcher is the `RunJob` method,
  which takes the processor's task off the queue and runs the job's body.
- **`HistogramThread` and `HistogramPanel`** (`histogram_panel.dfy`). The thread keeps a
  one-element hand-off slot for a reference-counted data item. The item's reference counts
  are a `map<DataItemRef, int>`. A pass of the processing loop is the explicit
  `ProcessingPass` step: it grabs the item, hands it to the panel and releases it. The panel
  keeps the drawn display limits, a mouse-drag state and the histogram and adornment dirty
  flags that gate redrawing.
- **The data panel** (`data_panel.dfy`). It covers:
  - `DataBrowserController`, whose re-entry-guarded `set_data_browser_selection` stores the
    data group, filter and data item and fires the filter-changed and selection-changed events;
  - the list and grid controllers, which keep display items and their listeners in two
    aligned lists and a "changed" flag;
  - the library items' counted titles;
  - the library tree's drop handling;
  - the data group tree's index lookup and flat data item count;
  - the panel's handlers, which map library rows to filters and back and keep the selection
    in step.

Every public method is atomic. The state each class changes is also described by a pure
function of its state, such as `AfterGetData`, `AfterHandleData` or `AfterSelect`. The
methods are proved to implement those functions. The properties are proved as lemmas about
the functions, including lemmas over arbitrary sequences of steps. Events and calls into
collaborators are appended to logs (`events`, `queuedTitles`, `closedListeners`).

A failed computation re-raises (`model/DataItemProcessor.py:64-69`) before line 83 clears
`in_progress`, so that processor never queues another job (`FailureIsPermanent`). A
completion function that raises (line 81) skips both line 83 and the finish event of line 84:
the processor never queues another job and `close()` never returns
(`CompletionFailureHangsClose`). Also, the comment at
`nion/swift/DataPanel.py:787-789` says the flat count includes data items in child groups,
but the code only follows `data_items` lists. The model follows the code.

## Model

| member | source | states |
|---|---|---|
| DataItemProcessor.DataItemProcessor.constructor | model/DataItemProcessor.py:8-16 | a new processor has no cached value, the `None` flag, nothing in progress and the finish flag set |
| DataItemProcessor.DataItemProcessor.Close | model/DataItemProcessor.py:18-19 | `close` returns at once exactly when the finish event is set; it waits while a job of this processor is queued |
| DataItemProcessor.CloseWaitsForQueuedJob | model/DataItemProcessor.py:13-19 | under single flight, a queued job keeps the finish flag clear, a set flag means nothing is queued, and a clear flag means a job is in progress |
| DataItemProcessor.DataItemProcessor.DataItemChanged | model/DataItemProcessor.py:25-27 | a content change has the same effect as `set_cached_value_dirty` |
| DataItemProcessor.DataItemProcessor.ItemPropertyChanged | model/DataItemProcessor.py:29-35 | a property change leaves the processor and the item unchanged |
| DataItemProcessor.DataItemProcessor.SetCachedValueDirty | model/DataItemProcessor.py:37-39 | marks the item's slot dirty and sets the local flag to `True`, keeping single flight |
| DataItemProcessor.MarkDirtyMakesStale | model/DataItemProcessor.py:37-39 | after marking, the value is stale, the slot is dirty with its stored value kept, and nothing else changes |
| DataItemProcessor.UnsetFlagIsNotDirty | model/DataItemProcessor.py:53 | the initial `None` flag with a clean slot is not stale, so `get_data` queues nothing |
| DataItemProcessor.GetDataGuards | model/DataItemProcessor.py:56-86 | while in progress, on a closed item, or without exactly one data output, `get_data` changes nothing |
| DataItemProcessor.GetDataEnqueuesOne | model/DataItemProcessor.py:85-89 | a stale value with no job in progress queues exactly one task under the key, sets in-progress and clears the finish flag |
| DataItemProcessor.GetDataKeepsSingleFlight | model/DataItemProcessor.py:85-89 | `get_data` adds one task exactly when it enqueues, and keeps single flight |
| DataItemProcessor.DataItemProcessor.GetData | model/DataItemProcessor.py:45-93 | the new state is `AfterGetData` of the old, and the result is the cached value from before the call, or else `get_default_data()` (`GetDefaultData`, lines 45-46); never the job's result |
| DataItemProcessor.DataItemProcessor.RunJob | model/DataItemProcessor.py:59-89 | running the queued task removes it from the queue and applies the job, including a completion function that raises; single flight is preserved |
| DataItemProcessor.DataItemProcessor.LoadDataOnThread | model/DataItemProcessor.py:59-84 | the job's four outcomes (value, `None` or no data, calculation raises, completion function raises) leave the fields and the item's slot as `JobBody` says; the completion function gets the result or the default, and when it raises in-progress stays set and the finish flag clear |
| DataItemProcessor.JobKeepsSingleFlight | model/DataItemProcessor.py:82-88 | after the job no task of the processor is queued; the finish flag is set unless the completion function raised, and in-progress stays set exactly when the calculation or the completion function raised |
| DataItemProcessor.SuccessIsFresh | model/DataItemProcessor.py:62-72 | after a successful job the value is fresh, even when the completion function raised: `get_data` returns the computed value and queues nothing |
| DataItemProcessor.EmptyResultFallsBackToDefault | model/DataItemProcessor.py:73-81 | a `None` result removes the slot, resets the cache and flag to `None`, makes `get_data` return the default and passes the default to the completion function; unless that raises, in-progress is cleared and the finish flag set |
| DataItemProcessor.DirtyTriggersOneRecompute | model/DataItemProcessor.py:37-89 | after a job whose completion function returns, a dirty signal and two `get_data` calls queue exactly one new job; the second call changes nothing |
| DataItemProcessor.RunKeepsSingleFlight | model/DataItemProcessor.py:82-89 | over any sequence of calls, dirty signals and task runs, at most one job of the processor is queued, only while it is in progress and unfinished, and the finish flag is set whenever no job is in progress |
| DataItemProcessor.FailureIsPermanent | model/DataItemProcessor.py:64-69 | once in progress with nothing queued (after a raise), no sequence of steps queues a job again or changes the finish flag |
| DataItemProcessor.RaisedJobBlocksRecompute | model/DataItemProcessor.py:64-88 | a raising job sets the finish flag but leaves in-progress set for good, so later `get_data` calls never enqueue |
| DataItemProcessor.CompletionFailureHangsClose | model/DataItemProcessor.py:72-84 | a raising completion function leaves the computed value stored, in-progress set and the finish flag clear with nothing queued, after any later steps: `close()` never returns |
| HistogramPanel.HistogramThread.constructor | HistogramPanel.py:22-32 | a new thread runs with an empty slot |
| HistogramPanel.HistogramThread.HandleData | HistogramPanel.py:42-48 | releases the pending item if any, stores the new one and adds a reference to it if it is not `None` |
| HistogramPanel.HandleDataKeepsBalance | HistogramPanel.py:42-48 | `handle_data` keeps every count equal to its start value plus the slot's own reference |
| HistogramPanel.HistogramThread.GrabData | HistogramPanel.py:50-54 | returns the pending item and empties the slot, so a repeated grab returns `None` |
| HistogramPanel.HistogramThread.ProcessData | HistogramPanel.py:56-57 | hands the item to the panel's `_set_data_item` |
| HistogramPanel.HistogramThread.ReleaseData | HistogramPanel.py:59-60 | drops one reference on the item |
| HistogramPanel.HistogramThread.ProcessingPass | HistogramPanel.py:50-60 | one loop pass grabs, processes and releases, so the slot is empty and the grabbed item's count drops by one |
| HistogramPanel.PassKeepsBalance | HistogramPanel.py:50-60 | a grab-process-release pass keeps the balance |
| HistogramPanel.HistogramThread.Close | HistogramPanel.py:34-40 | stops the loop and releases a pending item that was never grabbed |
| HistogramPanel.CloseRestoresCounts | HistogramPanel.py:34-40 | closing a balanced slot returns every count to its starting value |
| HistogramPanel.RunOpsKeepsBalance | HistogramPanel.py:26-30 | any sequence of `handle_data` calls and passes keeps the balance |
| HistogramPanel.ReferenceBalance | HistogramPanel.py:26-60 | from an empty slot, any sequence of `handle_data` calls and passes followed by one `close` leaves every reference count where it started |
| HistogramPanel.Coalescing | HistogramPanel.py:42-54 | `handle_data(A)` then `handle_data(B)` leaves `B` pending with one extra reference and `A` at its start count; the next pass restores both |
| HistogramPanel.HistogramPanel.constructor | HistogramPanel.py:67-101 | a new panel has limits (0, 1), both flags dirty, no item, and a fresh running thread bound to it |
| HistogramPanel.HistogramPanel.Close | HistogramPanel.py:103-111 | closes the thread, releasing a pending item, and forgets it |
| HistogramPanel.HistogramPanel.SelectedDataItemChanged | HistogramPanel.py:266-268 | hands the item to the thread while there is one |
| HistogramPanel.HistogramPanel.SetDisplayLimits | HistogramPanel.py:113-116 | stores the limits, marks the adornments dirty and redraws |
| HistogramPanel.HistogramPanel.SizeChanged | HistogramPanel.py:118-121 | for a non-empty size marks the histogram dirty and redraws; otherwise changes nothing |
| HistogramPanel.SizeChangedEffect | HistogramPanel.py:118-121 | an empty size changes nothing; a non-empty one without a widget leaves the histogram dirty |
| HistogramPanel.HistogramPanel.MouseDoubleClicked | HistogramPanel.py:123-126 | resets the limits to (0, 1) and clears the item's display limits |
| HistogramPanel.HistogramPanel.MousePressed | HistogramPanel.py:128-131 | records the press and the anchor, and sets both limits to the anchor |
| HistogramPanel.HistogramPanel.MouseReleased | HistogramPanel.py:133-140 | clears the press and writes the item's display limits only with an item and a range strictly between 0 and 1 |
| HistogramPanel.ReleaseEffect | HistogramPanel.py:133-140 | the item limits change only when the guard holds, and what is written is ordered and within the display range |
| HistogramPanel.ToDataLimits | HistogramPanel.py:136-139 | converted limits are ordered, and lie within the display range when the fractions are within (0, 1) |
| HistogramPanel.HistogramPanel.MousePositionChanged | HistogramPanel.py:142-147 | while pressed, sets the limits to the anchor and the position in order; otherwise changes nothing |
| HistogramPanel.DragLimits | HistogramPanel.py:147 | the drag limits are the anchor and the position, lower first |
| HistogramPanel.LimitsStayOrdered | HistogramPanel.py:123-147 | over any sequence of panel events, the lower limit never exceeds the upper |
| HistogramPanel.HistogramPanel.MakeHistogram | HistogramPanel.py:152-158 | clears the histogram flag only when it is set, there is an item and its histogram data is non-empty |
| HistogramPanel.RedrawNeedsHistogramData | HistogramPanel.py:152-158 | a dirty histogram becomes clean exactly when there is a widget, an item and non-empty histogram data |
| HistogramPanel.HistogramPanel.MakeAdornments | HistogramPanel.py:183-187 | clears the adornment flag exactly when there is a widget |
| HistogramPanel.HistogramPanel.UpdateHistogram | HistogramPanel.py:241-246 | with a widget, redraws the histogram and adornments as their flags allow; without one does nothing |
| HistogramPanel.HistogramPanel.SetDataItem | HistogramPanel.py:251-262 | stores the item, dirties both flags and resets the limits to (0, 1) unless the mouse is pressed, then redraws |
| HistogramPanel.SetDataItemEffect | HistogramPanel.py:251-262 | afterwards the item is stored, the limits are reset only when not pressed, and the flags stay dirty exactly when nothing could be drawn |
| DataPanel.DataBrowserController.constructor | nion/swift/DataPanel.py:558-571 | starts unfocused and empty, and resets the document controller's group and filter |
| DataPanel.DataBrowserController.SetFocused | nion/swift/DataPanel.py:580-584 | gaining focus notifies the document controller of the data item |
| DataPanel.DataBrowserController.SetDataBrowserSelection | nion/swift/DataPanel.py:586-622 | implements `AfterSelect`: guarded, forced temporary filter, filter and selection events, and the guard reset also on the exception path |
| DataPanel.SelectOnlyAppends | nion/swift/DataPanel.py:586-622 | a call only appends events and leaves the guard as it found it |
| DataPanel.BlockedCallChangesNothing | nion/swift/DataPanel.py:587 | a call while the guard is set changes nothing and fires nothing |
| DataPanel.TemporaryItemForcesFilter | nion/swift/DataPanel.py:592-595 | a temporary data item always ends under the "temporary" filter (`EffectiveFilter`) |
| DataPanel.SelectFires | nion/swift/DataPanel.py:586-622 | an unguarded call appends exactly the fired events, in order |
| DataPanel.FiredFilterOnce | nion/swift/DataPanel.py:598-612 | the filter-changed event fires once, with the new group and filter, exactly when either changed |
| DataPanel.FiredSelectionOnce | nion/swift/DataPanel.py:614-620 | the selection-changed event fires at most once, with the item, exactly when the filter or item changed and no listener raised first |
| DataPanel.FilterEventIffChanged | nion/swift/DataPanel.py:598-612 | the stored group and filter become the requested ones, and the filter event fires once exactly when either differed |
| DataPanel.SelectionEventIffTriggered | nion/swift/DataPanel.py:614-620 | the stored item becomes the requested one and the selection event fires at most once, exactly when triggered, unless the filter listener raised |
| DataPanel.DataBrowserController.SelectedDisplayItemsChanged | nion/swift/DataPanel.py:632-648 | implements `AfterSelectedDisplayItemsChanged`: none or one display item sets the browser selection, the focused browser notifies, and the display items are kept |
| DataPanel.SingleSelectionIsVisible | nion/swift/DataPanel.py:624-648 | one selected display item in a focused browser becomes the visible data item and the only selected data item |
| DataPanel.MultipleSelectionKeepsItem | nion/swift/DataPanel.py:636-645 | several display items leave the group, filter and item alone; none clears the item |
| DataPanel.DataBrowserController.GetDataItem | nion/swift/DataPanel.py:628-630 | the data item is visible only while focused |
| DataPanel.DataBrowserController.GetSelectedDataItems | nion/swift/DataPanel.py:624-626 | while focused, the data items of the selected display items in order; otherwise empty |
| DataPanel.InsertAt | nion/swift/DataPanel.py:316 | Python's `list.insert` grows the list by one and puts the element at the clamped index |
| DataPanel.DeleteUndoesInsert | nion/swift/DataPanel.py:315-327 | deleting at the index an insertion used gives back the original list |
| DataPanel.InsertKeepsAligned | nion/swift/DataPanel.py:315-320 | inserting a display item and its listener at the same index keeps the two lists aligned |
| DataPanel.DeleteKeepsAligned | nion/swift/DataPanel.py:323-327 | deleting the same index from both lists keeps them aligned, and the deleted listener is the deleted item's |
| DataPanel.DataListController.constructor | nion/swift/DataPanel.py:192-253 | a new controller has empty aligned lists and a clear flag |
| DataPanel.DataListController.DisplayItemInserted | nion/swift/DataPanel.py:315-320 | inserts the item and its listener at the same index and updates the canvas, keeping alignment |
| DataPanel.DataListController.DisplayItemRemoved | nion/swift/DataPanel.py:323-327 | closes the removed item's own listener and deletes the index from both lists, keeping alignment |
| DataPanel.DataListController.DisplayItemNeedsUpdate | nion/swift/DataPanel.py:308-311 | sets the changed flag and queues the update |
| DataPanel.DataListController.UpdateDisplayItems | nion/swift/DataPanel.py:269-276 | reads and clears the flag, and refreshes the canvas exactly when it was set |
| DataPanel.DataListController.DeletePressed | nion/swift/DataPanel.py:285-287 | with a delete callback, hands it the display items at the selected indexes in order |
| DataPanel.DataListController.SelectionChangedNotification | nion/swift/DataPanel.py:238-241 | records the selected indexes and hands the callback the display items at them |
| DataPanel.DataListController.Close | nion/swift/DataPanel.py:255-267 | clears the queued update and closes every listener; a second close is refused |
| DataPanel.ItemsAt | nion/swift/DataPanel.py:287 | the items at the indexes, index by index |
| DataPanel.ParseNatDigits | nion/swift/DataPanel.py:984-985 | reading back the decimal digits of a natural number gives the number |
| DataPanel.ParseFormatInt | nion/swift/DataPanel.py:984-985 | `%i` formatting (`FormatInt`: a minus sign for negative counts, then the decimal digits) can be read back, negative counts included |
| DataPanel.TitleOf | nion/swift/DataPanel.py:984-985 | the title starts with the base title, then " (" and ends with ")" |
| DataPanel.TitleShowsCount | nion/swift/DataPanel.py:984-985 | the text between the parentheses is the formatted count |
| DataPanel.TitleDeterminesCount | nion/swift/DataPanel.py:984-985 | equal titles with the same base title have equal counts |
| DataPanel.LibraryItemController.constructor | nion/swift/DataPanel.py:961-981 | the count starts at the binding's number of data items |
| DataPanel.LibraryItemController.SetTitleCallback | nion/swift/DataPanel.py:710 | records whether `on_title_changed` is set, which decides whether insertions and removals queue the new title |
| DataPanel.LibraryItemController.DataItemInserted | nion/swift/DataPanel.py:968-972 | the count grows by one and, with a title callback, the new title is queued |
| DataPanel.LibraryItemController.DataItemRemoved | nion/swift/DataPanel.py:974-978 | the count shrinks by one and, with a title callback, the new title is queued |
| DataPanel.LibraryDrop | nion/swift/DataPanel.py:715-721 | files are offered exactly on a drop with files onto an item when a receiver is set, and the drop is a copy exactly when the receiver accepts them |
| DataPanel.DropBetweenItemsRefused | nion/swift/DataPanel.py:716-718 | drops between items, or without files, are refused and offer nothing |
| DataPanel.FlattenMembers | nion/swift/DataPanel.py:790-795 | a node is collected exactly when it is a data item reachable through `data_items` lists |
| DataPanel.AppendDataItemFlat | nion/swift/DataPanel.py:790-795 | appends exactly the container's flattening to the accumulator |
| DataPanel.GetDataItemCountFlat | nion/swift/DataPanel.py:796-799 | the count is the flattening's length, and zero exactly when no data item is reachable |
| DataPanel.DataGroupModelController.GetDataGroupIndex | nion/swift/DataPanel.py:884-897 | the first child of the parent that `SearchParent` finds holding the group, with the parent's row and id, or (-1, -1, 0) exactly when there is none |
| DataPanel.RowFilterRoundTrip | nion/swift/DataPanel.py:1012-1018 | `LibraryRowFilter`: row 2 maps to "latest-session", row 1 to "temporary" and any other row to no filter, and `FilterLibraryRow` maps each of these filters back to its row |
| DataPanel.FilterRowRoundTrip | nion/swift/DataPanel.py:1228-1233 | `FilterLibraryRow`: "latest-session" selects row 2, "temporary" row 1 and anything else row 0, and `LibraryRowFilter` maps each of these rows back to its filter |
| DataPanel.LibrarySelectionShowsRow | nion/swift/DataPanel.py:1008-1018 | selecting a library row fires a filter change, if any, that the panel shows as the same row |
| DataPanel.DataPanel.constructor | nion/swift/DataPanel.py:949-1006 | a new panel shows no display items, aligned with its list and grid controllers, which share one selection |
| DataPanel.DataPanel.LibraryWidgetSelectionChanged | nion/swift/DataPanel.py:1008-1020 | unguarded, selects the filter of the first selected row in the browser and resets its guard also when that raises; guarded, does nothing |
| DataPanel.DataPanel.DataPanelFilterChanged | nion/swift/DataPanel.py:1221-1233 | a data group selects its tree index and clears the library row; otherwise the filter's library row is selected |
| DataPanel.IndexOfDataItem | nion/swift/DataPanel.py:1237-1241 | the first index whose display item holds the data item, or -1 exactly when none does |
| DataPanel.DataPanel.DataPanelSelectionChanged | nion/swift/DataPanel.py:1235-1253 | the selection shared by the list and the grid becomes exactly the first display item holding the data item, and is cleared exactly when none does |
| DataPanel.DataPanel.DataItemInserted | nion/swift/DataPanel.py:1105-1109 | inserts a new display item at the index in the panel, list and grid, keeping all three equal; each controller inserts the item's listener at that index, updates its canvas once and closes no listener |
| DataPanel.DataPanel.DataItemRemoved | nion/swift/DataPanel.py:1111-1115 | removes the index from the list, grid and panel and closes that display item, keeping all three equal; each controller deletes and closes exactly that item's listener and updates its canvas once |

## Left out

- Threads, locks, `threading.Event` blocking and `time.sleep`: every method is atomic, the finish event is a flag, and `close` reports whether it would return instead of blocking.
- The `ProcessingThread` base class is not part of this model. Its loop, its 0.2 s throttle and its start and stop are replaced by the `ProcessingPass` step. `update_data` is taken to hand the item to `handle_data`.
- The `add_ref` in `handle_data` runs outside the lock in the program. Interleavings where a grab and release get in before it are not modelled.
- `weakref` liveness of the item and the document controller: the owner is taken to be alive. `get_data_item()` is taken to return the processor's own item.
- DataItemProcessor.constructor: requires that no task is queued under its cache property name yet, which assumes that each processor on an item has its own cache property name.
- The data item's cache and task dispatcher are not part of this model. A slot the item never stored counts as dirty. Tasks are queued in order, and the dispatcher may run any queued task.
- `get_calculated_data` and `get_default_data` are subclass hooks. They are a function-valued field and a constant. The upstream data is a parameter of the job, and the `ui` argument is not modelled.
- `traceback.print_exc`, `logging` and the exception object: an exception is a `Raised` result, a `completionRaises` flag saying whether the completion function raises, or a `Fault` naming the listener that raises.
- Canvas drawing, pixel sampling and widget construction. The histogram data is represented by its length only, and the canvas by an update counter.
- Floating point: display limits are `real`, with no rounding.
- MousePressed: the program divides by the canvas width unguarded, and the model requires a non-zero width.
- HistogramPanel.MousePositionChanged: a drag on a zero-width canvas raises `ZeroDivisionError` in the program, and the model requires a non-zero width while pressed.
- DataListController.DisplayItemRemoved: an out-of-range index raises `IndexError` in the program, and the model requires an index in range.
- DataListController.SelectionChangedNotification: a selected index outside the list raises `IndexError` in the program, and the model requires indexes in range.
- DataListController.DeletePressed: a selected index outside the list raises `IndexError` in the program, and the model requires indexes in range.
- One `DataListController` class models both the list and the grid controller, whose list logic is identical.
- Drag and drop, mime data, `uuid` parsing, `copy.deepcopy`, context menus, thumbnails, `receive_files`, item-model tree operations and the listener dictionaries of `DataGroupModelController`.
- `DataGroupModelController.item_drop_mime_data` is not modelled, for the same reason.
- The panel's listeners on the browser's events are separate methods. The model does not chain a browser call to the panel handlers it triggers.
- The data panel's initial population from the binding is not modelled. That population is a sequence of `DataItemInserted` calls.
- `data_group_widget_selection_changed` and the binding and close glue of `LibraryItemController` are not modelled.
- `Selection` is modelled as a list of indexes with `set` and `clear` only.
