/**
 * A value derived from a data item, cached both in the processor and in one named
 * slot of the item's cache, and recomputed by a background job of which at most one
 * is queued or running at a time.
 *
 * Threads are modelled as explicit steps: every public method is atomic, and the job
 * that `get_data` hands to the item's shared-task dispatcher is a queued `Task` that
 * `RunJob` later takes off the queue and executes.
 */
module DataItemProcessor {
  import opened Wrappers

  /** The processor's own dirty flag: Python `None` (never computed), `True` or `False`. */
  datatype DirtyFlag = Unset | Dirty | Clean

  /** One slot of the data item's cache: the stored value and whether it is dirty. */
  datatype Slot<V> = Slot(value: Option<V>, dirty: bool)

  /** A shared task queued on the data item under a cache property name; it remembers
      whether the `get_data` call that queued it passed a completion function. */
  datatype Task = Task(key: string, hasCompletion: bool)

  /** What `get_calculated_data` does with the upstream data. */
  datatype Calculation<V> = Returned(result: Option<V>) | Raised

  /** Whether the job called the completion function, and with which value. */
  datatype Callback<V> = NotCalled | CalledWith(arg: Option<V>)

  /** How a job ends: it finishes normally, the calculation's exception propagates to the
      dispatcher, or the completion function raises when called with `arg`. */
  datatype JobEnd<V> = Finished(callback: Callback<V>) | Propagated | CompletionRaised(arg: Option<V>)

  /** The processor's fields together with the cache slots and task queue of its item. */
  datatype Snapshot<V> = Snapshot(
    cachedValue: Option<V>,
    dirty: DirtyFlag,
    inProgress: bool,
    finished: bool,
    slots: map<string, Slot<V>>,
    tasks: seq<Task>)

  // ---------------------------------------------------------------------------
  // The item's cache slots and task queue
  // ---------------------------------------------------------------------------

  /** A slot the item has never stored (or has removed) counts as dirty. */
  predicate SlotDirty<V>(slots: map<string, Slot<V>>, key: string) {
    key !in slots || slots[key].dirty
  }

  function MarkSlotDirty<V>(slots: map<string, Slot<V>>, key: string): map<string, Slot<V>> {
    slots[key := Slot(if key in slots then slots[key].value else None, true)]
  }

  /** The number of queued tasks filed under `key`. */
  function CountKey(tasks: seq<Task>, key: string): nat {
    if tasks == [] then 0
    else (if tasks[0].key == key then 1 else 0) + CountKey(tasks[1..], key)
  }

  /** The queue after the dispatcher has taken the task at index `at`. */
  function RemoveAt(tasks: seq<Task>, at: nat): seq<Task>
    requires at < |tasks|
  {
    tasks[..at] + tasks[at + 1..]
  }

  lemma {:induction false} CountKeyAppend(tasks: seq<Task>, t: Task, key: string)
    ensures CountKey(tasks + [t], key) == CountKey(tasks, key) + (if t.key == key then 1 else 0)
  {
    if tasks == [] {
      assert [t][1..] == [];
    } else {
      assert (tasks + [t])[1..] == tasks[1..] + [t];
      CountKeyAppend(tasks[1..], t, key);
    }
  }

  lemma {:induction false} CountKeyRemoveAt(tasks: seq<Task>, at: nat, key: string)
    requires at < |tasks|
    ensures CountKey(RemoveAt(tasks, at), key) == CountKey(tasks, key) - (if tasks[at].key == key then 1 else 0)
  {
    if at == 0 {
      assert RemoveAt(tasks, 0) == tasks[1..];
    } else {
      var rest := RemoveAt(tasks[1..], at - 1);
      assert RemoveAt(tasks, at) == [tasks[0]] + rest;
      assert ([tasks[0]] + rest)[1..] == rest;
      CountKeyRemoveAt(tasks[1..], at - 1, key);
    }
  }

  /** No task filed under `key` sits anywhere in a queue whose count for `key` is zero. */
  lemma {:induction false} CountKeyZero(tasks: seq<Task>, at: nat, key: string)
    requires CountKey(tasks, key) == 0 && at < |tasks|
    ensures tasks[at].key != key
  {
    if at > 0 {
      CountKeyZero(tasks[1..], at - 1, key);
    }
  }

  // ---------------------------------------------------------------------------
  // The transitions, as functions of the snapshot
  // ---------------------------------------------------------------------------

  /** `get_data` treats the value as stale when its own flag is `True` or the item
      reports the slot dirty; the initial `None` flag does not count as dirty. */
  predicate Stale<V>(s: Snapshot<V>, key: string) {
    s.dirty == Dirty || SlotDirty(s.slots, key)
  }

  /** `get_data` queues a job when the value is stale, the item is open, it has exactly
      one data output and no job of this processor is in progress. */
  predicate Enqueues<V>(s: Snapshot<V>, key: string, closed: bool, outputCount: nat) {
    Stale(s, key) && !closed && outputCount == 1 && !s.inProgress
  }

  /** What `get_data` returns: the local cached value, or else the default value. */
  function GetDataResult<V>(s: Snapshot<V>, default: Option<V>): Option<V> {
    if s.cachedValue.Some? then s.cachedValue else default
  }

  function AfterGetData<V>(s: Snapshot<V>, key: string, hasCompletion: bool, closed: bool, outputCount: nat): Snapshot<V> {
    if Enqueues(s, key, closed, outputCount)
    then s.(inProgress := true, finished := false, tasks := s.tasks + [Task(key, hasCompletion)])
    else s
  }

  function AfterMarkDirty<V>(s: Snapshot<V>, key: string): Snapshot<V> {
    s.(slots := MarkSlotDirty(s.slots, key), dirty := Dirty)
  }

  /** Missing upstream data behaves as a calculation that returned `None`. */
  function JobCalculation<D, V>(calculate: D -> Calculation<V>, data: Option<D>): Calculation<V> {
    if data.None? then Returned(None) else calculate(data.value)
  }

  /** The end of a job whose calculation returned: in-progress is cleared and the finish
      event set, unless the completion function raised before reaching that point. */
  function Settle<V>(s: Snapshot<V>, completionRaised: bool): Snapshot<V> {
    if completionRaised then s else s.(inProgress := false, finished := true)
  }

  /** What the job does to the processor's fields and the item's cache;
      `completionRaised` says whether a completion function was called and raised. */
  function JobBody<V>(s: Snapshot<V>, key: string, c: Calculation<V>, completionRaised: bool): Snapshot<V> {
    match c
    case Raised =>
      s.(finished := true)
    case Returned(Some(v)) =>
      Settle(s.(slots := s.slots[key := Slot(Some(v), false)], cachedValue := Some(v), dirty := Clean),
             completionRaised)
    case Returned(None) =>
      Settle(s.(slots := s.slots - {key}, cachedValue := None, dirty := Unset), completionRaised)
  }

  /** The dispatcher takes the task at `at` off the queue and runs the job; the task's
      completion function, if it has one, raises when `completionRaises` holds. */
  function AfterJob<V>(s: Snapshot<V>, key: string, at: nat, c: Calculation<V>, completionRaises: bool): Snapshot<V>
    requires at < |s.tasks|
  {
    JobBody(s.(tasks := RemoveAt(s.tasks, at)), key, c, s.tasks[at].hasCompletion && completionRaises)
  }

  function JobOutcome<V>(c: Calculation<V>, hasCompletion: bool, completionRaises: bool, default: Option<V>): JobEnd<V> {
    match c
    case Raised => Propagated
    case Returned(r) =>
      var arg := if r.Some? then r else default;
      if !hasCompletion then Finished(NotCalled)
      else if completionRaises then CompletionRaised(arg)
      else Finished(CalledWith(arg))
  }

  /** Single flight: at most one job of this processor is queued, and only while it is in
      progress with its finish flag clear; when no job is in progress the flag is set.
      (A job whose completion function raised leaves it in progress and unfinished with
      nothing queued.) */
  predicate SingleFlight<V>(s: Snapshot<V>, key: string) {
    && CountKey(s.tasks, key) <= 1
    && (CountKey(s.tasks, key) == 1 ==> s.inProgress && !s.finished)
    && (!s.inProgress ==> s.finished)
  }

  // ---------------------------------------------------------------------------
  // Properties of one transition
  // ---------------------------------------------------------------------------

  /** `get_data` adds exactly one task under the key when it enqueues, none otherwise,
      and keeps single flight. */
  lemma GetDataKeepsSingleFlight<V>(s: Snapshot<V>, key: string, hasCompletion: bool, closed: bool, outputCount: nat)
    requires SingleFlight(s, key)
    ensures var s' := AfterGetData(s, key, hasCompletion, closed, outputCount);
      && SingleFlight(s', key)
      && CountKey(s'.tasks, key) == CountKey(s.tasks, key) + (if Enqueues(s, key, closed, outputCount) then 1 else 0)
  {
    CountKeyAppend(s.tasks, Task(key, hasCompletion), key);
  }

  /** `set_cached_value_dirty` makes the value stale: the local flag becomes `True` and the
      slot is marked dirty, keeping its stored value; nothing else changes. */
  lemma MarkDirtyMakesStale<V>(s: Snapshot<V>, key: string)
    ensures var s' := AfterMarkDirty(s, key);
      && Stale(s', key) && s'.dirty == Dirty
      && key in s'.slots && s'.slots[key].dirty
      && s'.slots[key].value == (if key in s.slots then s.slots[key].value else None)
      && (forall k :: k != key ==> (k in s'.slots <==> k in s.slots))
      && s' == s.(slots := s'.slots, dirty := Dirty)
  {
  }

  /** The initial `None` flag is not dirty: with a clean slot `get_data` queues nothing. */
  lemma UnsetFlagIsNotDirty<V>(s: Snapshot<V>, key: string, hasCompletion: bool, closed: bool, outputCount: nat)
    requires s.dirty == Unset && key in s.slots && !s.slots[key].dirty
    ensures !Stale(s, key)
    ensures AfterGetData(s, key, hasCompletion, closed, outputCount) == s
  {
  }

  /** While a job is in progress, or when the item is closed or does not have exactly one
      data output, `get_data` changes nothing. */
  lemma GetDataGuards<V>(s: Snapshot<V>, key: string, hasCompletion: bool, closed: bool, outputCount: nat)
    requires s.inProgress || closed || outputCount != 1
    ensures AfterGetData(s, key, hasCompletion, closed, outputCount) == s
  {
  }

  /** A stale value on an open item with one data output and no job in progress queues
      exactly one task under the key, and sets in progress and clears the finish flag. */
  lemma GetDataEnqueuesOne<V>(s: Snapshot<V>, key: string, hasCompletion: bool)
    requires Stale(s, key) && !s.inProgress
    ensures var s' := AfterGetData(s, key, hasCompletion, false, 1);
      && s'.inProgress && !s'.finished
      && s'.tasks == s.tasks + [Task(key, hasCompletion)]
      && CountKey(s'.tasks, key) == CountKey(s.tasks, key) + 1
      && s'.cachedValue == s.cachedValue && s'.slots == s.slots && s'.dirty == s.dirty
  {
    CountKeyAppend(s.tasks, Task(key, hasCompletion), key);
  }

  /** Running this processor's job empties its part of the queue and keeps single flight.
      The finish flag ends up set unless the completion function raised; in-progress stays
      set exactly when the calculation or the completion function raised. */
  lemma JobKeepsSingleFlight<V>(s: Snapshot<V>, key: string, at: nat, c: Calculation<V>, completionRaises: bool)
    requires SingleFlight(s, key)
    requires at < |s.tasks| && s.tasks[at].key == key
    ensures var s' := AfterJob(s, key, at, c, completionRaises);
      var completionRaised := c.Returned? && s.tasks[at].hasCompletion && completionRaises;
      && SingleFlight(s', key)
      && CountKey(s'.tasks, key) == 0
      && s'.finished == !completionRaised
      && s'.inProgress == (c.Raised? || completionRaised)
  {
    CountKeyRemoveAt(s.tasks, at, key);
  }

  /** A successful job leaves the value fresh: `get_data` then returns the computed
      value and queues nothing, whatever the item's state. */
  lemma SuccessIsFresh<V>(s: Snapshot<V>, key: string, at: nat, v: V, default: Option<V>,
                          completionRaises: bool, hasCompletion: bool, closed: bool, outputCount: nat)
    requires at < |s.tasks|
    ensures var s' := AfterJob(s, key, at, Returned(Some(v)), completionRaises);
      && !Stale(s', key)
      && GetDataResult(s', default) == Some(v)
      && AfterGetData(s', key, hasCompletion, closed, outputCount) == s'
  {
  }

  /** A job with no upstream data or a `None` result removes the slot, so `get_data`
      falls back to the default value and sees the value stale again; a completion
      function is called with the default value. */
  lemma EmptyResultFallsBackToDefault<V>(s: Snapshot<V>, key: string, at: nat, default: Option<V>,
                                         completionRaises: bool, hasCompletion: bool)
    requires at < |s.tasks|
    ensures var s' := AfterJob(s, key, at, Returned(None), completionRaises);
      && key !in s'.slots
      && s'.cachedValue == None && s'.dirty == Unset
      && GetDataResult(s', default) == default
      && Stale(s', key)
      && (!(s.tasks[at].hasCompletion && completionRaises) ==> !s'.inProgress && s'.finished)
      && (hasCompletion ==>
            JobOutcome(Returned(None), hasCompletion, completionRaises, default) in
              {Finished(CalledWith(default)), CompletionRaised(default)})
  {
  }

  /** After a successful computation, marking the value dirty and calling `get_data`
      twice queues exactly one new job, on the second call nothing changes. */
  lemma DirtyTriggersOneRecompute<V>(s: Snapshot<V>, key: string, at: nat, v: V, h1: bool, h2: bool)
    requires SingleFlight(s, key)
    requires at < |s.tasks| && s.tasks[at].key == key
    ensures var done := AfterJob(s, key, at, Returned(Some(v)), false);
      var first := AfterGetData(AfterMarkDirty(done, key), key, h1, false, 1);
      var second := AfterGetData(first, key, h2, false, 1);
      && CountKey(done.tasks, key) == 0
      && CountKey(first.tasks, key) == 1
      && first.inProgress && !first.finished
      && second == first
  {
    JobKeepsSingleFlight(s, key, at, Returned(Some(v)), false);
    var done := AfterJob(s, key, at, Returned(Some(v)), false);
    CountKeyAppend(done.tasks, Task(key, h1), key);
  }

  /** `close()` waits while a job of this processor is queued; when the finish flag is
      clear with nothing queued, a completion function raised and the job is stuck. */
  lemma CloseWaitsForQueuedJob<V>(s: Snapshot<V>, key: string)
    requires SingleFlight(s, key)
    ensures CountKey(s.tasks, key) == 1 ==> !s.finished
    ensures s.finished ==> CountKey(s.tasks, key) == 0
    ensures !s.finished ==> s.inProgress
  {
  }

  // ---------------------------------------------------------------------------
  // Properties of any sequence of steps
  // ---------------------------------------------------------------------------

  /** One atomic step seen by the processor: a `get_data` call (with the item's closed
      flag and number of data outputs at that moment), a dirty signal, the dispatcher
      running the task at `at`, or another cache property's task being queued or run. */
  datatype Step<V> =
    | GetData(hasCompletion: bool, closed: bool, outputCount: nat)
    | MarkDirty
    | RunJob(at: nat, c: Calculation<V>, completionRaises: bool)
    | QueueOther(t: Task)
    | RunOther(at: nat)

  /** A step that does not apply (a job index that is not this processor's task,
      another task filed under this processor's key) changes nothing. */
  function Apply<V>(s: Snapshot<V>, key: string, step: Step<V>): Snapshot<V> {
    match step
    case GetData(h, closed, n) => AfterGetData(s, key, h, closed, n)
    case MarkDirty => AfterMarkDirty(s, key)
    case RunJob(at, c, raises) =>
      if at < |s.tasks| && s.tasks[at].key == key then AfterJob(s, key, at, c, raises) else s
    case QueueOther(t) =>
      if t.key != key then s.(tasks := s.tasks + [t]) else s
    case RunOther(at) =>
      if at < |s.tasks| && s.tasks[at].key != key then s.(tasks := RemoveAt(s.tasks, at)) else s
  }

  function Run<V>(s: Snapshot<V>, key: string, steps: seq<Step<V>>): Snapshot<V>
    decreases |steps|
  {
    if steps == [] then s else Run(Apply(s, key, steps[0]), key, steps[1..])
  }

  lemma StepKeepsSingleFlight<V>(s: Snapshot<V>, key: string, step: Step<V>)
    requires SingleFlight(s, key)
    ensures SingleFlight(Apply(s, key, step), key)
  {
    match step
    case GetData(h, closed, n) =>
      GetDataKeepsSingleFlight(s, key, h, closed, n);
    case MarkDirty =>
    case RunJob(at, c, raises) =>
      if at < |s.tasks| && s.tasks[at].key == key {
        JobKeepsSingleFlight(s, key, at, c, raises);
      }
    case QueueOther(t) =>
      CountKeyAppend(s.tasks, t, key);
    case RunOther(at) =>
      if at < |s.tasks| && s.tasks[at].key != key {
        CountKeyRemoveAt(s.tasks, at, key);
      }
  }

  /** Single flight holds after any sequence of steps: never more than one job of the
      processor is queued, and one is queued exactly while it is in progress and unfinished. */
  lemma {:induction false} RunKeepsSingleFlight<V>(s: Snapshot<V>, key: string, steps: seq<Step<V>>)
    requires SingleFlight(s, key)
    ensures SingleFlight(Run(s, key, steps), key)
    ensures CountKey(Run(s, key, steps).tasks, key) <= 1
    decreases |steps|
  {
    if steps != [] {
      StepKeepsSingleFlight(s, key, steps[0]);
      RunKeepsSingleFlight(Apply(s, key, steps[0]), key, steps[1..]);
    }
  }

  /** A job whose calculation or completion function raised leaves the processor in
      progress with nothing queued; no later step ever queues or runs a job for it again,
      nor changes its finish flag. */
  lemma {:induction false} FailureIsPermanent<V>(s: Snapshot<V>, key: string, steps: seq<Step<V>>)
    requires s.inProgress && CountKey(s.tasks, key) == 0
    ensures Run(s, key, steps).inProgress && CountKey(Run(s, key, steps).tasks, key) == 0
    ensures Run(s, key, steps).finished == s.finished
    decreases |steps|
  {
    if steps != [] {
      var next := Apply(s, key, steps[0]);
      match steps[0] {
        case GetData(h, closed, n) =>
        case MarkDirty =>
        case RunJob(at, c, raises) =>
          if at < |s.tasks| {
            CountKeyZero(s.tasks, at, key);
          }
        case QueueOther(t) =>
          CountKeyAppend(s.tasks, t, key);
        case RunOther(at) =>
          if at < |s.tasks| && s.tasks[at].key != key {
            CountKeyRemoveAt(s.tasks, at, key);
          }
      }
      FailureIsPermanent(next, key, steps[1..]);
    }
  }

  /** The exception path: the job that raised leaves the processor stuck in progress. */
  lemma RaisedJobBlocksRecompute<V>(s: Snapshot<V>, key: string, at: nat, completionRaises: bool, steps: seq<Step<V>>)
    requires SingleFlight(s, key)
    requires at < |s.tasks| && s.tasks[at].key == key
    ensures var failed := AfterJob(s, key, at, Raised, completionRaises);
      && failed.finished
      && Run(failed, key, steps).inProgress
      && CountKey(Run(failed, key, steps).tasks, key) == 0
  {
    JobKeepsSingleFlight(s, key, at, Raised, completionRaises);
    FailureIsPermanent(AfterJob(s, key, at, Raised, completionRaises), key, steps);
  }

  /** A completion function that raises skips clearing in-progress and setting the finish
      event: the computed value is stored, but from then on no step queues a job again and
      the finish flag stays clear, so `close()` never returns. */
  lemma CompletionFailureHangsClose<V>(s: Snapshot<V>, key: string, at: nat, r: Option<V>, steps: seq<Step<V>>)
    requires SingleFlight(s, key)
    requires at < |s.tasks| && s.tasks[at].key == key && s.tasks[at].hasCompletion
    ensures var stuck := AfterJob(s, key, at, Returned(r), true);
      && stuck.cachedValue == r
      && !Run(stuck, key, steps).finished
      && Run(stuck, key, steps).inProgress
      && CountKey(Run(stuck, key, steps).tasks, key) == 0
  {
    JobKeepsSingleFlight(s, key, at, Returned(r), true);
    FailureIsPermanent(AfterJob(s, key, at, Returned(r), true), key, steps);
  }

  // ---------------------------------------------------------------------------
  // The data item (only the part of its interface the processor uses)
  // ---------------------------------------------------------------------------

  class DataItem<V> {
    var slots: map<string, Slot<V>>
    var tasks: seq<Task>
    var closed: bool
    var outputCount: nat

    constructor (closed: bool, outputCount: nat)
      ensures slots == map[] && tasks == []
      ensures this.closed == closed && this.outputCount == outputCount
    {
      slots := map[];
      tasks := [];
      this.closed := closed;
      this.outputCount := outputCount;
    }

    predicate IsCachedValueDirty(key: string)
      reads this
    {
      SlotDirty(slots, key)
    }

    method SetCachedValueDirty(key: string)
      modifies this`slots
      ensures slots == MarkSlotDirty(old(slots), key)
    {
      slots := MarkSlotDirty(slots, key);
    }

    method SetCachedValue(key: string, value: Option<V>)
      modifies this`slots
      ensures slots == old(slots)[key := Slot(value, false)]
    {
      slots := slots[key := Slot(value, false)];
    }

    method RemoveCachedValue(key: string)
      modifies this`slots
      ensures slots == old(slots) - {key}
    {
      slots := slots - {key};
    }

    method AddSharedTask(t: Task)
      modifies this`tasks
      ensures tasks == old(tasks) + [t]
    {
      tasks := tasks + [t];
    }

    /** The dispatcher taking the task at `at` off the queue to run it. */
    method TakeTask(at: nat) returns (t: Task)
      requires at < |tasks|
      modifies this`tasks
      ensures t == old(tasks)[at] && tasks == RemoveAt(old(tasks), at)
    {
      t := tasks[at];
      tasks := RemoveAt(tasks, at);
    }
  }

  // ---------------------------------------------------------------------------
  // The processor
  // ---------------------------------------------------------------------------

  class DataItemProcessor<D, V> {
    const item: DataItem<V>
    const cachePropertyName: string
    /** `get_calculated_data`, supplied by the subclass. */
    const calculate: D -> Calculation<V>
    /** What `get_default_data` returns (`None` unless a subclass overrides it). */
    const defaultData: Option<V>

    var inProgress: bool
    /** Whether the finish event is set. */
    var finished: bool
    var cachedValue: Option<V>
    var cachedValueDirty: DirtyFlag

    ghost function Snap(): Snapshot<V>
      reads this, item
    {
      Snapshot(cachedValue, cachedValueDirty, inProgress, finished, item.slots, item.tasks)
    }

    ghost predicate Valid()
      reads this, item
    {
      SingleFlight(Snap(), cachePropertyName)
    }

    /** A processor starts with no value, the `None` flag, nothing in progress and the
        finish event set; no task is filed under its cache property name yet. */
    constructor (item: DataItem<V>, cachePropertyName: string, calculate: D -> Calculation<V>, defaultData: Option<V>)
      requires CountKey(item.tasks, cachePropertyName) == 0
      ensures this.item == item && this.cachePropertyName == cachePropertyName
      ensures this.calculate == calculate && this.defaultData == defaultData
      ensures Snap() == Snapshot(None, Unset, false, true, item.slots, item.tasks)
      ensures Valid()
    {
      this.item := item;
      this.cachePropertyName := cachePropertyName;
      this.calculate := calculate;
      this.defaultData := defaultData;
      inProgress := false;
      finished := true;
      cachedValue := None;
      cachedValueDirty := Unset;
    }

    /** `close()` waits on the finish event: it returns now exactly when no job of this
        processor is queued, and otherwise blocks until that job has run. */
    method Close() returns (returned: bool)
      requires Valid()
      ensures returned == finished
      ensures CountKey(item.tasks, cachePropertyName) == 1 ==> !returned
      ensures returned ==> CountKey(item.tasks, cachePropertyName) == 0
    {
      returned := finished;
    }

    function GetDefaultData(): Option<V> {
      defaultData
    }

    /** Marks the item's slot dirty and sets the local flag to `True`. */
    method SetCachedValueDirty()
      requires Valid()
      modifies this, item
      ensures Valid()
      ensures Snap() == AfterMarkDirty(old(Snap()), cachePropertyName)
      ensures item.closed == old(item.closed) && item.outputCount == old(item.outputCount)
    {
      item.SetCachedValueDirty(cachePropertyName);
      cachedValueDirty := Dirty;
    }

    /** Called by the data item when its content changes. */
    method DataItemChanged()
      requires Valid()
      modifies this, item
      ensures Valid()
      ensures Snap() == AfterMarkDirty(old(Snap()), cachePropertyName)
      ensures item.closed == old(item.closed) && item.outputCount == old(item.outputCount)
    {
      SetCachedValueDirty();
    }

    /** Called by the data item when a property changes; the base class ignores it. */
    method ItemPropertyChanged<P>(key: string, value: P)
      ensures Snap() == old(Snap())
    {
    }

    method GetData(hasCompletion: bool) returns (r: Option<V>)
      requires Valid()
      modifies this, item
      ensures Valid()
      ensures Snap() == AfterGetData(old(Snap()), cachePropertyName, hasCompletion, item.closed, item.outputCount)
      ensures item.closed == old(item.closed) && item.outputCount == old(item.outputCount)
      ensures r == GetDataResult(old(Snap()), defaultData)
    {
      ghost var before := Snap();
      if cachedValueDirty == Dirty || item.IsCachedValueDirty(cachePropertyName) {
        if !item.closed {
          if item.outputCount == 1 {
            if !inProgress {
              inProgress := true;
              finished := false;
              item.AddSharedTask(Task(cachePropertyName, hasCompletion));
            }
          }
        }
      }
      r := if cachedValue.Some? then cachedValue else GetDefaultData();
      GetDataKeepsSingleFlight(before, cachePropertyName, hasCompletion, item.closed, item.outputCount);
    }

    /** The dispatcher runs this processor's queued job: it takes the task at `at`
        off the item's queue and calls the job's body. `completionRaises` says whether
        the task's completion function, if it has one, raises. */
    method RunJob(at: nat, data: Option<D>, completionRaises: bool) returns (end: JobEnd<V>)
      requires Valid()
      requires at < |item.tasks| && item.tasks[at].key == cachePropertyName
      modifies this, item
      ensures Valid()
      ensures Snap() == AfterJob(old(Snap()), cachePropertyName, at, JobCalculation(calculate, data), completionRaises)
      ensures item.closed == old(item.closed) && item.outputCount == old(item.outputCount)
      ensures end == JobOutcome(JobCalculation(calculate, data), old(item.tasks[at].hasCompletion), completionRaises, defaultData)
    {
      JobKeepsSingleFlight(Snap(), cachePropertyName, at, JobCalculation(calculate, data), completionRaises);
      var task := item.TakeTask(at);
      end := LoadDataOnThread(task.hasCompletion, data, completionRaises);
    }

    /** The job's body (`load_data_on_thread`); `data` is what the item's data output
        holds when the job starts. */
    method LoadDataOnThread(hasCompletion: bool, data: Option<D>, completionRaises: bool) returns (end: JobEnd<V>)
      modifies this, item
      ensures Snap() == JobBody(old(Snap()), cachePropertyName, JobCalculation(calculate, data),
                                hasCompletion && completionRaises)
      ensures item.closed == old(item.closed) && item.outputCount == old(item.outputCount)
      ensures end == JobOutcome(JobCalculation(calculate, data), hasCompletion, completionRaises, defaultData)
    {
      ghost var before := Snap();
      var calculated: Option<V>;
      if data.Some? {
        var c := calculate(data.value);
        if c.Raised? {
          finished := true;
          end := Propagated;
          return;
        }
        calculated := c.result;
        item.SetCachedValue(cachePropertyName, calculated);
        cachedValue := calculated;
        cachedValueDirty := Clean;
      } else {
        calculated := None;
      }
      if calculated.None? {
        calculated := GetDefaultData();
        item.RemoveCachedValue(cachePropertyName);
        cachedValue := None;
        cachedValueDirty := Unset;
        assert item.slots == before.slots - {cachePropertyName};
      }
      if hasCompletion {
        if completionRaises {
          // the exception leaves in-progress set and the finish event clear
          end := CompletionRaised(calculated);
          return;
        }
        end := Finished(CalledWith(calculated));
      } else {
        end := Finished(NotCalled);
      }
      inProgress := false;
      finished := true;
    }
  }
}
