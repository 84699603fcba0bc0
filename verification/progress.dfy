/** `Progress` and `ProgressTracker` (audiokit/progress.py, with an identical
    copy in audiokit_cli/progress.py). The asyncio queue is modelled by the
    number of items put on it: every item is the tracker's one live progress
    record, not a snapshot. The background task is modelled by whether one
    exists; what it does with queued items is not modelled. */
module Progress {
  import opened Wrappers

  datatype ProgressState = Pending | Uploading | Processing | Downloading | Complete | Failed

  /** The string value of each state. */
  function StateValue(s: ProgressState): string {
    match s
    case Pending => "pending"
    case Uploading => "uploading"
    case Processing => "processing"
    case Downloading => "downloading"
    case Complete => "complete"
    case Failed => "failed"
  }

  /** The details dictionary is carried through unchanged and not inspected. */
  datatype Progress<D> = Progress(
    state: ProgressState,
    total: Option<int>,
    completed: int,
    message: Option<string>,
    details: Option<D>)

  /** `Progress(state=s)` with the dataclass defaults. */
  function Initial<D>(s: ProgressState): (p: Progress<D>)
    ensures p.state == s && p.total.None? && p.completed == 0 && p.message.None? && p.details.None?
  {
    Progress(s, None, 0, None, None)
  }

  /** The `percentage` property: undefined without a non-zero total. */
  function Percentage<D>(p: Progress<D>): (r: Option<real>)
    ensures r.None? <==> p.total.None? || p.total.value == 0
    ensures r.Some? ==> r.value * p.total.value as real == p.completed as real * 100.0
  {
    if p.total.None? || p.total.value == 0 then None
    else Some(p.completed as real / p.total.value as real * 100.0)
  }

  /** Done means 100 percent, and nothing done means 0 percent. */
  lemma PercentageEnds<D>(p: Progress<D>)
    requires p.total.Some? && p.total.value != 0
    ensures p.completed == p.total.value ==> Percentage(p) == Some(100.0)
    ensures p.completed == 0 ==> Percentage(p) == Some(0.0)
  {
    var t := p.total.value as real;
    assert t / t == 1.0;
    assert 0.0 / t == 0.0;
  }

  /** Within `0 <= completed <= total` the percentage lies in [0, 100]. */
  lemma PercentageBounded<D>(p: Progress<D>)
    requires p.total.Some? && 0 <= p.completed <= p.total.value && p.total.value != 0
    ensures 0.0 <= Percentage(p).value <= 100.0
  {
    var t := p.total.value as real;
    var c := p.completed as real;
    assert c / t <= 1.0 by {
      assert c / t * t == c;
    }
  }

  datatype Tracker<D> = Tracker(progress: Progress<D>, queued: nat, hasTask: bool)

  /** A new tracker: pending progress, an empty queue, no task. */
  function NewTracker<D>(): (t: Tracker<D>)
    ensures t.progress == Initial(Pending) && t.queued == 0 && !t.hasTask
  {
    Tracker(Initial(Pending), 0, false)
  }

  /** The item at position `i` of the queue, as a consumer reads it: the
      live record, whatever it held when it was put. */
  function QueuedItem<D>(t: Tracker<D>, i: nat): Progress<D>
    requires i < t.queued
  {
    t.progress
  }

  function Override<T>(given: Option<T>, current: T): T {
    if given.Some? then given.value else current
  }

  /** `update`: each argument that is not `None` replaces its field; then
      the record is put on the queue. */
  function Update<D>(t: Tracker<D>, state: Option<ProgressState>, completed: Option<int>, total: Option<int>,
                     message: Option<string>, details: Option<D>): (r: Tracker<D>)
    ensures r.queued == t.queued + 1 && r.hasTask == t.hasTask
    ensures r.progress.state == (if state.Some? then state.value else t.progress.state)
    ensures r.progress.completed == (if completed.Some? then completed.value else t.progress.completed)
    ensures r.progress.total == (if total.Some? then total else t.progress.total)
    ensures r.progress.message == (if message.Some? then message else t.progress.message)
    ensures r.progress.details == (if details.Some? then details else t.progress.details)
  {
    var p := t.progress;
    var p1 := p.(state := Override(state, p.state),
                 completed := Override(completed, p.completed),
                 total := if total.Some? then total else p.total,
                 message := if message.Some? then message else p.message,
                 details := if details.Some? then details else p.details);
    Tracker(p1, t.queued + 1, t.hasTask)
  }

  /** An update with no arguments changes no field but still queues an item. */
  lemma EmptyUpdate<D>(t: Tracker<D>)
    ensures Update(t, None, None, None, None, None).progress == t.progress
    ensures Update(t, None, None, None, None, None).queued == t.queued + 1
  {
  }

  /** Every queued item reads as the latest state: after two updates both
      items show the second update's fields, so the first one's values can
      no longer be observed. */
  lemma QueueAliasesLiveRecord<D>(t: Tracker<D>, a: ProgressState, b: ProgressState)
    ensures var t2 := Update(Update(t, Some(a), None, None, None, None), Some(b), None, None, None, None);
      t2.queued == t.queued + 2 &&
      forall i :: 0 <= i < t2.queued ==> QueuedItem(t2, i).state == b
  {
  }

  /** Updates to different fields commute. */
  lemma UpdatesCommute<D>(t: Tracker<D>, s: ProgressState, c: int)
    ensures Update(Update(t, Some(s), None, None, None, None), None, Some(c), None, None, None) ==
            Update(Update(t, None, Some(c), None, None, None), Some(s), None, None, None, None)
  {
  }

  /** `start`: creates the task only when there is none. */
  function Start<D>(t: Tracker<D>): (r: Tracker<D>)
    ensures r.hasTask && r.progress == t.progress && r.queued == t.queued
  {
    if !t.hasTask then t.(hasTask := true) else t
  }

  /** `stop`: cancels and forgets the task; without one it does nothing. */
  function Stop<D>(t: Tracker<D>): (r: Tracker<D>)
    ensures !r.hasTask && r.progress == t.progress && r.queued == t.queued
    ensures !t.hasTask ==> r == t
  {
    if t.hasTask then t.(hasTask := false) else t
  }

  /** Start and stop are idempotent, and stopping undoes starting. */
  lemma StartStopIdempotent<D>(t: Tracker<D>)
    ensures Start(Start(t)) == Start(t)
    ensures Stop(Stop(t)) == Stop(t)
    ensures Stop(Start(t)) == t.(hasTask := false)
    ensures t.hasTask ==> Start(t) == t
  {
  }
}
