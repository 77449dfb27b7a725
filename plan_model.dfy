/** The plan entities of `storage.service.ts` and the progress rule that the
    dashboard applies to them.

    A plan is a mutable object: the dashboard changes its modules, progress and
    journal in place, and the same object sits in the store's list, so `Plan` is a
    class. Everything a plan holds below that level is a value. */
module PlanModel {
  import opened Wrappers

  /** A link attached to a task. */
  datatype Resource = Resource(title: string, url: string)

  datatype Task = Task(title: string, description: string, completed: bool, resources: seq<Resource>)

  /** One week of a curriculum; referred to by its position in the plan. */
  datatype Module = Module(title: string, week: int, description: string, tasks: seq<Task>)

  datatype MediaKind = Image | Video | Audio

  /** A journal entry. The dashboard only ever writes `media` and `mediaType` as absent. */
  datatype Log = Log(id: string, date: string, text: string, media: Option<string>, mediaType: Option<MediaKind>)

  /** The wizard's draft `{skill, context, framework}`; a new plan keeps it as its config. */
  datatype Draft = Draft(skill: string, context: string, framework: string)

  /** The value of a plan as `JSON.stringify` writes it to storage. A stored plan may
      lack its `logs` list, hence the option. */
  datatype PlanRecord = PlanRecord(
    id: string, skill: string, config: Draft, modules: seq<Module>,
    progress: int, logs: Option<seq<Log>>, createdAt: int)

  class Plan {
    const id: string
    const skill: string
    const config: Draft
    const createdAt: int
    var modules: seq<Module>
    var progress: int
    var logs: Option<seq<Log>>

    constructor (id: string, skill: string, config: Draft, modules: seq<Module>,
                 progress: int, logs: Option<seq<Log>>, createdAt: int)
      ensures Record() == PlanRecord(id, skill, config, modules, progress, logs, createdAt)
    {
      this.id, this.skill, this.config, this.createdAt := id, skill, config, createdAt;
      this.modules, this.progress, this.logs := modules, progress, logs;
    }

    /** The plan's current value. */
    function Record(): PlanRecord
      reads this
    {
      PlanRecord(id, skill, config, modules, progress, logs, createdAt)
    }
  }

  /** `p.logs`, with a missing list read as the empty list. */
  function LogsOrEmpty(logs: Option<seq<Log>>): seq<Log>
  {
    if logs.Some? then logs.value else []
  }

  /** Number of tasks over all modules. Counted from the back, the order in which
      a forward loop has seen them. */
  function TaskCount(ms: seq<Module>): nat
  {
    if ms == [] then 0 else TaskCount(ms[..|ms| - 1]) + |ms[|ms| - 1].tasks|
  }

  /** Number of completed tasks in one module's list. */
  function CompletedIn(ts: seq<Task>): (c: nat)
    ensures c <= |ts|
  {
    if ts == [] then 0
    else CompletedIn(ts[..|ts| - 1]) + (if ts[|ts| - 1].completed then 1 else 0)
  }

  /** Number of completed tasks over all modules; never more than the total. */
  function CompletedCount(ms: seq<Module>): (c: nat)
    ensures c <= TaskCount(ms)
  {
    if ms == [] then 0 else CompletedCount(ms[..|ms| - 1]) + CompletedIn(ms[|ms| - 1].tasks)
  }

  /** `Math.round(c / t * 100)` on exact numbers: the integer nearest to 100c/t,
      halves rounded up. */
  function RoundedPercent(c: nat, t: nat): (r: nat)
    requires 0 < t && c <= t
    ensures r <= 100
    ensures 2 * t * r <= 200 * c + t < 2 * t * (r + 1)
  {
    RoundingBounds(c, t);
    (200 * c + t) / (2 * t)
  }

  lemma RoundingBounds(c: nat, t: nat)
    requires 0 < t && c <= t
    ensures (200 * c + t) / (2 * t) <= 100
    ensures 2 * t * ((200 * c + t) / (2 * t)) <= 200 * c + t < 2 * t * ((200 * c + t) / (2 * t) + 1)
  {
    var d, n := 2 * t, 200 * c + t;
    var q, m := n / d, n % d;
    assert n == d * q + m && 0 <= m < d;
    assert d * (q + 1) == d * q + d;
    if q > 100 {
      MulMonotone(d, 101, q);
    }
  }

  /** The progress a plan should show: 0 without tasks, otherwise the rounded
      percentage of completed tasks. */
  function Progress(ms: seq<Module>): (p: nat)
    ensures p <= 100
    ensures TaskCount(ms) == 0 ==> p == 0
    ensures TaskCount(ms) > 0 ==>
      2 * TaskCount(ms) * p <= 200 * CompletedCount(ms) + TaskCount(ms) < 2 * TaskCount(ms) * (p + 1)
  {
    var t := TaskCount(ms);
    if t == 0 then 0 else RoundedPercent(CompletedCount(ms), t)
  }

  predicate ValidTask(ms: seq<Module>, m: int, t: int)
  {
    0 <= m < |ms| && 0 <= t < |ms[m].tasks|
  }

  /** `ms` with the `completed` flag of task `t` of module `m` negated. */
  function FlipTask(ms: seq<Module>, m: int, t: int): (r: seq<Module>)
    requires ValidTask(ms, m, t)
    ensures |r| == |ms| && |r[m].tasks| == |ms[m].tasks|
  {
    var ts := ms[m].tasks;
    ms[m := ms[m].(tasks := ts[t := ts[t].(completed := !ts[t].completed)])]
  }

  /** A toggle changes exactly one flag: that of the chosen task. Every other task,
      every other field of that task and every module header stay as they were. */
  lemma FlipTaskChangesOneFlag(ms: seq<Module>, m: int, t: int)
    requires ValidTask(ms, m, t)
    ensures var r := FlipTask(ms, m, t);
      && r[m].tasks[t] == ms[m].tasks[t].(completed := !ms[m].tasks[t].completed)
      && (forall k :: 0 <= k < |ms| && k != m ==> r[k] == ms[k])
      && (forall j :: 0 <= j < |ms[m].tasks| && j != t ==> r[m].tasks[j] == ms[m].tasks[j])
      && r[m].(tasks := []) == ms[m].(tasks := [])
  {
  }

  /** Toggling the same task twice gives back the modules unchanged. */
  lemma FlipTaskTwice(ms: seq<Module>, m: int, t: int)
    requires ValidTask(ms, m, t)
    ensures ValidTask(FlipTask(ms, m, t), m, t)
    ensures FlipTask(FlipTask(ms, m, t), m, t) == ms
  {
    var r := FlipTask(FlipTask(ms, m, t), m, t);
    assert r[m].tasks == ms[m].tasks;
  }

  lemma {:induction false} FlipInTasks(ts: seq<Task>, t: int)
    requires 0 <= t < |ts|
    ensures CompletedIn(ts[t := ts[t].(completed := !ts[t].completed)])
         == CompletedIn(ts) + (if ts[t].completed then -1 else 1)
  {
    var u := ts[t := ts[t].(completed := !ts[t].completed)];
    var n := |ts| - 1;
    if t < n {
      assert u[..n] == ts[..n][t := ts[t].(completed := !ts[t].completed)];
      FlipInTasks(ts[..n], t);
    } else {
      assert u[..n] == ts[..n];
    }
  }

  /** A toggle keeps the number of tasks and moves the completed count by one,
      up when the task was open and down when it was done. */
  lemma {:induction false} FlipTaskCounts(ms: seq<Module>, m: int, t: int)
    requires ValidTask(ms, m, t)
    ensures TaskCount(FlipTask(ms, m, t)) == TaskCount(ms)
    ensures CompletedCount(FlipTask(ms, m, t))
         == CompletedCount(ms) + (if ms[m].tasks[t].completed then -1 else 1)
  {
    var r := FlipTask(ms, m, t);
    var n := |ms| - 1;
    if m < n {
      assert r[..n] == FlipTask(ms[..n], m, t);
      FlipTaskCounts(ms[..n], m, t);
    } else {
      assert r[..n] == ms[..n];
      FlipInTasks(ms[m].tasks, t);
    }
  }

  /** The progress of a toggled plan, computed from scratch, returns to its old
      value when the same task is toggled again. */
  lemma ToggleTwiceRestoresProgress(ms: seq<Module>, m: int, t: int)
    requires ValidTask(ms, m, t)
    ensures ValidTask(FlipTask(ms, m, t), m, t)
    ensures Progress(FlipTask(FlipTask(ms, m, t), m, t)) == Progress(ms)
  {
    FlipTaskTwice(ms, m, t);
  }

  lemma MulMonotone(x: nat, a: int, b: int)
    requires a <= b
    ensures x * a <= x * b
  {
    assert x * b - x * a == x * (b - a);
  }

  /** The rounded percentage is the only integer `k` within half a step of 100c/t. */
  lemma RoundedPercentUnique(c: nat, t: nat, k: int)
    requires 0 < t && c <= t
    requires 2 * t * k <= 200 * c + t < 2 * t * (k + 1)
    ensures RoundedPercent(c, t) == k
  {
    var p := RoundedPercent(c, t);
    if p < k {
      MulMonotone(2 * t, p + 1, k);
    } else if p > k {
      MulMonotone(2 * t, k + 1, p);
    }
  }

  /** A plan none of whose tasks is done shows 0. */
  lemma NoneCompletedIsZero(ms: seq<Module>)
    requires CompletedCount(ms) == 0
    ensures Progress(ms) == 0
  {
    if TaskCount(ms) > 0 {
      RoundedPercentUnique(0, TaskCount(ms), 0);
    }
  }

  /** A plan with every task done shows 100. */
  lemma AllCompletedIsHundred(ms: seq<Module>)
    requires TaskCount(ms) > 0 && CompletedCount(ms) == TaskCount(ms)
    ensures Progress(ms) == 100
  {
    var t := TaskCount(ms);
    assert 2 * t * 100 == 200 * t && 2 * t * (100 + 1) == 202 * t;
    RoundedPercentUnique(t, t, 100);
  }

  /** Half of the tasks done shows 50 (for example 6 of 12). */
  lemma HalfCompletedIsFifty(ms: seq<Module>)
    requires TaskCount(ms) > 0 && 2 * CompletedCount(ms) == TaskCount(ms)
    ensures Progress(ms) == 50
  {
    var t, c := TaskCount(ms), CompletedCount(ms);
    assert 200 * c + t == 101 * t;
    assert 2 * t * 50 == 100 * t && 2 * t * (50 + 1) == 102 * t;
    RoundedPercentUnique(c, t, 50);
  }
}
