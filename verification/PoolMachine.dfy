/**
 * All interleavings of a thread pool, its join sets and the threads that use them: every step is one
 * critical section of one thread, chosen in any order, and a running task may spawn further tasks.
 */
module PoolMachine {
  import opened Prelude
  import opened ThreadPools
  import opened JoinSets

  /**
   * The shared state together with its history. `temps` are task objects that are constructed but not
   * enqueued yet; `unreported` lists, by join set, the errors since the last one that was rethrown.
   */
  datatype Sys = Sys(
    pool: Pool,
    joins: map<nat, Join>,
    temps: seq<Work>,
    created: seq<Work>,
    accepted: seq<Work>,
    rejected: seq<Work>,
    started: seq<Work>,
    finished: seq<Work>,
    unreported: map<nat, seq<nat>>)

  datatype Step =
    | NewJoinSet(js: nat)
    | Create(joinSet: Option<nat>)            // a task object, made by a client or by a running task
    | Enqueue(temp: nat, wake: Option<nat>)   // Spawn of an object in `temps`
    | Reject(temp: nat)                       // Spawn on a stopped pool: throws, and the object is destroyed
    | EnterWait(worker: nat)
    | WakeUp(worker: nat)
    | Execute(worker: nat, throws: bool)      // the function comes to an end
    | Record(worker: nat)
    | Destroy(worker: nat)                    // the destructor of the executed task
    | Wait(js: nat, waiter: nat, kind: WaitKind)
    | Stop

  function Init(maxThreads: nat): Sys {
    Sys(EmptyPool(maxThreads), map[], [], [], [], [], [], [], map[])
  }

  function Without(s: seq<Work>, k: nat): seq<Work>
    requires k < |s|
  {
    s[..k] + s[k + 1..]
  }

  /** Applies a change to the join set of a task, if it has one. */
  function OnJoin(s: Sys, w: Work, f: Join --> Join): (r: Sys)
    requires w.joinSet.Some? ==> w.joinSet.value in s.joins && f.requires(s.joins[w.joinSet.value])
    ensures r == s.(joins := r.joins)
  {
    match w.joinSet
    case None => s
    case Some(js) => s.(joins := s.joins[js := f(s.joins[js])])
  }

  predicate Released(s: Sys, w: Work) {
    w.joinSet.Some? ==> w.joinSet.value in s.joins && s.joins[w.joinSet.value].count > 0
  }

  predicate Enabled(s: Sys, step: Step) {
    match step
    case NewJoinSet(js) => js !in s.joins
    case Create(joinSet) => joinSet.Some? ==> joinSet.value in s.joins
    case Enqueue(k, wake) => k < |s.temps| && !s.pool.stop && MayWake(Grown(s.pool), wake)
    case Reject(k) => k < |s.temps| && s.pool.stop && Released(s, s.temps[k])
    case EnterWait(k) => k < |s.pool.workers| && s.pool.workers[k].Idle?
    case WakeUp(k) => k < |s.pool.workers| && Asleep(s.pool.workers[k]) && s.pool.sleeping > 0
    case Execute(k, _) => k < |s.pool.workers| && s.pool.workers[k].Running?
    case Record(k) => k < |s.pool.workers| && s.pool.workers[k].Failed? && Known(s, s.pool.workers[k].work)
    case Destroy(k) => k < |s.pool.workers| && s.pool.workers[k].Ending? && Released(s, s.pool.workers[k].work)
    case Wait(js, w, kind) =>
      js in s.joins && js in s.unreported
      && (w in s.joins[js].waiters ==> s.joins[js].waiters[w].kind == kind)
    case Stop => !s.pool.stop
  }

  predicate Known(s: Sys, w: Work) {
    w.joinSet.Some? ==> w.joinSet.value in s.joins && w.joinSet.value in s.unreported
  }

  function WithWorker(p: Pool, k: nat, w: Worker): Pool
    requires k < |p.workers|
  {
    p.(workers := p.workers[k := w])
  }

  /** The pool after a worker's test of the predicate, and the task it took, if any. */
  function Took(s: Sys, k: nat, p: Pool): (r: Sys)
    requires k < |p.workers|
    ensures r == s.(pool := p, started := r.started)
  {
    match p.workers[k]
    case Running(w) => s.(pool := p, started := s.started + [w])
    case _ => s.(pool := p)
  }

  function Next(s: Sys, step: Step): Sys
    requires Enabled(s, step)
  {
    match step
    case NewJoinSet(js) => s.(joins := s.joins[js := EmptyJoin()], unreported := s.unreported[js := []])
    case Create(joinSet) =>
      var w := Work(|s.created|, joinSet);
      OnJoin(s, w, Incremented).(temps := s.temps + [w], created := s.created + [w])
    case Enqueue(k, wake) =>
      var w := s.temps[k];
      s.(pool := Spawned(s.pool, w, wake), temps := Without(s.temps, k), accepted := s.accepted + [w])
    case Reject(k) =>
      var w := s.temps[k];
      OnJoin(s, w, Decremented).(temps := Without(s.temps, k), rejected := s.rejected + [w])
    case EnterWait(k) => Took(s, k, Entered(s.pool, k))
    case WakeUp(k) => Took(s, k, Woken(s.pool, k))
    case Execute(k, throws) =>
      var w := s.pool.workers[k].work;
      s.(pool := WithWorker(s.pool, k, if throws then Failed(w) else Ending(w)), finished := s.finished + [w])
    case Record(k) =>
      var w := s.pool.workers[k].work;
      var ended := s.(pool := WithWorker(s.pool, k, Ending(w)));
      if w.joinSet.None? then ended
      else
        var js := w.joinSet.value;
        ended.(joins := s.joins[js := ErrorRecorded(s.joins[js], w.id)],
               unreported := s.unreported[js := s.unreported[js] + [w.id]])
    case Destroy(k) =>
      OnJoin(s, s.pool.workers[k].work, Decremented).(pool := WithWorker(s.pool, k, Idle))
    case Wait(js, w, kind) =>
      var (j, outcome) := Waited(s.joins[js], w, kind);
      s.(joins := s.joins[js := j],
         unreported := if outcome.Some? && outcome.value.Rethrown? then s.unreported[js := []] else s.unreported)
    case Stop => s.(pool := Stopped(s.pool))
  }

  predicate IsRun(s: Sys, steps: seq<Step>)
    decreases |steps|
  {
    steps == [] || (Enabled(s, steps[0]) && IsRun(Next(s, steps[0]), steps[1..]))
  }

  /** The state at the end of a run. */
  function After(s: Sys, steps: seq<Step>): Sys
    requires IsRun(s, steps)
    decreases |steps|
  {
    if steps == [] then s else After(Next(s, steps[0]), steps[1..])
  }
}
