/**
 * The thread pool of the client, one critical section at a time. A value of type Pool is the state that
 * `mutex_` protects; each class method is what one thread does while it holds the lock.
 */
module ThreadPools {
  import opened Prelude

  /** A submitted function; `joinSet` is the join set its task object still has to report to. */
  datatype Work = Work(id: nat, joinSet: Option<nat>)

  /** Where a worker thread is in its endless loop. */
  datatype Worker =
    | Idle                  // about to lock the pool: just created, or between two tasks
    | Blocked               // asleep on the condition variable
    | Notified              // woken, but it does not hold the lock again yet
    | Running(work: Work)   // executing the function
    | Failed(work: Work)    // the function threw, the error is not recorded yet
    | Ending(work: Work)    // executed, the task object is not destroyed yet
    | Exited

  datatype Pool = Pool(maxThreads: nat, sleeping: nat, workers: seq<Worker>, pending: seq<Work>, stop: bool)

  function EmptyPool(maxThreads: nat): Pool {
    Pool(maxThreads, 0, [], [], false)
  }

  predicate IsBlocked(w: Worker) {
    w.Blocked?
  }

  predicate IsNotified(w: Worker) {
    w.Notified?
  }

  /** Inside the wait: not yet back to testing the predicate. */
  predicate Asleep(w: Worker) {
    IsBlocked(w) || IsNotified(w)
  }

  /** The number of workers that satisfy `p`. */
  function Count(ws: seq<Worker>, p: Worker -> bool): nat {
    if ws == [] then 0 else Count(ws[..|ws| - 1], p) + (if p(ws[|ws| - 1]) then 1 else 0)
  }

  // ---------- the condition variable ----------

  /** notify_one wakes some blocked thread, which one is not ours to say; it does nothing when none is blocked. */
  predicate MayWake(ws: seq<Worker>, wake: Option<nat>) {
    match wake
    case Some(k) => k < |ws| && ws[k].Blocked?
    case None => forall w :: w in ws ==> !w.Blocked?
  }

  function NotifyOne(ws: seq<Worker>, wake: Option<nat>): seq<Worker>
    requires MayWake(ws, wake)
  {
    match wake
    case Some(k) => ws[k := Notified]
    case None => ws
  }

  function NotifyAll(ws: seq<Worker>): (r: seq<Worker>)
    ensures |r| == |ws| && forall k :: 0 <= k < |ws| ==> r[k] == if ws[k].Blocked? then Notified else ws[k]
  {
    seq(|ws|, k requires 0 <= k < |ws| => if ws[k].Blocked? then Notified else ws[k])
  }

  // ---------- critical sections ----------

  /** The workers after the check for a new thread in Spawn. */
  function Grown(p: Pool): seq<Worker> {
    if p.sleeping == 0 && |p.workers| < p.maxThreads then p.workers + [Idle] else p.workers
  }

  function Spawned(p: Pool, w: Work, wake: Option<nat>): Pool
    requires !p.stop && MayWake(Grown(p), wake)
  {
    p.(pending := p.pending + [w], workers := NotifyOne(Grown(p), wake))
  }

  /** Worker `k` holds the lock inside condition_.wait and tests the predicate. */
  function Tested(p: Pool, k: nat): Pool
    requires k < |p.workers| && p.sleeping > 0
  {
    if !p.stop && p.pending == [] then p.(workers := p.workers[k := Blocked])
    else if p.pending == [] then p.(sleeping := p.sleeping - 1, workers := p.workers[k := Exited])
    else p.(sleeping := p.sleeping - 1, workers := p.workers[k := Running(p.pending[0])], pending := p.pending[1..])
  }

  function Entered(p: Pool, k: nat): Pool
    requires k < |p.workers| && p.workers[k].Idle?
  {
    Tested(p.(sleeping := p.sleeping + 1), k)
  }

  /** A notified worker gets the lock back; a blocked one may also wake up for no reason. */
  function Woken(p: Pool, k: nat): Pool
    requires k < |p.workers| && Asleep(p.workers[k]) && p.sleeping > 0
  {
    Tested(p, k)
  }

  function Stopped(p: Pool): Pool {
    p.(stop := true, workers := NotifyAll(p.workers))
  }

  /** The destructor has joined every thread. */
  predicate Joined(p: Pool) {
    p.stop && forall w :: w in p.workers ==> w.Exited?
  }

  class ThreadPool {
    const maxThreads: nat
    var sleepingThreads: nat
    var threads: seq<Worker>
    var pendingTasks: seq<Work>
    var stop: bool

    function View(): Pool
      reads this
    {
      Pool(maxThreads, sleepingThreads, threads, pendingTasks, stop)
    }

    /** The counter is the number of threads inside the wait. */
    ghost predicate Valid()
      reads this
    {
      sleepingThreads == Count(threads, Asleep)
    }

    constructor (maxThreads: nat)
      ensures Valid() && View() == EmptyPool(maxThreads)
    {
      this.maxThreads := maxThreads;
      sleepingThreads, threads, pendingTasks, stop := 0, [], [], false;
    }

    /** Enqueues the task, or refuses it once the pool is stopping. */
    method Spawn(work: Work, wake: Option<nat>) returns (accepted: bool)
      requires Valid() && MayWake(Grown(View()), wake)
      modifies this
      ensures Valid()
      ensures accepted == !old(stop)
      ensures View() == if accepted then Spawned(old(View()), work, wake) else old(View())
    {
      hide Count;
      if stop {
        return false;
      }
      ghost var grown := Grown(View());
      pendingTasks := pendingTasks + [work];
      if sleepingThreads == 0 && |threads| < maxThreads {
        CountSnoc(threads, Idle, Asleep);
        threads := threads + [Idle];
      }
      assert threads == grown && Valid();
      if wake.Some? {
        CountUpdate(threads, wake.value, Notified, Asleep);
        threads := threads[wake.value := Notified];
      }
      accepted := true;
    }

    /** The worker locks the pool and starts to wait. */
    method EnterWait(k: nat)
      requires Valid() && k < |threads| && threads[k].Idle?
      modifies this
      ensures Valid() && View() == Entered(old(View()), k)
    {
      CountUpdate(threads, k, Notified, Asleep);
      sleepingThreads := sleepingThreads + 1;
      threads := threads[k := Notified];
      ghost var inside := threads;
      TestPredicate(k);
      assert inside[k := threads[k]] == old(threads)[k := threads[k]];
    }

    /** The worker comes back from the condition variable with the lock. */
    method WakeUp(k: nat)
      requires Valid() && k < |threads| && Asleep(threads[k])
      modifies this
      ensures old(sleepingThreads) > 0
      ensures Valid() && View() == Woken(old(View()), k)
    {
      CountPositive(threads, k, Asleep);
      TestPredicate(k);
    }

    /** Goes back to sleep, leaves the loop, or takes the oldest task. */
    method TestPredicate(k: nat)
      requires Valid() && k < |threads| && Asleep(threads[k]) && sleepingThreads > 0
      modifies this
      ensures Valid() && View() == Tested(old(View()), k)
    {
      if !stop && pendingTasks == [] {
        CountUpdate(threads, k, Blocked, Asleep);
        threads := threads[k := Blocked];
        return;
      }
      sleepingThreads := sleepingThreads - 1;
      if stop && pendingTasks == [] {
        CountUpdate(threads, k, Exited, Asleep);
        threads := threads[k := Exited];
      } else {
        CountUpdate(threads, k, Running(pendingTasks[0]), Asleep);
        threads, pendingTasks := threads[k := Running(pendingTasks[0])], pendingTasks[1..];
      }
    }

    /** The first part of the destructor, before it joins the threads. */
    method BeginShutdown()
      requires Valid()
      modifies this
      ensures Valid() && View() == Stopped(old(View()))
    {
      stop := true;
      CountSame(threads, NotifyAll(threads), Asleep);
      threads := NotifyAll(threads);
    }
  }

  // ---------- counting ----------

  lemma CountSnoc(ws: seq<Worker>, w: Worker, p: Worker -> bool)
    ensures Count(ws + [w], p) == Count(ws, p) + (if p(w) then 1 else 0)
  {
    assert (ws + [w])[..|ws|] == ws;
  }

  lemma {:induction false} CountUpdate(ws: seq<Worker>, k: nat, w: Worker, p: Worker -> bool)
    requires k < |ws|
    ensures Count(ws[k := w], p) == Count(ws, p) - (if p(ws[k]) then 1 else 0) + (if p(w) then 1 else 0)
  {
    var n := |ws| - 1;
    if k == n {
      assert ws[k := w][..n] == ws[..n];
    } else {
      CountUpdate(ws[..n], k, w, p);
      assert ws[k := w][..n] == ws[..n][k := w];
    }
  }

  lemma {:induction false} CountPositive(ws: seq<Worker>, k: nat, p: Worker -> bool)
    requires k < |ws| && p(ws[k])
    ensures Count(ws, p) > 0
  {
    if k < |ws| - 1 {
      CountPositive(ws[..|ws| - 1], k, p);
    }
  }

  lemma {:induction false} CountZero(ws: seq<Worker>, p: Worker -> bool)
    requires forall w :: w in ws ==> !p(w)
    ensures Count(ws, p) == 0
  {
    if ws != [] {
      CountZero(ws[..|ws| - 1], p);
    }
  }

  lemma {:induction false} CountSame(ws: seq<Worker>, vs: seq<Worker>, p: Worker -> bool)
    requires |ws| == |vs| && forall k :: 0 <= k < |ws| ==> p(ws[k]) == p(vs[k])
    ensures Count(ws, p) == Count(vs, p)
  {
    if ws != [] {
      var n := |ws| - 1;
      assert forall k :: 0 <= k < n ==> ws[..n][k] == ws[k] && vs[..n][k] == vs[k];
      CountSame(ws[..n], vs[..n], p);
    }
  }
}
