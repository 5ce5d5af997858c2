/** No lost wakeup, no stuck state, and a shutdown that drains: what every step of the pool keeps. */
module PoolProofs {
  import opened Prelude
  import opened ThreadPools

  /**
   * Every thread is counted, and while some worker is blocked there is a notified worker for every
   * pending task. Workers leave only once the pool is stopped and drained.
   */
  ghost predicate PoolInv(p: Pool) {
    && p.sleeping == Count(p.workers, Asleep)
    && |p.workers| <= p.maxThreads
    && (Count(p.workers, IsBlocked) > 0 ==> !p.stop && Count(p.workers, IsNotified) >= |p.pending|)
    && (p.pending != [] && p.maxThreads > 0 ==> p.workers != [])
    && (Exited in p.workers ==> p.stop && p.pending == [])
  }

  lemma {:induction false} AsleepIsBlockedOrNotified(ws: seq<Worker>)
    ensures Count(ws, Asleep) == Count(ws, IsBlocked) + Count(ws, IsNotified)
  {
    if ws != [] {
      AsleepIsBlockedOrNotified(ws[..|ws| - 1]);
    }
  }

  /** How replacing one worker changes the three counts. */
  lemma CountsUpdate(ws: seq<Worker>, k: nat, w: Worker)
    requires k < |ws|
    ensures Count(ws[k := w], Asleep)
         == Count(ws, Asleep) - (if Asleep(ws[k]) then 1 else 0) + (if Asleep(w) then 1 else 0)
    ensures Count(ws[k := w], IsBlocked)
         == Count(ws, IsBlocked) - (if IsBlocked(ws[k]) then 1 else 0) + (if IsBlocked(w) then 1 else 0)
    ensures Count(ws[k := w], IsNotified)
         == Count(ws, IsNotified) - (if IsNotified(ws[k]) then 1 else 0) + (if IsNotified(w) then 1 else 0)
    ensures Exited in ws[k := w] ==> Exited in ws || w == Exited
  {
    CountUpdate(ws, k, w, Asleep);
    CountUpdate(ws, k, w, IsBlocked);
    CountUpdate(ws, k, w, IsNotified);
  }

  lemma SpawnedKeeps(p: Pool, w: Work, wake: Option<nat>)
    requires PoolInv(p) && !p.stop && MayWake(Grown(p), wake)
    ensures PoolInv(Spawned(p, w, wake))
  {
    var grown := Grown(p);
    CountSnoc(p.workers, Idle, Asleep);
    CountSnoc(p.workers, Idle, IsBlocked);
    CountSnoc(p.workers, Idle, IsNotified);
    assert Exited !in grown;
    match wake
    case Some(k) => CountsUpdate(grown, k, Notified);
    case None => CountZero(grown, IsBlocked);
  }

  lemma TestedKeeps(p: Pool, k: nat)
    requires k < |p.workers| && (p.workers[k].Idle? || Asleep(p.workers[k]))
    requires PoolInv(p.(sleeping := Count(p.workers, Asleep)))
    requires p.sleeping == Count(p.workers, Asleep) + (if p.workers[k].Idle? then 1 else 0)
    requires p.sleeping > 0
    ensures PoolInv(Tested(p, k))
  {
    CountsUpdate(p.workers, k, Blocked);
    CountsUpdate(p.workers, k, Exited);
    if p.pending != [] {
      CountsUpdate(p.workers, k, Running(p.pending[0]));
    }
  }

  lemma EnteredKeeps(p: Pool, k: nat)
    requires PoolInv(p) && k < |p.workers| && p.workers[k].Idle?
    ensures PoolInv(Entered(p, k))
  {
    TestedKeeps(p.(sleeping := p.sleeping + 1), k);
  }

  lemma WokenKeeps(p: Pool, k: nat)
    requires PoolInv(p) && k < |p.workers| && Asleep(p.workers[k])
    ensures p.sleeping > 0 && PoolInv(Woken(p, k))
  {
    CountPositive(p.workers, k, Asleep);
    TestedKeeps(p, k);
  }

  /** Steps of a worker that owns a task, none of which touch the pool itself. */
  lemma WorkerKeeps(p: Pool, k: nat, w: Worker)
    requires PoolInv(p) && k < |p.workers|
    requires !Asleep(p.workers[k]) && !Asleep(w) && w != Exited && p.workers[k] != Exited
    ensures PoolInv(p.(workers := p.workers[k := w]))
  {
    CountsUpdate(p.workers, k, w);
  }

  lemma StoppedKeeps(p: Pool)
    requires PoolInv(p)
    ensures PoolInv(Stopped(p))
  {
    var woken := NotifyAll(p.workers);
    CountSame(p.workers, woken, Asleep);
    CountZero(woken, IsBlocked);
    if Exited in woken {
      var k :| 0 <= k < |woken| && woken[k] == Exited;
      assert p.workers[k] == Exited;
    }
  }

  // ---------- no lost wakeup, no stuck state ----------

  /** A worker that can move on by itself: it is not blocked and has not left. */
  predicate Awake(w: Worker) {
    !w.Blocked? && !w.Exited?
  }

  /** Whenever a task is pending, some worker is awake; and if any worker is asleep, a notified one is on its way. */
  lemma PendingIsNoticed(p: Pool)
    requires PoolInv(p) && p.pending != [] && p.maxThreads > 0
    ensures exists k :: 0 <= k < |p.workers| && Awake(p.workers[k])
    ensures p.sleeping > 0 ==> exists k :: 0 <= k < |p.workers| && p.workers[k].Notified?
    ensures Count(p.workers, IsNotified) >= Min(|p.pending|, p.sleeping)
  {
    AsleepIsBlockedOrNotified(p.workers);
    if p.sleeping > 0 {
      var k := CountWitness(p.workers, IsNotified);
      assert Awake(p.workers[k]);
    } else if p.workers[0].Blocked? {
      CountPositive(p.workers, 0, Asleep);
    } else {
      assert Awake(p.workers[0]);
    }
  }

  lemma {:induction false} CountWitness(ws: seq<Worker>, f: Worker -> bool) returns (k: nat)
    requires Count(ws, f) > 0
    ensures k < |ws| && f(ws[k])
  {
    if f(ws[|ws| - 1]) {
      k := |ws| - 1;
    } else {
      k := CountWitness(ws[..|ws| - 1], f);
    }
  }

  /** Threads that are free to take a task: asleep or between two tasks. */
  function Free(ws: seq<Worker>): nat {
    Count(ws, IsFree)
  }

  predicate IsFree(w: Worker) {
    Asleep(w) || w.Idle?
  }

  /** Each pending task has a free thread, or the pool has all the threads it may have. */
  predicate Provisioned(p: Pool) {
    Free(p.workers) >= |p.pending| || |p.workers| == p.maxThreads
  }

  /**
   * Spawn looks at the threads that sleep, not at the tasks already promised to them: it leaves a
   * pending task without a thread exactly when every free thread is spoken for, one of them sleeps, and
   * a further thread would still be allowed.
   */
  lemma SpawnProvisionsExactly(p: Pool, w: Work, wake: Option<nat>)
    requires PoolInv(p) && !p.stop && MayWake(Grown(p), wake) && Provisioned(p)
    ensures Provisioned(Spawned(p, w, wake))
       <==> !(p.sleeping > 0 && |p.workers| < p.maxThreads && Free(p.workers) == |p.pending|)
  {
    var grown := Grown(p);
    CountSnoc(p.workers, Idle, IsFree);
    if wake.Some? {
      CountUpdate(grown, wake.value, Notified, IsFree);
    }
  }

  lemma SleepingPool()
    ensures var sleeping := Pool(2, 1, [Blocked], [], false); PoolInv(sleeping) && Provisioned(sleeping)
  {
    assert Count([Blocked], IsBlocked) == 1 && Count([Blocked], Asleep) == 1 && Count([Blocked], IsFree) == 1;
  }

  lemma SpawnedTwice(a: Work, b: Work)
    ensures Spawned(Pool(2, 1, [Blocked], [], false), a, Some(0)) == Pool(2, 1, [Notified], [a], false)
    ensures Spawned(Pool(2, 1, [Notified], [a], false), b, None) == Pool(2, 1, [Notified], [a, b], false)
  {
    assert [Blocked][0 := Notified] == [Notified];
  }

  /** It does happen: two tasks given to one sleeping thread run one after the other, though two threads are allowed. */
  lemma TwoTasksOneThread(a: Work, b: Work)
    ensures var sleeping := Pool(2, 1, [Blocked], [], false);
            var both := Spawned(Spawned(sleeping, a, Some(0)), b, None);
            && both == Pool(2, 1, [Notified], [a, b], false)
            && PoolInv(sleeping) && Provisioned(sleeping) && !Provisioned(both)
            && Woken(both, 0) == Pool(2, 0, [Running(a)], [b], false)
  {
    var sleeping, first := Pool(2, 1, [Blocked], [], false), Pool(2, 1, [Notified], [a], false);
    SleepingPool();
    SpawnedTwice(a, b);
    SpawnedKeeps(sleeping, a, Some(0));
    SpawnProvisionsExactly(sleeping, a, Some(0));
    assert Count([Notified], IsFree) == 1;
    hide PoolInv, Provisioned;
    SpawnProvisionsExactly(first, b, None);
  }

  // ---------- shutdown ----------

  function Rank(w: Worker): nat {
    match w
    case Exited => 0
    case Idle => 1
    case Blocked => 1
    case Notified => 1
    case Ending(_) => 2
    case Failed(_) => 3
    case Running(_) => 4
  }

  function Ranks(ws: seq<Worker>): nat {
    if ws == [] then 0 else Ranks(ws[..|ws| - 1]) + Rank(ws[|ws| - 1])
  }

  /** What is left to do before the destructor can return. */
  function Remaining(p: Pool): nat {
    4 * |p.pending| + Ranks(p.workers)
  }

  lemma {:induction false} RanksUpdate(ws: seq<Worker>, k: nat, w: Worker)
    requires k < |ws|
    ensures Ranks(ws[k := w]) == Ranks(ws) - Rank(ws[k]) + Rank(w)
  {
    var n := |ws| - 1;
    if k == n {
      assert ws[k := w][..n] == ws[..n];
    } else {
      RanksUpdate(ws[..n], k, w);
      assert ws[k := w][..n] == ws[..n][k := w];
    }
  }

  /** Once stopped, a worker that gets the lock exits or takes a task: each time there is less to do. */
  lemma StoppedTestDecreases(p: Pool, k: nat)
    requires p.stop && k < |p.workers| && (p.workers[k].Idle? || Asleep(p.workers[k])) && p.sleeping > 0
    ensures Remaining(Tested(p, k)) < Remaining(p)
  {
    RanksUpdate(p.workers, k, Exited);
    if p.pending != [] {
      RanksUpdate(p.workers, k, Running(p.pending[0]));
    }
  }

  lemma WorkerStepDecreases(p: Pool, k: nat, w: Worker)
    requires k < |p.workers| && Rank(w) < Rank(p.workers[k])
    ensures Remaining(p.(workers := p.workers[k := w])) < Remaining(p)
  {
    RanksUpdate(p.workers, k, w);
  }

  /** A stopped pool that is not joined yet always has a worker that can make a step. */
  lemma StoppedNeverStuck(p: Pool)
    requires PoolInv(p) && p.stop && !Joined(p)
    ensures exists k :: 0 <= k < |p.workers| && Awake(p.workers[k])
  {
    var w :| w in p.workers && !w.Exited?;
    var k :| 0 <= k < |p.workers| && p.workers[k] == w;
    if w.Blocked? {
      CountPositive(p.workers, k, IsBlocked);
    }
    assert Awake(p.workers[k]);
  }

  /** When the destructor has joined all threads, no task is left behind, unless there never was a thread. */
  lemma JoinedIsDrained(p: Pool)
    requires PoolInv(p) && Joined(p) && p.maxThreads > 0
    ensures p.pending == []
  {
    if p.workers != [] {
      assert p.workers[0] in p.workers;
    }
  }
}
