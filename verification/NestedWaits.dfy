/**
 * Functions that themselves wait on the pool they run on, as handlers do that submit tasks or wait for results. Such a
 * function makes a join set of its own, so it does not sleep there before it has spawned a task.
 */
module NestedWaits {
  import opened Prelude
  import opened ThreadPools
  import opened JoinSets
  import opened PoolMachine
  import opened PoolProofs
  import opened PoolMachineProofs

  /** `waits` are the workers whose function sleeps in Wait, `spawned` those whose function has spawned a task. */
  datatype Nest = Nest(sys: Sys, waits: map<nat, nat>, spawned: set<nat>)

  datatype Move =
    | Plain(step: Step)                                       // of the pool, its clients and its join sets
    | SpawnFrom(worker: nat, temp: nat, wake: Option<nat>)    // a running function spawns a task
    | WaitFrom(worker: nat, js: nat)                          // and makes a pass of Wait, the first one or another

  /** Worker threads and clients are different waiters of a join set. */
  function Thread(k: nat): nat {
    2 * k + 1
  }

  predicate IsRunning(s: Sys, k: nat) {
    k < |s.pool.workers| && s.pool.workers[k].Running?
  }

  predicate CanMove(n: Nest, move: Move) {
    match move
    case Plain(step) =>
      && Enabled(n.sys, step)
      && (step.Execute? ==> step.worker !in n.waits)
      && (step.Wait? ==> step.waiter % 2 == 0)
    case SpawnFrom(k, temp, wake) => IsRunning(n.sys, k) && k !in n.waits && Enabled(n.sys, Enqueue(temp, wake))
    case WaitFrom(k, js) =>
      && IsRunning(n.sys, k) && Enabled(n.sys, Wait(js, Thread(k), ForTasks))
      && (k in n.waits ==> n.waits[k] == js)
      && (!Ready(n.sys.joins[js], ForTasks) ==> k in n.spawned)
  }

  /** The step of the pool machine that a move is. */
  function StepIn(move: Move): Step {
    match move
    case Plain(step) => step
    case SpawnFrom(_, temp, wake) => Enqueue(temp, wake)
    case WaitFrom(k, js) => Wait(js, Thread(k), ForTasks)
  }

  function Moved(n: Nest, move: Move): Nest
    requires CanMove(n, move)
  {
    var sys := Next(n.sys, StepIn(move));
    match move
    case Plain(step) => Nest(sys, n.waits, if step.Execute? then n.spawned - {step.worker} else n.spawned)
    case SpawnFrom(k, _, _) => Nest(sys, n.waits, n.spawned + {k})
    case WaitFrom(k, js) =>
      Nest(sys, if Ready(n.sys.joins[js], ForTasks) then n.waits - {k} else n.waits[k := js], n.spawned)
  }

  function Begin(maxThreads: nat): Nest {
    Nest(Init(maxThreads), map[], {})
  }

  predicate IsRunOf(n: Nest, moves: seq<Move>)
    decreases |moves|
  {
    moves == [] || (CanMove(n, moves[0]) && IsRunOf(Moved(n, moves[0]), moves[1..]))
  }

  function Ended(n: Nest, moves: seq<Move>): Nest
    requires IsRunOf(n, moves)
    decreases |moves|
  {
    if moves == [] then n else Ended(Moved(n, moves[0]), moves[1..])
  }

  ghost predicate Gets(maxThreads: nat, n: Nest) {
    exists moves :: IsRunOf(Begin(maxThreads), moves) && Ended(Begin(maxThreads), moves) == n
  }

  // ---------- what stays true ----------

  ghost predicate AllRunning(s: Sys) {
    forall k :: 0 <= k < |s.pool.workers| ==> IsRunning(s, k)
  }

  /** While a further thread is allowed, the last function to start has not spawned anything yet. */
  ghost predicate SomeFresh(n: Nest) {
    var ws := n.sys.pool.workers;
    ws != [] && |ws| < n.sys.pool.maxThreads && AllRunning(n.sys) ==> exists k :: 0 <= k < |ws| && k !in n.spawned
  }

  ghost predicate WaitsOk(n: Nest) {
    && (forall k :: k in n.spawned ==> IsRunning(n.sys, k))
    && (forall k :: k in n.waits ==> k in n.spawned && n.waits[k] in n.sys.joins)
    && (forall js, k: nat :: js in n.sys.joins && Thread(k) in n.sys.joins[js].waiters ==>
          n.sys.joins[js].waiters[Thread(k)].kind.ForTasks?)
  }

  ghost predicate NestInv(n: Nest) {
    Inv(n.sys) && WaitsOk(n) && SomeFresh(n)
  }

  /** Who runs goes on running, but for the end of its function. */
  lemma RunsOn(s: Sys, step: Step, k: nat)
    requires Enabled(s, step) && IsRunning(s, k) && !(step.Execute? && step.worker == k)
    ensures IsRunning(Next(s, step), k)
  {
    hide OnJoin, Waited, Without, Released, Known, ErrorRecorded;
  }

  lemma JoinsStay(s: Sys, step: Step, js: nat)
    requires Enabled(s, step) && js in s.joins
    ensures js in Next(s, step).joins
  {
    hide Waited, Without, Entered, Woken, Spawned, Stopped, MayWake, Grown, Incremented, Decremented, ErrorRecorded;
  }

  /** Only a pass of Wait adds a waiter. */
  lemma WaitersStay(s: Sys, step: Step, js: nat, w: nat)
    requires Enabled(s, step) && js in Next(s, step).joins && w in Next(s, step).joins[js].waiters
    requires step.Wait? ==> step.waiter != w
    ensures js in s.joins && w in s.joins[js].waiters
    ensures Next(s, step).joins[js].waiters[w].kind == s.joins[js].waiters[w].kind
  {
    hide Without, Entered, Woken, Spawned, Stopped, MayWake, Grown;
  }

  lemma WaitersKind(n: Nest, move: Move, js: nat, k: nat)
    requires WaitsOk(n) && CanMove(n, move)
    requires js in Moved(n, move).sys.joins && Thread(k) in Moved(n, move).sys.joins[js].waiters
    ensures Moved(n, move).sys.joins[js].waiters[Thread(k)].kind.ForTasks?
  {
    var step := StepIn(move);
    if step.Wait? && step.waiter == Thread(k) {
      assert move.WaitFrom?;
      hide Enabled, WaitsOk;
    } else {
      hide Enabled, Next;
      WaitersStay(n.sys, step, js, Thread(k));
    }
  }

  lemma WaitsStep(n: Nest, move: Move)
    requires WaitsOk(n) && CanMove(n, move)
    ensures WaitsOk(Moved(n, move))
  {
    hide Enabled, Next;
    var step, m := StepIn(move), Moved(n, move);
    forall k | k in m.spawned ensures IsRunning(m.sys, k) {
      RunsOn(n.sys, step, k);
    }
    forall k | k in m.waits ensures k in m.spawned && m.waits[k] in m.sys.joins {
      WaitKnown(n, move, k);
    }
    forall js, k: nat | js in m.sys.joins && Thread(k) in m.sys.joins[js].waiters
      ensures m.sys.joins[js].waiters[Thread(k)].kind.ForTasks? {
      WaitersKind(n, move, js, k);
    }
  }

  lemma WaitKnown(n: Nest, move: Move, k: nat)
    requires WaitsOk(n) && CanMove(n, move) && k in Moved(n, move).waits
    ensures k in Moved(n, move).spawned && Moved(n, move).waits[k] in Moved(n, move).sys.joins
  {
    hide Next;
    if move.WaitFrom? && move.worker == k {
      assert move.js in n.sys.joins;
      JoinsStay(n.sys, StepIn(move), move.js);
    } else {
      JoinsStay(n.sys, StepIn(move), n.waits[k]);
    }
    hide Enabled;
  }

  /** After a spawn somebody is not running: the new thread, or the one that is asleep. */
  lemma SpawnLeavesOne(s: Sys, temp: nat, wake: Option<nat>)
    requires PoolInv(s.pool) && Enabled(s, Enqueue(temp, wake))
    ensures var t := Next(s, Enqueue(temp, wake)); |t.pool.workers| < t.pool.maxThreads ==> !AllRunning(t)
  {
    var p, t := s.pool, Next(s, Enqueue(temp, wake));
    if p.sleeping == 0 {
      if |p.workers| < p.maxThreads {
        assert Grown(p)[|p.workers|] == Idle && t.pool.workers[|p.workers|] == Idle;
        assert !IsRunning(t, |p.workers|);
      }
    } else {
      var k := CountWitness(p.workers, Asleep);
      assert !IsRunning(t, k);
    }
  }

  lemma SizeStays(s: Sys, step: Step)
    requires Enabled(s, step) && !step.Enqueue?
    ensures |Next(s, step).pool.workers| == |s.pool.workers| && Next(s, step).pool.maxThreads == s.pool.maxThreads
  {
    hide OnJoin, Waited, Without, Released, Known, ErrorRecorded;
  }

  lemma Ends(s: Sys, k: nat, throws: bool)
    requires Enabled(s, Execute(k, throws))
    ensures !AllRunning(Next(s, Execute(k, throws)))
  {
    assert !IsRunning(Next(s, Execute(k, throws)), k);
  }

  lemma FreshStep(n: Nest, move: Move)
    requires NestInv(n) && CanMove(n, move)
    ensures SomeFresh(Moved(n, move))
  {
    var step, m := StepIn(move), Moved(n, move);
    var ws := m.sys.pool.workers;
    if ws != [] && |ws| < m.sys.pool.maxThreads && AllRunning(m.sys) {
      if step.Enqueue? {
        SpawnLeavesOne(n.sys, step.temp, step.wake);
        assert false;
      } else if step.Execute? {
        Ends(n.sys, step.worker, step.throws);
        assert false;
      } else {
        hide Enabled, Next, Inv;
        SizeStays(n.sys, step);
        if k :| 0 <= k < |ws| && !IsRunning(n.sys, k) {
          assert IsRunning(m.sys, k) && k !in n.spawned && k !in m.spawned;
        } else {
          assert AllRunning(n.sys);
        }
      }
    }
  }

  lemma NestStep(n: Nest, move: Move)
    requires NestInv(n) && CanMove(n, move)
    ensures NestInv(Moved(n, move))
  {
    FreshStep(n, move);
    hide Enabled, Next, WaitsOk, SomeFresh, Inv;
    InvStep(n.sys, StepIn(move));
    WaitsStep(n, move);
  }

  lemma MoveIsStep(n: Nest, move: Move)
    requires CanMove(n, move)
    ensures Enabled(n.sys, StepIn(move)) && Moved(n, move).sys == Next(n.sys, StepIn(move))
  {
  }

  lemma MaxStays(s: Sys, step: Step)
    requires Enabled(s, step)
    ensures Next(s, step).pool.maxThreads == s.pool.maxThreads
  {
    hide OnJoin, Waited, Without, Released, Known, ErrorRecorded;
  }

  lemma {:induction false} NestRun(n: Nest, moves: seq<Move>)
    requires NestInv(n) && IsRunOf(n, moves)
    ensures NestInv(Ended(n, moves)) && Ended(n, moves).sys.pool.maxThreads == n.sys.pool.maxThreads
    decreases |moves|
  {
    hide NestInv, CanMove, Next;
    if moves != [] {
      MoveIsStep(n, moves[0]);
      NestStep(n, moves[0]);
      MaxStays(n.sys, StepIn(moves[0]));
      NestRun(Moved(n, moves[0]), moves[1..]);
    }
  }

  lemma GetsInv(maxThreads: nat, n: Nest)
    requires Gets(maxThreads, n)
    ensures NestInv(n) && n.sys.pool.maxThreads == maxThreads
  {
    var moves :| IsRunOf(Begin(maxThreads), moves) && Ended(Begin(maxThreads), moves) == n;
    InvInit(maxThreads);
    assert NestInv(Begin(maxThreads));
    hide NestInv;
    NestRun(Begin(maxThreads), moves);
  }

  lemma {:induction false} RunIsReachable(maxThreads: nat, n: Nest, moves: seq<Move>)
    requires Reachable(maxThreads, n.sys) && IsRunOf(n, moves)
    ensures Reachable(maxThreads, Ended(n, moves).sys)
    decreases |moves|
  {
    hide Reachable, CanMove, Next;
    if moves != [] {
      MoveIsStep(n, moves[0]);
      ReachableNext(maxThreads, n.sys, StepIn(moves[0]));
      RunIsReachable(maxThreads, Moved(n, moves[0]), moves[1..]);
    }
  }

  /** Functions that wait are among the interleavings of the pool: all that is safe there is safe here. */
  lemma NestedIsReachable(maxThreads: nat, n: Nest)
    requires Gets(maxThreads, n)
    ensures Reachable(maxThreads, n.sys)
  {
    var moves :| IsRunOf(Begin(maxThreads), moves) && Ended(Begin(maxThreads), moves) == n;
    InitIsReachable(maxThreads);
    hide Reachable;
    RunIsReachable(maxThreads, Begin(maxThreads), moves);
  }

  // ---------- when the pool gets on ----------

  /** The function of worker `k` sleeps, and the join set it waits on has nothing to wake it up for. */
  predicate Stuck(n: Nest, k: nat) {
    k in n.waits && n.waits[k] in n.sys.joins && !Ready(n.sys.joins[n.waits[k]], ForTasks)
  }

  function StuckWorkers(n: Nest): set<nat> {
    set k: nat | 0 <= k < |n.sys.pool.workers| && Stuck(n, k)
  }

  /** The thread holds the lock of the join set, or has been notified. */
  predicate AwakeOn(j: Join, waiter: nat) {
    waiter in j.waiters ==> j.waiters[waiter].notified
  }

  /** A worker that is awake gets on, with its loop, its function, or out of its wait. */
  predicate GetsOn(n: Nest, move: Move) {
    && CanMove(n, move)
    && match move
       case Plain(step) => IsWorkerStep(step) && Awake(n.sys.pool.workers[step.worker])
       case SpawnFrom(_, _, _) => false
       case WaitFrom(k, js) =>
         k in n.waits && Ready(n.sys.joins[js], ForTasks) && AwakeOn(n.sys.joins[js], Thread(k))
  }

  /** Only a worker that is not stuck gets on. */
  lemma WhoGetsOn(n: Nest, move: Move)
    requires WaitsOk(n) && GetsOn(n, move)
    ensures exists k :: 0 <= k < |n.sys.pool.workers| && k !in StuckWorkers(n)
  {
    hide Known, Released, Awake;
    var k: nat := if move.WaitFrom? then move.worker else move.step.worker;
    assert k in n.waits ==> IsRunning(n.sys, k);
    assert k < |n.sys.pool.workers| && k !in StuckWorkers(n);
  }

  /** And one of these does when a task is pending. */
  lemma FreeGetsOn(n: Nest, k: nat) returns (move: Move)
    requires NestInv(n) && n.sys.pool.pending != [] && k < |n.sys.pool.workers| && !Stuck(n, k)
    ensures GetsOn(n, move)
  {
    if k in n.waits {
      move := WaitFrom(k, n.waits[k]);
      ReadyGetsOn(n, k);
    } else if Awake(n.sys.pool.workers[k]) {
      move := Plain(StepOf(n.sys, k));
      AwakeGetsOn(n, k);
    } else {
      var i := SleeperIsNoticed(n.sys.pool, k);
      move := Plain(StepOf(n.sys, i));
      WaitersRun(n, i);
      AwakeGetsOn(n, i);
    }
  }

  lemma WaitersRun(n: Nest, k: nat)
    requires WaitsOk(n)
    ensures k in n.waits ==> IsRunning(n.sys, k)
  {
  }

  lemma ReadyGetsOn(n: Nest, k: nat)
    requires NestInv(n) && k in n.waits && !Stuck(n, k)
    ensures GetsOn(n, WaitFrom(k, n.waits[k]))
  {
    var js := n.waits[k];
    assert k in n.spawned && js in n.sys.joins && IsRunning(n.sys, k) && JoinAt(n.sys, js);
    hide PoolInv, FlowInv, JoinInv, Live, SomeFresh;
    assert n.sys.joins[js].waiters.Keys == n.sys.joins[js].waiters.Keys;
  }

  lemma AwakeGetsOn(n: Nest, k: nat)
    requires NestInv(n) && k < |n.sys.pool.workers| && Awake(n.sys.pool.workers[k]) && k !in n.waits
    ensures GetsOn(n, Plain(StepOf(n.sys, k)))
  {
    AwakeCanStep(n.sys, k);
    hide Enabled, Inv, WaitsOk, SomeFresh;
  }

  lemma SleeperIsNoticed(p: Pool, k: nat) returns (i: nat)
    requires PoolInv(p) && p.pending != [] && k < |p.workers| && !Awake(p.workers[k])
    ensures i < |p.workers| && p.workers[i].Notified? && Awake(p.workers[i])
  {
    assert p.workers[k] in p.workers;
    CountPositive(p.workers, k, IsBlocked);
    i := CountWitness(p.workers, IsNotified);
  }

  // ---------- the number of threads ----------

  function Below(m: nat): set<nat> {
    if m == 0 then {} else Below(m - 1) + {m - 1}
  }

  lemma {:induction false} BelowSize(m: nat)
    ensures |Below(m)| == m && forall k: nat :: k in Below(m) <==> k < m
  {
    if m > 0 {
      BelowSize(m - 1);
    }
  }

  lemma SubsetSize(a: set<nat>, b: set<nat>)
    requires a <= b
    ensures |a| <= |b| && (|a| == |b| ==> a == b)
  {
    assert b == a + (b - a) && |b| == |a| + |b - a|;
  }

  /** All workers are stuck only when the pool has all the threads it may have. */
  lemma StuckMeansFull(n: Nest)
    requires NestInv(n) && n.sys.pool.workers != [] && StuckWorkers(n) == Below(|n.sys.pool.workers|)
    ensures |n.sys.pool.workers| == n.sys.pool.maxThreads
  {
    var ws := n.sys.pool.workers;
    BelowSize(|ws|);
    forall k | 0 <= k < |ws| ensures k in n.spawned && IsRunning(n.sys, k) {
      assert k in StuckWorkers(n);
    }
    assert PoolInv(n.sys.pool);
  }

  /**
   * In every reachable state with a pending task some worker that is awake gets on, if and only if fewer functions are
   * stuck in waits than the pool may have threads.
   */
  lemma PendingMovesExactly(maxThreads: nat, n: Nest)
    requires maxThreads > 0 && Gets(maxThreads, n) && n.sys.pool.pending != []
    ensures (exists move :: GetsOn(n, move)) <==> |StuckWorkers(n)| < maxThreads
  {
    GetsInv(maxThreads, n);
    var ws := n.sys.pool.workers;
    var all := Below(|ws|);
    BelowSize(|ws|);
    SubsetSize(StuckWorkers(n), all);
    assert ws != [] && |ws| <= maxThreads by { assert PoolInv(n.sys.pool); }
    hide Gets, NestInv, GetsOn, Stuck, CanMove;
    WaitsKnown(n);
    if move :| GetsOn(n, move) {
      WhoGetsOn(n, move);
      assert StuckWorkers(n) != all;
    } else if StuckWorkers(n) == all {
      StuckMeansFull(n);
    } else {
      var k :| k in all && k !in StuckWorkers(n);
      var move := FreeGetsOn(n, k);
      assert false;
    }
  }

  lemma WaitsKnown(n: Nest)
    requires NestInv(n)
    ensures WaitsOk(n)
  {
  }

  // ---------- one thread ----------

  lemma {:induction false} MovesSnoc(n: Nest, moves: seq<Move>, move: Move)
    requires IsRunOf(n, moves) && CanMove(Ended(n, moves), move)
    ensures IsRunOf(n, moves + [move]) && Ended(n, moves + [move]) == Moved(Ended(n, moves), move)
    decreases |moves|
  {
    hide CanMove, Moved;
    if moves == [] {
      assert moves + [move] == [move] && [move][1..] == [];
    } else {
      MovesSnoc(Moved(n, moves[0]), moves[1..], move);
      assert (moves + [move])[1..] == moves[1..] + [move];
    }
  }

  lemma GetsNext(maxThreads: nat, n: Nest, move: Move)
    requires Gets(maxThreads, n) && CanMove(n, move)
    ensures Gets(maxThreads, Moved(n, move))
  {
    hide CanMove, Moved;
    var moves :| IsRunOf(Begin(maxThreads), moves) && Ended(Begin(maxThreads), moves) == n;
    MovesSnoc(Begin(maxThreads), moves, move);
  }

  /** A pool of one thread gets a task. */
  lemma OneIsAccepted() returns (n: Nest)
    ensures Gets(1, n) && n.sys.pool == Pool(1, 0, [Idle], [Work(0, None)], false)
    ensures n.sys.temps == [] && |n.sys.created| == 1 && n.sys.joins == map[] && n.waits == map[] && n.spawned == {}
  {
    assert IsRunOf(Begin(1), []) && Ended(Begin(1), []) == Begin(1);
    hide Gets;
    n := Begin(1);
    GetsNext(1, n, Plain(Create(None)));
    n := Moved(n, Plain(Create(None)));
    assert n.sys.temps == [Work(0, None)];
    GetsNext(1, n, Plain(Enqueue(0, None)));
    n := Moved(n, Plain(Enqueue(0, None)));
  }

  /** Its function runs. */
  lemma OneRuns() returns (n: Nest)
    ensures Gets(1, n) && n.sys.pool == Pool(1, 0, [Running(Work(0, None))], [], false)
    ensures n.sys.temps == [] && |n.sys.created| == 1 && n.sys.joins == map[] && n.waits == map[] && n.spawned == {}
  {
    hide Gets;
    n := OneIsAccepted();
    GetsNext(1, n, Plain(EnterWait(0)));
    n := Moved(n, Plain(EnterWait(0)));
  }

  /** It makes a join set and spawns a task onto it. */
  lemma OneSpawns() returns (n: Nest)
    ensures Gets(1, n) && n.sys.pool == Pool(1, 0, [Running(Work(0, None))], [Work(1, Some(0))], false)
    ensures n.sys.joins == map[0 := Join(1, None, map[])] && 0 in n.sys.unreported && n.waits == map[] && n.spawned == {0}
  {
    hide Gets;
    n := OneRuns();
    GetsNext(1, n, Plain(NewJoinSet(0)));
    n := Moved(n, Plain(NewJoinSet(0)));
    GetsNext(1, n, Plain(Create(Some(0))));
    n := Moved(n, Plain(Create(Some(0))));
    assert n.sys.temps == [Work(1, Some(0))];
    GetsNext(1, n, SpawnFrom(0, 0, None));
    n := Moved(n, SpawnFrom(0, 0, None));
  }

  /** And waits for it: the pool hangs, with the task pending. */
  lemma OneThreadHangs() returns (n: Nest)
    ensures Gets(1, n) && n.sys.pool.pending == [Work(1, Some(0))] && StuckWorkers(n) == {0}
    ensures forall move :: !GetsOn(n, move)
  {
    n := OneSpawns();
    GetsNext(1, n, WaitFrom(0, 0));
    n := Moved(n, WaitFrom(0, 0));
    assert StuckWorkers(n) == {0};
    hide Gets, Stuck, GetsOn;
    PendingMovesExactly(1, n);
  }
}
