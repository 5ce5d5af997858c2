/** What holds in every state that a pool, its join sets and its clients can reach, in whatever order they run. */
module PoolMachineProofs {
  import opened Prelude
  import opened ThreadPools
  import opened JoinSets
  import opened PoolMachine
  import opened PoolProofs

  // ---------- bags of tasks ----------

  predicate Holds(w: Worker, js: nat) {
    match w
    case Running(t) => t.joinSet == Some(js)
    case Failed(t) => t.joinSet == Some(js)
    case Ending(t) => t.joinSet == Some(js)
    case _ => false
  }

  function Holder(js: nat): Worker -> bool {
    w => Holds(w, js)
  }

  function Owned(ws: seq<Work>, js: nat): nat {
    if ws == [] then 0 else Owned(ws[..|ws| - 1], js) + (if ws[|ws| - 1].joinSet == Some(js) then 1 else 0)
  }

  /** The number of live task objects that report to join set `js`. */
  function Live(s: Sys, js: nat): nat {
    Owned(s.temps, js) + Owned(s.pool.pending, js) + Count(s.pool.workers, Holder(js))
  }

  function RunningPart(w: Worker): multiset<Work> {
    if w.Running? then multiset{w.work} else multiset{}
  }

  function RunningWorks(ws: seq<Worker>): multiset<Work> {
    if ws == [] then multiset{} else RunningWorks(ws[..|ws| - 1]) + RunningPart(ws[|ws| - 1])
  }

  lemma {:induction false} OwnedConcat(a: seq<Work>, b: seq<Work>, js: nat)
    ensures Owned(a + b, js) == Owned(a, js) + Owned(b, js)
  {
    if b == [] {
      assert a + b == a;
    } else {
      OwnedConcat(a, b[..|b| - 1], js);
      assert (a + b)[..|a + b| - 1] == a + b[..|b| - 1];
    }
  }

  function One(w: Work, js: nat): nat {
    if w.joinSet == Some(js) then 1 else 0
  }

  lemma OwnedOne(w: Work, js: nat)
    ensures Owned([w], js) == One(w, js)
  {
    assert [w][..0] == [];
  }

  lemma OwnedWithout(ws: seq<Work>, k: nat, js: nat)
    requires k < |ws|
    ensures Owned(ws, js) == Owned(Without(ws, k), js) + One(ws[k], js)
  {
    hide Owned;
    OwnedConcat(ws[..k], [ws[k]], js);
    OwnedConcat(ws[..k] + [ws[k]], ws[k + 1..], js);
    OwnedConcat(ws[..k], ws[k + 1..], js);
    OwnedOne(ws[k], js);
    assert ws == ws[..k] + [ws[k]] + ws[k + 1..];
  }

  lemma OwnedSnoc(ws: seq<Work>, w: Work, js: nat)
    ensures Owned(ws + [w], js) == Owned(ws, js) + One(w, js)
  {
    OwnedConcat(ws, [w], js);
    OwnedOne(w, js);
  }

  lemma {:induction false} OwnedNone(ws: seq<Work>, js: nat)
    ensures Owned(ws, js) == 0 <==> forall w :: w in ws ==> w.joinSet != Some(js)
  {
    if ws != [] {
      OwnedNone(ws[..|ws| - 1], js);
      assert ws == ws[..|ws| - 1] + [ws[|ws| - 1]];
    }
  }

  lemma MultisetWithout(ws: seq<Work>, k: nat)
    requires k < |ws|
    ensures multiset(ws) == multiset(Without(ws, k)) + multiset{ws[k]}
  {
    assert ws == ws[..k] + [ws[k]] + ws[k + 1..];
  }

  lemma {:induction false} RunningUpdate(ws: seq<Worker>, k: nat, w: Worker)
    requires k < |ws|
    ensures RunningWorks(ws[k := w]) + RunningPart(ws[k]) == RunningWorks(ws) + RunningPart(w)
  {
    hide RunningPart;
    var n := |ws| - 1;
    if k == n {
      assert ws[k := w][..n] == ws[..n];
    } else {
      RunningUpdate(ws[..n], k, w);
      assert ws[k := w][..n] == ws[..n][k := w];
      var before, after, last := RunningWorks(ws[..n]), RunningWorks(ws[k := w][..n]), RunningPart(ws[n]);
      assert after + last + RunningPart(ws[k]) == after + RunningPart(ws[k]) + last;
      assert before + last + RunningPart(w) == before + RunningPart(w) + last;
    }
  }

  lemma RunningUnchanged(ws: seq<Worker>, k: nat, w: Worker)
    requires k < |ws| && !ws[k].Running? && !w.Running?
    ensures RunningWorks(ws[k := w]) == RunningWorks(ws)
  {
    hide RunningWorks;
    RunningUpdate(ws, k, w);
    assert RunningWorks(ws[k := w]) + multiset{} == RunningWorks(ws[k := w]);
    assert RunningWorks(ws) + multiset{} == RunningWorks(ws);
  }

  lemma RunningSnoc(ws: seq<Worker>, w: Worker)
    ensures RunningWorks(ws + [w]) == RunningWorks(ws) + RunningPart(w)
  {
    assert (ws + [w])[..|ws|] == ws;
  }

  lemma {:induction false} RunningSame(ws: seq<Worker>, vs: seq<Worker>)
    requires |ws| == |vs| && forall k :: 0 <= k < |ws| ==> RunningPart(ws[k]) == RunningPart(vs[k])
    ensures RunningWorks(ws) == RunningWorks(vs)
  {
    if ws != [] {
      var n := |ws| - 1;
      assert forall k :: 0 <= k < n ==> ws[..n][k] == ws[k] && vs[..n][k] == vs[k];
      RunningSame(ws[..n], vs[..n]);
    }
  }

  lemma {:induction false} NoneRunning(ws: seq<Worker>)
    requires forall w :: w in ws ==> !w.Running?
    ensures RunningWorks(ws) == multiset{}
  {
    if ws != [] {
      NoneRunning(ws[..|ws| - 1]);
    }
  }

  lemma {:induction false} RunningIsHeld(ws: seq<Worker>, t: Work)
    requires t in RunningWorks(ws)
    ensures Running(t) in ws
  {
    if ws != [] && ws[|ws| - 1] != Running(t) {
      RunningIsHeld(ws[..|ws| - 1], t);
    }
  }

  // ---------- invariants ----------

  /** Tasks start in the order in which they were accepted. */
  ghost predicate Ordered(s: Sys) {
    s.accepted == s.started + s.pool.pending
  }

  /** What was started has come to its end or is running. */
  ghost predicate Executing(s: Sys) {
    multiset(s.started) == multiset(s.finished) + RunningWorks(s.pool.workers)
  }

  /** Every task object made is waiting to be enqueued, accepted or rejected. */
  ghost predicate Conserved(s: Sys) {
    multiset(s.created) == multiset(s.temps) + multiset(s.accepted) + multiset(s.rejected)
  }

  /** No two task objects are the same. */
  ghost predicate Numbered(s: Sys) {
    forall i :: 0 <= i < |s.created| ==> s.created[i].id == i
  }

  ghost predicate FlowInv(s: Sys) {
    Ordered(s) && Executing(s) && Conserved(s) && Numbered(s)
  }

  /** A join set counts its live tasks, holds the oldest unreported error, and lets no waiter sleep through its event. */
  ghost predicate JoinOk(j: Join, unreported: seq<nat>, live: nat) {
    && j.count == live
    && (if unreported == [] then j.exception.None? else j.exception == Some(unreported[0]))
    && (forall w :: w in j.waiters && !j.waiters[w].notified ==> !Ready(j, j.waiters[w].kind))
  }

  /** One that is not there yet has no tasks. */
  ghost predicate JoinAt(s: Sys, js: nat) {
    && (js in s.joins <==> js in s.unreported)
    && if js in s.joins then JoinOk(s.joins[js], s.unreported[js], Live(s, js)) else Live(s, js) == 0
  }

  ghost predicate JoinInv(s: Sys) {
    forall js: nat :: JoinAt(s, js)
  }

  ghost predicate Inv(s: Sys) {
    PoolInv(s.pool) && FlowInv(s) && JoinInv(s)
  }

  // ---------- one step ----------

  lemma PoolStep(s: Sys, step: Step)
    requires PoolInv(s.pool) && Enabled(s, step)
    ensures PoolInv(Next(s, step).pool)
  {
    hide PoolInv;
    match step
    case Enqueue(k, wake) => SpawnedKeeps(s.pool, s.temps[k], wake);
    case EnterWait(k) => EnteredKeeps(s.pool, k);
    case WakeUp(k) => WokenKeeps(s.pool, k);
    case Execute(k, throws) =>
      var w := s.pool.workers[k].work;
      WorkerKeeps(s.pool, k, if throws then Failed(w) else Ending(w));
    case Record(k) => WorkerKeeps(s.pool, k, Ending(s.pool.workers[k].work));
    case Destroy(k) => WorkerKeeps(s.pool, k, Idle);
    case Stop => StoppedKeeps(s.pool);
    case _ =>
  }

  lemma SpawnRunning(p: Pool, w: Work, wake: Option<nat>)
    requires !p.stop && MayWake(Grown(p), wake)
    ensures RunningWorks(Spawned(p, w, wake).workers) == RunningWorks(p.workers)
  {
    RunningSnoc(p.workers, Idle);
    assert RunningWorks(p.workers) + multiset{} == RunningWorks(p.workers);
    if wake.Some? {
      RunningUnchanged(Grown(p), wake.value, Notified);
    }
  }

  lemma OrderedStep(s: Sys, step: Step)
    requires Ordered(s) && Enabled(s, step)
    ensures Ordered(Next(s, step))
  {
    hide OnJoin, Waited, Without, Released, Known, NotifyAll, ErrorRecorded, Grown, MayWake;
    match step
    case Enqueue(k, wake) =>
      assert s.accepted + [s.temps[k]] == s.started + (s.pool.pending + [s.temps[k]]);
    case EnterWait(k) => OrderedTook(s);
    case WakeUp(k) => OrderedTook(s);
    case _ =>
  }

  lemma OrderedTook(s: Sys)
    requires Ordered(s)
    ensures s.pool.pending != [] ==> s.accepted == s.started + [s.pool.pending[0]] + s.pool.pending[1..]
  {
  }

  lemma ConservedMove(s: Sys, k: nat)
    requires Conserved(s) && k < |s.temps|
    ensures multiset(s.created) == multiset(Without(s.temps, k)) + multiset(s.accepted + [s.temps[k]]) + multiset(s.rejected)
    ensures multiset(s.created) == multiset(Without(s.temps, k)) + multiset(s.accepted) + multiset(s.rejected + [s.temps[k]])
  {
    hide Without;
    MultisetWithout(s.temps, k);
  }

  lemma ConservedCreate(s: Sys, joinSet: Option<nat>)
    requires Conserved(s) && Enabled(s, Create(joinSet))
    ensures Conserved(Next(s, Create(joinSet)))
  {
    hide OnJoin;
    var w := Work(|s.created|, joinSet);
    assert multiset(s.temps + [w]) == multiset(s.temps) + multiset{w};
  }

  /** All other steps leave the task objects where they are. */
  lemma ConservedElse(s: Sys, step: Step)
    requires Enabled(s, step) && !step.Create? && !step.Enqueue? && !step.Reject?
    ensures var t := Next(s, step);
            t.created == s.created && t.temps == s.temps && t.accepted == s.accepted && t.rejected == s.rejected
  {
    hide Entered, Woken, Stopped, Waited, OnJoin, Took, Released, Known;
  }

  lemma ConservedStep(s: Sys, step: Step)
    requires Conserved(s) && Enabled(s, step)
    ensures Conserved(Next(s, step))
  {
    match step
    case Enqueue(k, wake) =>
      ConservedMove(s, k);
      hide Spawned, Grown, MayWake, Without;
    case Reject(k) =>
      ConservedMove(s, k);
      hide OnJoin, Released, Without;
    case Create(joinSet) => ConservedCreate(s, joinSet);
    case _ =>
      ConservedElse(s, step);
      hide Next;
  }

  lemma NumberedStep(s: Sys, step: Step)
    requires Numbered(s) && Enabled(s, step)
    ensures Numbered(Next(s, step))
  {
    hide Spawned, Entered, Woken, Stopped, Grown, MayWake, Without, Waited, OnJoin, Took, Released, Known;
  }

  lemma TestedExecuting(s: Sys, k: nat, p: Pool)
    requires Executing(s) && k < |p.workers| && p.sleeping > 0
    requires p.workers == s.pool.workers && p.pending == s.pool.pending && !p.workers[k].Running?
    ensures Executing(Took(s, k, Tested(p, k)))
  {
    hide RunningWorks;
    if !p.stop && p.pending == [] {
      RunningUnchanged(p.workers, k, Blocked);
    } else if p.pending == [] {
      RunningUnchanged(p.workers, k, Exited);
    } else {
      var w := p.pending[0];
      RunningUpdate(p.workers, k, Running(w));
      assert RunningWorks(p.workers[k := Running(w)]) == RunningWorks(p.workers) + multiset{w};
    }
  }

  lemma ExecuteStep(s: Sys, k: nat, w: Worker)
    requires Executing(s) && k < |s.pool.workers| && s.pool.workers[k].Running? && !w.Running?
    ensures Executing(s.(pool := WithWorker(s.pool, k, w), finished := s.finished + [s.pool.workers[k].work]))
  {
    hide RunningWorks;
    var ws, done := s.pool.workers, s.pool.workers[k].work;
    RunningUpdate(ws, k, w);
    assert RunningWorks(ws) + multiset{} == RunningWorks(ws);
    assert RunningWorks(ws[k := w]) + multiset{done} == RunningWorks(ws);
  }

  lemma EnqueueExecuting(s: Sys, k: nat, wake: Option<nat>)
    requires Executing(s) && Enabled(s, Enqueue(k, wake))
    ensures Executing(Next(s, Enqueue(k, wake)))
  {
    SpawnRunning(s.pool, s.temps[k], wake);
    hide RunningWorks, Spawned, Without;
  }

  lemma TestExecuting(s: Sys, step: Step)
    requires Executing(s) && Enabled(s, step) && (step.EnterWait? || step.WakeUp?)
    ensures Executing(Next(s, step))
  {
    var k := step.worker;
    if step.EnterWait? {
      TestedExecuting(s, k, s.pool.(sleeping := s.pool.sleeping + 1));
    } else {
      TestedExecuting(s, k, s.pool);
    }
    hide Executing, Took, Tested;
  }

  lemma StopExecuting(s: Sys)
    requires Executing(s)
    ensures Executing(s.(pool := Stopped(s.pool)))
  {
    RunningSame(s.pool.workers, NotifyAll(s.pool.workers));
    hide RunningWorks, NotifyAll;
  }

  /** Steps after which another worker runs nothing, as before. */
  lemma EndExecuting(s: Sys, step: Step)
    requires Executing(s) && Enabled(s, step) && (step.Record? || step.Destroy?)
    ensures Executing(Next(s, step))
  {
    var ws, k := s.pool.workers, step.worker;
    RunningUnchanged(ws, k, Idle);
    RunningUnchanged(ws, k, Ending(ws[k].work));
    hide RunningWorks, OnJoin, ErrorRecorded, Decremented, Released, Known;
  }

  lemma OtherExecuting(s: Sys, step: Step)
    requires Executing(s) && Enabled(s, step)
    requires step.NewJoinSet? || step.Create? || step.Reject? || step.Wait?
    ensures Executing(Next(s, step))
  {
    hide RunningWorks, Without, Waited, OnJoin, Released, Known;
  }

  lemma ExecutingStep(s: Sys, step: Step)
    requires Executing(s) && Enabled(s, step)
    ensures Executing(Next(s, step))
  {
    hide Executing, Without, Waited, OnJoin, Released, Known, Spawned, Took, Stopped, Entered, Woken, MayWake, Grown;
    match step
    case Enqueue(k, wake) => EnqueueExecuting(s, k, wake);
    case EnterWait(_) => TestExecuting(s, step);
    case WakeUp(_) => TestExecuting(s, step);
    case Execute(k, throws) =>
      ExecuteStep(s, k, if throws then Failed(s.pool.workers[k].work) else Ending(s.pool.workers[k].work));
    case Record(_) => EndExecuting(s, step);
    case Destroy(_) => EndExecuting(s, step);
    case Stop => StopExecuting(s);
    case _ => OtherExecuting(s, step);
  }

  /** How a step changes the number of live tasks of a join set. */
  function LiveAfter(s: Sys, step: Step, js: nat): int
    requires Enabled(s, step)
  {
    match step
    case Create(joinSet) => Live(s, js) + One(Work(0, joinSet), js)
    case Reject(k) => Live(s, js) - One(s.temps[k], js)
    case Destroy(k) => Live(s, js) - One(s.pool.workers[k].work, js)
    case _ => Live(s, js)
  }

  lemma TestedLive(s: Sys, k: nat, p: Pool, js: nat)
    requires k < |p.workers| && p.sleeping > 0 && !Holds(p.workers[k], js)
    requires p.workers == s.pool.workers && p.pending == s.pool.pending
    ensures Live(Took(s, k, Tested(p, k)), js) == Live(s, js)
  {
    CountUpdate(p.workers, k, Blocked, Holder(js));
    CountUpdate(p.workers, k, Exited, Holder(js));
    if p.pending != [] {
      CountUpdate(p.workers, k, Running(p.pending[0]), Holder(js));
      OwnedWithout(p.pending, 0, js);
      assert Without(p.pending, 0) == p.pending[1..];
    }
  }

  lemma EnteredLive(s: Sys, k: nat, js: nat)
    requires Enabled(s, EnterWait(k))
    ensures Live(Took(s, k, Entered(s.pool, k)), js) == Live(s, js)
  {
    TestedLive(s, k, s.pool.(sleeping := s.pool.sleeping + 1), js);
  }

  lemma WokenLive(s: Sys, k: nat, js: nat)
    requires Enabled(s, WakeUp(k))
    ensures Live(Took(s, k, Woken(s.pool, k)), js) == Live(s, js)
  {
    TestedLive(s, k, s.pool, js);
  }

  lemma EnqueueLive(s: Sys, k: nat, wake: Option<nat>, js: nat)
    requires Enabled(s, Enqueue(k, wake))
    ensures Live(Next(s, Enqueue(k, wake)), js) == Live(s, js)
  {
    OwnedWithout(s.temps, k, js);
    OwnedSnoc(s.pool.pending, s.temps[k], js);
    CountSnoc(s.pool.workers, Idle, Holder(js));
    if wake.Some? {
      CountUpdate(Grown(s.pool), wake.value, Notified, Holder(js));
    }
    hide Owned, Count, Without;
  }

  lemma TempsLive(s: Sys, step: Step, js: nat)
    requires Enabled(s, step) && (step.Create? || step.Reject?)
    ensures Live(Next(s, step), js) == LiveAfter(s, step, js)
  {
    hide Owned, Count, Without, OnJoin, Released, Decremented, Incremented;
    match step
    case Create(joinSet) => OwnedSnoc(s.temps, Work(|s.created|, joinSet), js);
    case Reject(k) => OwnedWithout(s.temps, k, js);
  }

  /** A worker gets on with what it executes. */
  lemma WorkerLive(s: Sys, step: Step, js: nat)
    requires Enabled(s, step) && (step.Execute? || step.Record? || step.Destroy?)
    ensures Live(Next(s, step), js) == LiveAfter(s, step, js)
  {
    hide Owned, Count, OnJoin, Released, Known, Decremented, ErrorRecorded;
    var ws := s.pool.workers;
    match step
    case Execute(k, throws) => CountUpdate(ws, k, if throws then Failed(ws[k].work) else Ending(ws[k].work), Holder(js));
    case Record(k) => CountUpdate(ws, k, Ending(ws[k].work), Holder(js));
    case Destroy(k) => CountUpdate(ws, k, Idle, Holder(js));
  }

  lemma StopLive(s: Sys, js: nat)
    ensures Live(s.(pool := Stopped(s.pool)), js) == Live(s, js)
  {
    CountSame(s.pool.workers, NotifyAll(s.pool.workers), Holder(js));
    hide Owned, Count, NotifyAll;
  }

  lemma LiveStep(s: Sys, step: Step, js: nat)
    requires Enabled(s, step)
    ensures Live(Next(s, step), js) == LiveAfter(s, step, js)
  {
    match step
    case Create(_) => TempsLive(s, step, js);
    case Reject(_) => TempsLive(s, step, js);
    case Enqueue(k, wake) => EnqueueLive(s, k, wake, js);
    case EnterWait(k) => EnteredLive(s, k, js);
    case WakeUp(k) => WokenLive(s, k, js);
    case Execute(_, _) => WorkerLive(s, step, js);
    case Record(_) => WorkerLive(s, step, js);
    case Destroy(_) => WorkerLive(s, step, js);
    case Stop => StopLive(s, js);
    case _ => OtherLive(s, step, js);
    hide Live, OnJoin, Without, Waited, Took, Released, Known, Spawned, Stopped, Entered, Woken, MayWake, Grown;
  }

  lemma OtherLive(s: Sys, step: Step, js: nat)
    requires Enabled(s, step) && (step.NewJoinSet? || step.Wait?)
    ensures Live(Next(s, step), js) == Live(s, js)
  {
    hide Owned, Count, Waited;
  }

  // What the operations of a join set keep.

  lemma TaskMade(j: Join, unreported: seq<nat>, live: nat)
    requires JoinOk(j, unreported, live)
    ensures JoinOk(Incremented(j), unreported, live + 1)
  {
  }

  lemma TaskGone(j: Join, unreported: seq<nat>, live: nat)
    requires JoinOk(j, unreported, live) && j.count > 0
    ensures live > 0 && JoinOk(Decremented(j), unreported, live - 1)
  {
  }

  lemma ErrorNoted(j: Join, unreported: seq<nat>, live: nat, work: nat)
    requires JoinOk(j, unreported, live)
    ensures JoinOk(ErrorRecorded(j, work), unreported + [work], live)
  {
  }

  lemma WaitedOnce(j: Join, unreported: seq<nat>, live: nat, waiter: nat, kind: WaitKind)
    requires JoinOk(j, unreported, live)
    ensures var (k, outcome) := Waited(j, waiter, kind);
            JoinOk(k, if outcome.Some? && outcome.value.Rethrown? then [] else unreported, live)
  {
  }

  /** A task object that reports to `js` is made or destroyed. */
  lemma OwnerStep(s: Sys, step: Step, js: nat)
    requires JoinAt(s, js) && Enabled(s, step) && (step.Create? || step.Reject? || step.Destroy?)
    ensures JoinAt(Next(s, step), js)
  {
    LiveStep(s, step, js);
    hide Live, Without, JoinOk, Incremented, Decremented;
    if js in s.joins {
      TaskMade(s.joins[js], s.unreported[js], Live(s, js));
      if s.joins[js].count > 0 {
        TaskGone(s.joins[js], s.unreported[js], Live(s, js));
      }
    }
  }

  lemma NewJoinStep(s: Sys, step: Step, js: nat)
    requires JoinAt(s, js) && Enabled(s, step) && step.NewJoinSet?
    ensures JoinAt(Next(s, step), js)
  {
    LiveStep(s, step, js);
    hide Live;
  }

  lemma RecordStep(s: Sys, k: nat, js: nat)
    requires JoinAt(s, js) && Enabled(s, Record(k))
    ensures JoinAt(Next(s, Record(k)), js)
  {
    LiveStep(s, Record(k), js);
    hide Live, JoinOk, ErrorRecorded;
    if js in s.joins {
      ErrorNoted(s.joins[js], s.unreported[js], Live(s, js), s.pool.workers[k].work.id);
    }
  }

  lemma WaitStep(s: Sys, other: nat, waiter: nat, kind: WaitKind, js: nat)
    requires JoinAt(s, js) && Enabled(s, Wait(other, waiter, kind))
    ensures JoinAt(Next(s, Wait(other, waiter, kind)), js)
  {
    LiveStep(s, Wait(other, waiter, kind), js);
    hide Live, JoinOk, Waited;
    if js in s.joins {
      WaitedOnce(s.joins[js], s.unreported[js], Live(s, js), waiter, kind);
    }
  }

  lemma ElseStep(s: Sys, step: Step, js: nat)
    requires JoinAt(s, js) && Enabled(s, step)
    requires step.Enqueue? || step.EnterWait? || step.WakeUp? || step.Execute? || step.Stop?
    ensures JoinAt(Next(s, step), js)
  {
    LiveStep(s, step, js);
    hide Live, JoinOk, Without, Spawned, Entered, Woken, Stopped, Grown, MayWake, Took;
  }

  lemma JoinAtStep(s: Sys, step: Step, js: nat)
    requires JoinAt(s, js) && Enabled(s, step)
    ensures JoinAt(Next(s, step), js)
  {
    hide JoinAt, Next, Enabled;
    match step
    case Create(_) => OwnerStep(s, step, js);
    case Reject(_) => OwnerStep(s, step, js);
    case Destroy(_) => OwnerStep(s, step, js);
    case NewJoinSet(_) => NewJoinStep(s, step, js);
    case Record(k) => RecordStep(s, k, js);
    case Wait(other, waiter, kind) => WaitStep(s, other, waiter, kind, js);
    case _ => ElseStep(s, step, js);
  }

  lemma JoinStep(s: Sys, step: Step)
    requires JoinInv(s) && Enabled(s, step)
    ensures JoinInv(Next(s, step))
  {
    hide Next, Enabled, JoinAt;
    forall js: nat {
      JoinAtStep(s, step, js);
    }
  }

  // ---------- every run ----------

  lemma InvInit(maxThreads: nat)
    ensures Inv(Init(maxThreads))
  {
  }

  lemma InvStep(s: Sys, step: Step)
    requires Inv(s) && Enabled(s, step)
    ensures Inv(Next(s, step))
  {
    hide PoolInv, Ordered, Executing, Conserved, Numbered, JoinInv, Next;
    PoolStep(s, step);
    OrderedStep(s, step);
    ExecutingStep(s, step);
    ConservedStep(s, step);
    NumberedStep(s, step);
    JoinStep(s, step);
  }

  lemma {:induction false} InvRun(s: Sys, steps: seq<Step>)
    requires Inv(s) && IsRun(s, steps)
    ensures Inv(After(s, steps))
    decreases |steps|
  {
    hide Inv, Next, Enabled;
    if steps != [] {
      InvStep(s, steps[0]);
      InvRun(Next(s, steps[0]), steps[1..]);
    }
  }

  /** The states that some order of steps leads to. */
  ghost predicate Reachable(maxThreads: nat, s: Sys) {
    exists steps :: IsRun(Init(maxThreads), steps) && After(Init(maxThreads), steps) == s
  }

  lemma ReachableInv(maxThreads: nat, s: Sys)
    requires Reachable(maxThreads, s)
    ensures Inv(s)
  {
    hide Inv;
    InvInit(maxThreads);
    var steps :| IsRun(Init(maxThreads), steps) && After(Init(maxThreads), steps) == s;
    InvRun(Init(maxThreads), steps);
  }

  lemma {:induction false} MaxThreadsKept(s: Sys, steps: seq<Step>)
    requires IsRun(s, steps)
    ensures After(s, steps).pool.maxThreads == s.pool.maxThreads
    decreases |steps|
  {
    if steps != [] {
      MaxThreadsKept(Next(s, steps[0]), steps[1..]);
    }
  }

  /** What an awake worker does next. */
  function StepOf(s: Sys, k: nat): Step
    requires k < |s.pool.workers|
  {
    match s.pool.workers[k]
    case Idle => EnterWait(k)
    case Running(_) => Execute(k, false)
    case Failed(_) => Record(k)
    case Ending(_) => Destroy(k)
    case _ => WakeUp(k)
  }

  /** Nothing in the shared state ever holds up an awake worker. */
  lemma AwakeCanStep(s: Sys, k: nat)
    requires Inv(s) && k < |s.pool.workers| && Awake(s.pool.workers[k])
    ensures Enabled(s, StepOf(s, k))
  {
    var w := s.pool.workers[k];
    if w.Notified? {
      CountPositive(s.pool.workers, k, Asleep);
    } else if (w.Failed? || w.Ending?) && w.work.joinSet.Some? {
      var js := w.work.joinSet.value;
      CountPositive(s.pool.workers, k, Holder(js));
      assert Live(s, js) > 0 && JoinAt(s, js);
    }
  }

  /**
   * No lost wakeup and no stuck state: in every reachable state the sleeping counter is exact, the thread
   * bound holds, and if a task is pending then enough workers are notified and some worker can step.
   */
  lemma NoLostWakeup(maxThreads: nat, s: Sys)
    requires maxThreads > 0 && Reachable(maxThreads, s)
    ensures s.pool.sleeping == Count(s.pool.workers, Asleep)
    ensures |s.pool.workers| <= maxThreads
    ensures s.pool.pending != [] ==>
              && Count(s.pool.workers, IsNotified) >= Min(|s.pool.pending|, s.pool.sleeping)
              && exists k :: 0 <= k < |s.pool.workers| && Awake(s.pool.workers[k]) && Enabled(s, StepOf(s, k))
  {
    ReachableInv(maxThreads, s);
    var steps :| IsRun(Init(maxThreads), steps) && After(Init(maxThreads), steps) == s;
    MaxThreadsKept(Init(maxThreads), steps);
    if s.pool.pending != [] {
      PendingIsNoticed(s.pool);
      var k :| 0 <= k < |s.pool.workers| && Awake(s.pool.workers[k]);
      AwakeCanStep(s, k);
    }
  }

  // ---------- shutdown ----------

  predicate IsWorkerStep(step: Step) {
    step.EnterWait? || step.WakeUp? || step.Execute? || step.Record? || step.Destroy?
  }

  function WorkerSteps(steps: seq<Step>): nat {
    if steps == [] then 0 else (if IsWorkerStep(steps[0]) then 1 else 0) + WorkerSteps(steps[1..])
  }

  lemma StoppedStep(s: Sys, step: Step)
    requires s.pool.stop && Enabled(s, step)
    ensures var t := Next(s, step);
            && t.pool.stop && t.accepted == s.accepted
            && Remaining(t.pool) + (if IsWorkerStep(step) then 1 else 0) <= Remaining(s.pool)
  {
    hide Remaining;
    match step
    case EnterWait(k) =>
      var p := s.pool.(sleeping := s.pool.sleeping + 1);
      StoppedTestDecreases(p, k);
      RemainingSame(p, s.pool);
    case WakeUp(k) => StoppedTestDecreases(s.pool, k);
    case Execute(k, throws) =>
      var w := s.pool.workers[k].work;
      WorkerStepDecreases(s.pool, k, if throws then Failed(w) else Ending(w));
    case Record(k) => WorkerStepDecreases(s.pool, k, Ending(s.pool.workers[k].work));
    case Destroy(k) => WorkerStepDecreases(s.pool, k, Idle);
    case _ =>
  }

  lemma RemainingSame(p: Pool, q: Pool)
    requires p.pending == q.pending && p.workers == q.workers
    ensures Remaining(p) == Remaining(q)
  {
  }

  /** Once the stop flag is set no task is accepted, and the workers have only so many steps left. */
  lemma {:induction false} ShutdownIsFinite(s: Sys, steps: seq<Step>)
    requires s.pool.stop && IsRun(s, steps)
    ensures After(s, steps).pool.stop && After(s, steps).accepted == s.accepted
    ensures WorkerSteps(steps) + Remaining(After(s, steps).pool) <= Remaining(s.pool)
    decreases |steps|
  {
    hide Remaining, Next, Enabled;
    if steps != [] {
      StoppedStep(s, steps[0]);
      ShutdownIsFinite(Next(s, steps[0]), steps[1..]);
    }
  }

  /** And they never get stuck before the destructor can return. */
  lemma ShutdownNeverStuck(maxThreads: nat, s: Sys)
    requires Reachable(maxThreads, s) && s.pool.stop && !Joined(s.pool)
    ensures exists k :: 0 <= k < |s.pool.workers| && Enabled(s, StepOf(s, k)) && IsWorkerStep(StepOf(s, k))
  {
    ReachableInv(maxThreads, s);
    StoppedNeverStuck(s.pool);
    var k :| 0 <= k < |s.pool.workers| && Awake(s.pool.workers[k]);
    AwakeCanStep(s, k);
  }

  /** Every accepted task has been executed, and none of them twice. */
  ghost predicate AllExecutedOnce(s: Sys) {
    && multiset(s.finished) == multiset(s.accepted)
    && (forall i, j :: 0 <= i < j < |s.finished| ==> s.finished[i] != s.finished[j])
  }

  lemma JoinedExecutedAll(s: Sys)
    requires Inv(s) && Joined(s.pool) && s.pool.maxThreads > 0
    ensures AllExecutedOnce(s)
  {
    JoinedIsDrained(s.pool);
    NoneRunning(s.pool.workers);
    assert s.accepted == s.started;
    assert multiset(s.finished) == multiset(s.accepted);
    forall i, j | 0 <= i < j < |s.finished| ensures s.finished[i] != s.finished[j] {
      FinishedOnce(s, i, j);
    }
  }

  lemma FinishedOnce(s: Sys, i: nat, j: nat)
    requires Executing(s) && Ordered(s) && Conserved(s) && Numbered(s) && i < j < |s.finished|
    ensures s.finished[i] != s.finished[j]
  {
    var w := s.finished[i];
    if w == s.finished[j] {
      TwiceInMultiset(s.finished, i, j);
      assert multiset(s.created)[w] >= multiset(s.accepted)[w] >= multiset(s.started)[w] >= multiset(s.finished)[w] by {
        assert multiset(s.accepted) == multiset(s.started) + multiset(s.pool.pending);
      }
      CreatedOnce(s.created, w);
    }
  }

  lemma {:induction false} CreatedOnce(ws: seq<Work>, w: Work)
    requires forall i :: 0 <= i < |ws| ==> ws[i].id == i
    ensures multiset(ws)[w] <= 1
  {
    if ws != [] {
      var n := |ws| - 1;
      CreatedOnce(ws[..n], w);
      assert ws == ws[..n] + [ws[n]];
      if w == ws[n] {
        assert w !in ws[..n];
      }
    }
  }

  ghost predicate DestructorDrains(maxThreads: nat) {
    forall s :: Reachable(maxThreads, s) && Joined(s.pool) ==> AllExecutedOnce(s)
  }

  /**
   * The destructor returns only after every accepted task was executed exactly once, over all runs,
   * exactly when the pool may have a thread at all. (`hardware_concurrency` may report none.)
   */
  lemma DrainsExactlyWithThreads(maxThreads: nat)
    ensures DestructorDrains(maxThreads) <==> maxThreads > 0
  {
    if maxThreads > 0 {
      forall s | Reachable(maxThreads, s) && Joined(s.pool) ensures AllExecutedOnce(s) {
        ReachableInv(maxThreads, s);
        var steps :| IsRun(Init(maxThreads), steps) && After(Init(maxThreads), steps) == s;
        MaxThreadsKept(Init(maxThreads), steps);
        JoinedExecutedAll(s);
      }
    } else {
      var lost := NoThreadNoTask();
      assert !AllExecutedOnce(lost) by {
        assert |multiset(lost.finished)| == 0 && |multiset(lost.accepted)| == 1;
      }
    }
  }

  /** Without threads a task is accepted, never executed, and dropped by the destructor. */
  lemma NoThreadNoTask() returns (s: Sys)
    ensures Reachable(0, s) && Joined(s.pool) && |s.accepted| == 1 && s.finished == []
  {
    var s0 := Init(0);
    var s1 := Next(s0, Create(None));
    var s2 := Next(s1, Enqueue(0, None));
    s := Next(s2, Stop);
    var steps := [Create(None), Enqueue(0, None), Stop];
    assert steps[1..] == [Enqueue(0, None), Stop] && steps[1..][1..] == [Stop] && steps[1..][1..][1..] == [];
    assert IsRun(s2, [Stop]) && After(s2, [Stop]) == s;
    assert IsRun(s1, steps[1..]) && After(s1, steps[1..]) == s;
    assert IsRun(s0, steps) && After(s0, steps) == s;
  }

  /** Nothing has ever run. */
  ghost predicate Idling(s: Sys) {
    && s.pool.maxThreads == 0 && s.pool.workers == [] && s.started == []
    && forall js :: js in s.unreported ==> s.unreported[js] == []
  }

  lemma IdlingStep(s: Sys, step: Step)
    requires Idling(s) && Enabled(s, step)
    ensures Idling(Next(s, step))
  {
    hide Without, OnJoin, Released, Known, Waited;
  }

  lemma {:induction false} IdlingRun(s: Sys, steps: seq<Step>)
    requires Idling(s) && IsRun(s, steps)
    ensures Idling(After(s, steps))
    decreases |steps|
  {
    hide Idling, Next, Enabled;
    if steps != [] {
      IdlingStep(s, steps[0]);
      IdlingRun(Next(s, steps[0]), steps[1..]);
    }
  }

  /** Without threads a wait on a join set does not come back, by return or by exception, once a task was spawned onto it. */
  lemma NoThreadNoReturn(s: Sys, w: Work, js: nat, waiter: nat, kind: WaitKind)
    requires Reachable(0, s) && w in s.accepted && w.joinSet == Some(js)
    ensures js in s.joins && Waited(s.joins[js], waiter, kind).1.None?
  {
    ReachableInv(0, s);
    var steps :| IsRun(Init(0), steps) && After(Init(0), steps) == s;
    IdlingRun(Init(0), steps);
    assert JoinAt(s, js) && w in s.pool.pending;
    OwnedNone(s.pool.pending, js);
    hide Owned, Count;
  }

  // ---------- two tasks, one thread ----------

  lemma {:induction false} RunSnoc(s: Sys, steps: seq<Step>, step: Step)
    requires IsRun(s, steps) && Enabled(After(s, steps), step)
    ensures IsRun(s, steps + [step]) && After(s, steps + [step]) == Next(After(s, steps), step)
    decreases |steps|
  {
    hide Enabled, Next;
    if steps == [] {
      assert steps + [step] == [step] && [step][1..] == [];
      assert IsRun(Next(s, step), []) && After(Next(s, step), []) == Next(s, step);
    } else {
      RunSnoc(Next(s, steps[0]), steps[1..], step);
      assert (steps + [step])[1..] == steps[1..] + [step];
    }
  }

  lemma ReachableNext(maxThreads: nat, s: Sys, step: Step)
    requires Reachable(maxThreads, s) && Enabled(s, step)
    ensures Reachable(maxThreads, Next(s, step))
  {
    hide Enabled, Next;
    var steps :| IsRun(Init(maxThreads), steps) && After(Init(maxThreads), steps) == s;
    RunSnoc(Init(maxThreads), steps, step);
    assert After(Init(maxThreads), steps + [step]) == Next(s, step);
  }

  /** From the empty pool: the first task gets the first thread. */
  lemma OneTaskStarts(maxThreads: nat) returns (s: Sys)
    requires maxThreads > 0
    ensures Reachable(maxThreads, s) && s.pool == Pool(maxThreads, 0, [Running(Work(0, None))], [], false)
    ensures s.temps == [] && |s.created| == 1
  {
    hide Reachable;
    s := Init(maxThreads);
    InitIsReachable(maxThreads);
    var w := Work(0, None);
    ReachableNext(maxThreads, s, Create(None));
    s := Next(s, Create(None));
    assert s.temps == [w];
    ReachableNext(maxThreads, s, Enqueue(0, None));
    s := Next(s, Enqueue(0, None));
    assert s.pool == Pool(maxThreads, 0, [Idle], [w], false) && s.temps == [];
    ReachableNext(maxThreads, s, EnterWait(0));
    s := Next(s, EnterWait(0));
  }

  /** It comes to its end, and the thread sleeps. */
  lemma OneThreadSleeps(maxThreads: nat) returns (s: Sys)
    requires maxThreads > 0
    ensures Reachable(maxThreads, s) && s.pool == Pool(maxThreads, 1, [Blocked], [], false)
    ensures s.temps == [] && |s.created| == 1
  {
    hide Reachable;
    var w := Work(0, None);
    s := OneTaskStarts(maxThreads);
    ReachableNext(maxThreads, s, Execute(0, false));
    s := Next(s, Execute(0, false));
    assert s.pool == Pool(maxThreads, 0, [Ending(w)], [], false);
    ReachableNext(maxThreads, s, Destroy(0));
    s := Next(s, Destroy(0));
    assert s.pool == Pool(maxThreads, 0, [Idle], [], false);
    ReachableNext(maxThreads, s, EnterWait(0));
    s := Next(s, EnterWait(0));
  }

  lemma InitIsReachable(maxThreads: nat)
    ensures Reachable(maxThreads, Init(maxThreads))
  {
    assert IsRun(Init(maxThreads), []) && After(Init(maxThreads), []) == Init(maxThreads);
  }

  /** A task is made and spawned while the only thread is asleep, or notified but not yet awake. */
  lemma SpawnOntoSleeper(maxThreads: nat, s: Sys, x: Worker, pending: seq<Work>) returns (t: Sys)
    requires Reachable(maxThreads, s) && s.temps == [] && (x.Blocked? || x.Notified?)
    requires s.pool == Pool(maxThreads, 1, [x], pending, false)
    ensures Reachable(maxThreads, t) && t.temps == [] && |t.created| == |s.created| + 1
    ensures t.pool == Pool(maxThreads, 1, [Notified], pending + [Work(|s.created|, None)], false)
  {
    hide Reachable;
    var w := Work(|s.created|, None);
    ReachableNext(maxThreads, s, Create(None));
    var u := Next(s, Create(None));
    assert u.temps == [w] && u.pool == s.pool;
    var wake := if x.Blocked? then Some(0) else None;
    ReachableNext(maxThreads, u, Enqueue(0, wake));
    t := Next(u, Enqueue(0, wake));
    assert [x][0 := Notified] == [Notified];
  }

  /** The pool does get there: two tasks pending for one notified thread, though a second thread is allowed. */
  lemma TwoTasksOneThreadHappens() returns (s: Sys, a: Work, b: Work)
    ensures Reachable(2, s) && s.pool == Pool(2, 1, [Notified], [a, b], false) && !Provisioned(s.pool)
  {
    hide Reachable;
    a, b := Work(1, None), Work(2, None);
    s := OneThreadSleeps(2);
    s := SpawnOntoSleeper(2, s, Blocked, []);
    s := SpawnOntoSleeper(2, s, Notified, [a]);
    TwoTasksOneThread(a, b);
    hide Provisioned;
  }

  // ---------- the barrier ----------

  /** No task of join set `js` is left: made, enqueued, running or about to be destroyed. */
  ghost predicate Quiet(s: Sys, js: nat) {
    && (forall w :: w in s.temps || w in s.pool.pending ==> w.joinSet != Some(js))
    && (forall k :: 0 <= k < |s.pool.workers| ==> !Holds(s.pool.workers[k], js))
  }

  lemma QuietIsDead(s: Sys, js: nat)
    ensures Live(s, js) == 0 <==> Quiet(s, js)
  {
    OwnedNone(s.temps, js);
    OwnedNone(s.pool.pending, js);
    if Count(s.pool.workers, Holder(js)) > 0 {
      var k := CountWitness(s.pool.workers, Holder(js));
      assert Holds(s.pool.workers[k], js);
    } else {
      forall k | 0 <= k < |s.pool.workers| ensures !Holds(s.pool.workers[k], js) {
        if Holds(s.pool.workers[k], js) {
          CountPositive(s.pool.workers, k, Holder(js));
        }
      }
    }
  }

  lemma NoneHeldNoneRunning(ws: seq<Worker>, w: Work, js: nat)
    requires w.joinSet == Some(js) && forall k :: 0 <= k < |ws| ==> !Holds(ws[k], js)
    ensures w !in RunningWorks(ws)
  {
    assert !(Running(w) in ws) by {
      assert Holds(Running(w), js);
    }
    if w in RunningWorks(ws) {
      RunningIsHeld(ws, w);
      assert false;
    }
  }

  /**
   * The barrier: a wait that returns normally has seen every task made for the join set so far come to
   * its end (or be refused), and no error is left unreported.
   */
  lemma WaitIsABarrier(maxThreads: nat, s: Sys, js: nat, waiter: nat, kind: WaitKind)
    requires Reachable(maxThreads, s) && Enabled(s, Wait(js, waiter, kind))
    requires Waited(s.joins[js], waiter, kind).1 == Some(Returned)
    ensures Quiet(s, js)
    ensures forall w :: w in s.created && w.joinSet == Some(js) ==> w in s.finished || w in s.rejected
    ensures kind.ForTasks? ==> s.unreported[js] == []
  {
    ReachableInv(maxThreads, s);
    QuietIsDead(s, js);
    assert JoinAt(s, js);
    forall w | w in s.created && w.joinSet == Some(js) ensures w in s.finished || w in s.rejected {
      assert w in multiset(s.created);
      if w !in s.rejected {
        assert w in multiset(s.temps) + multiset(s.accepted);
        assert w in multiset(s.started);
        NoneHeldNoneRunning(s.pool.workers, w, js);
      }
    }
  }

  /** A wait throws exactly when an error is unreported; it throws the oldest one and forgets the later ones. */
  lemma WaitThrowsExactly(maxThreads: nat, s: Sys, js: nat, waiter: nat)
    requires Reachable(maxThreads, s) && Enabled(s, Wait(js, waiter, ForTasks))
    ensures var outcome := Waited(s.joins[js], waiter, ForTasks).1;
            && (s.unreported[js] != [] <==> outcome.Some? && outcome.value.Rethrown?)
            && (s.unreported[js] != [] ==> outcome == Some(Rethrown(s.unreported[js][0])))
            && Next(s, Wait(js, waiter, ForTasks)).unreported[js] == []
  {
    ReachableInv(maxThreads, s);
    assert JoinAt(s, js);
  }

  /** A thread left asleep on a join set has nothing to wake up for. */
  lemma NoWaiterForgotten(maxThreads: nat, s: Sys, js: nat, waiter: nat)
    requires Reachable(maxThreads, s) && js in s.joins && waiter in s.joins[js].waiters
    requires !s.joins[js].waiters[waiter].notified
    ensures !Quiet(s, js)
    ensures s.joins[js].waiters[waiter].kind.ForTasks? ==> js in s.unreported && s.unreported[js] == []
  {
    ReachableInv(maxThreads, s);
    QuietIsDead(s, js);
    assert JoinAt(s, js);
  }

  /**
   * A pass of Wait leaves its thread asleep exactly when a task of the join set is not over and there is no error for it to
   * throw; nobody else goes to sleep or wakes up by it.
   */
  lemma WaitSleepsExactly(maxThreads: nat, s: Sys, js: nat, waiter: nat, kind: WaitKind)
    requires Reachable(maxThreads, s) && Enabled(s, Wait(js, waiter, kind))
    ensures js in Next(s, Wait(js, waiter, kind)).joins
    ensures var before, after := s.joins[js].waiters, Next(s, Wait(js, waiter, kind)).joins[js].waiters;
            && (waiter in after <==> !Quiet(s, js) && (kind.ForTasks? ==> s.unreported[js] == []))
            && (waiter in after ==> after[waiter] == Waiter(kind, false))
            && (forall w :: w != waiter ==> (w in after <==> w in before) && (w in before ==> after[w] == before[w]))
  {
    ReachableInv(maxThreads, s);
    QuietIsDead(s, js);
    assert JoinAt(s, js);
    hide Reachable, PoolInv, FlowInv, Quiet;
  }

  /** After the barrier the join set stays quiet until somebody makes a task for it. */
  lemma {:induction false} StaysQuiet(s: Sys, steps: seq<Step>, js: nat)
    requires IsRun(s, steps) && Quiet(s, js) && Create(Some(js)) !in steps
    ensures Quiet(After(s, steps), js)
    decreases |steps|
  {
    hide Quiet, Next, Enabled;
    if steps != [] {
      QuietIsDead(s, js);
      QuietIsDead(Next(s, steps[0]), js);
      QuietStep(s, steps[0], js);
      StaysQuiet(Next(s, steps[0]), steps[1..], js);
    }
  }

  lemma QuietStep(s: Sys, step: Step, js: nat)
    requires Enabled(s, step) && Live(s, js) == 0 && step != Create(Some(js))
    ensures Live(Next(s, step), js) == 0
  {
    hide Live, Next;
    LiveStep(s, step, js);
  }
}
