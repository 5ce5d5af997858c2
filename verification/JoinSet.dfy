/**
 * Join sets and the task objects that report to them: the count of unfinished tasks, the first error,
 * and the threads that wait for either. Task objects are moved, never copied.
 */
module JoinSets {
  import opened Prelude

  /** A thread in Wait stops at an error too; a destructor waits for the tasks alone. */
  datatype WaitKind = ForTasks | ForDestruction

  datatype Waiter = Waiter(kind: WaitKind, notified: bool)

  /** How a call returns: normally, or by throwing the error of some task. */
  datatype Outcome = Returned | Rethrown(work: nat)

  /** The state that the mutex of a join set protects. */
  datatype Join = Join(count: nat, exception: Option<nat>, waiters: map<nat, Waiter>)

  function EmptyJoin(): Join {
    Join(0, None, map[])
  }

  /** The predicate a waiter is waiting for. */
  predicate Ready(j: Join, kind: WaitKind) {
    j.count == 0 || (kind.ForTasks? && j.exception.Some?)
  }

  function WakeAll(j: Join): Join {
    j.(waiters := map w | w in j.waiters :: j.waiters[w].(notified := true))
  }

  /** The constructor of a task. */
  function Incremented(j: Join): Join {
    j.(count := j.count + 1)
  }

  /** The destructor of a task that still owns the join set. */
  function Decremented(j: Join): Join
    requires j.count > 0
  {
    var less := j.(count := j.count - 1);
    if less.count == 0 then WakeAll(less) else less
  }

  /** Only the first error is kept, until it is rethrown. */
  function ErrorRecorded(j: Join, work: nat): Join {
    if j.exception.None? then WakeAll(j.(exception := Some(work))) else j
  }

  /** A waiter with the lock tests its predicate; it leaves, or waits (again) to be notified. */
  function Waited(j: Join, waiter: nat, kind: WaitKind): (r: (Join, Option<Outcome>)) {
    if !Ready(j, kind) then (j.(waiters := j.waiters[waiter := Waiter(kind, false)]), None)
    else
      var left := j.(waiters := j.waiters - {waiter});
      if kind.ForTasks? && j.exception.Some? then (left.(exception := None), Some(Rethrown(j.exception.value)))
      else (left, Some(Returned))
  }

  class JoinSet {
    var taskCount: nat
    var exception: Option<nat>
    var waiters: map<nat, Waiter>

    function View(): Join
      reads this
    {
      Join(taskCount, exception, waiters)
    }

    constructor ()
      ensures View() == EmptyJoin()
    {
      taskCount, exception, waiters := 0, None, map[];
    }

    method NotifyAll()
      modifies this`waiters
      ensures View() == WakeAll(old(View()))
    {
      waiters := map w | w in waiters :: waiters[w].(notified := true);
    }

    method RecordError(work: nat)
      modifies this
      ensures View() == ErrorRecorded(old(View()), work)
      ensures taskCount == old(taskCount) && waiters.Keys == old(waiters).Keys
      ensures exception == if old(exception).Some? then old(exception) else Some(work)
      ensures old(exception).None? ==> forall w :: w in waiters ==> waiters[w] == old(waiters)[w].(notified := true)
    {
      if exception.None? {
        exception := Some(work);
        NotifyAll();
      }
    }

    /** One pass of Wait (or of the destructor) with the lock held; None means that it goes to sleep. */
    method Wait(waiter: nat, kind: WaitKind) returns (outcome: Option<Outcome>)
      modifies this
      ensures (View(), outcome) == Waited(old(View()), waiter, kind)
      ensures outcome.None? <==> taskCount > 0 && !(kind.ForTasks? && old(exception).Some?)
      ensures outcome.Some? && outcome.value.Rethrown? <==> kind.ForTasks? && old(exception).Some?
      ensures waiters == if outcome.None? then old(waiters)[waiter := Waiter(kind, false)] else old(waiters) - {waiter}
    {
      if taskCount > 0 && !(kind.ForTasks? && exception.Some?) {
        waiters := waiters[waiter := Waiter(kind, false)];
        return None;
      }
      waiters := waiters - {waiter};
      outcome := Some(Returned);
      if kind.ForTasks? && exception.Some? {
        outcome := Some(Rethrown(exception.value));
        exception := None;
      }
    }
  }

  /** A task object: the function, and the join set to report to when the object is destroyed. */
  class Task {
    var func: Option<nat>
    var joinSet: JoinSet?

    constructor Empty()
      ensures func.None? && joinSet == null
    {
      func, joinSet := None, null;
    }

    constructor (f: nat, joinSet: JoinSet?)
      modifies joinSet
      ensures func == Some(f) && this.joinSet == joinSet
      ensures joinSet != null ==> joinSet.View() == Incremented(old(joinSet.View()))
    {
      func, this.joinSet := Some(f), joinSet;
      new;
      if joinSet != null {
        joinSet.taskCount := joinSet.taskCount + 1;
      }
    }

    constructor Move(other: Task)
      modifies other
      ensures func == old(other.func) && joinSet == old(other.joinSet)
      ensures other.func.None? && other.joinSet == null
    {
      func, joinSet := other.func, other.joinSet;
      new;
      other.func, other.joinSet := None, null;
    }

    method MoveAssign(other: Task)
      modifies this, other
      ensures this == other ==> func == old(func) && joinSet == old(joinSet)
      ensures this != other ==> func == old(other.func) && joinSet == old(other.joinSet)
      ensures this != other ==> other.func.None? && other.joinSet == null
    {
      if this != other {
        func, joinSet := other.func, other.joinSet;
        other.func, other.joinSet := None, null;
      }
    }

    /** The destructor. */
    method Destroy()
      requires joinSet != null ==> joinSet.taskCount > 0
      modifies joinSet
      ensures joinSet != null ==> joinSet.View() == Decremented(old(joinSet.View()))
      ensures joinSet != null ==>
                && joinSet.taskCount == old(joinSet.taskCount) - 1 && joinSet.exception == old(joinSet.exception)
                && joinSet.waiters.Keys == old(joinSet.waiters).Keys
                && forall w :: w in joinSet.waiters ==>
                     joinSet.waiters[w] == old(joinSet.waiters)[w].(notified := joinSet.waiters[w].notified)
                     && (joinSet.waiters[w].notified <==> old(joinSet.waiters)[w].notified || joinSet.taskCount == 0)
    {
      if joinSet != null {
        joinSet.taskCount := joinSet.taskCount - 1;
        if joinSet.taskCount == 0 {
          joinSet.NotifyAll();
        }
      }
    }
  }

  /**
   * One turn of a worker: the front of the queue is moved into a local task, popped, executed and
   * destroyed. The join set is told once, whatever number of task objects took part.
   */
  method TakeAndRun(front: Task, throws: bool) returns (executed: Option<nat>)
    requires front.joinSet != null ==> front.joinSet.taskCount > 0
    modifies front, front.joinSet
    ensures executed == old(front.func) && front.joinSet == null
    ensures old(front.joinSet) != null ==>
              var j := old(front.joinSet.View());
              var recorded := if throws && executed.Some? then ErrorRecorded(j, executed.value) else j;
              old(front.joinSet).View() == Decremented(recorded)
  {
    var task := new Task.Empty();
    task.MoveAssign(front);
    front.Destroy();
    executed := task.func;
    if throws && executed.Some? && task.joinSet != null {
      task.joinSet.RecordError(executed.value);
    }
    task.Destroy();
  }

  // ---------- who owns a join set ----------

  /** The number of task objects in `cells` that would report to join set `js`. */
  function Owners(cells: seq<Option<nat>>, js: nat): nat {
    if cells == [] then 0
    else Owners(cells[..|cells| - 1], js) + (if cells[|cells| - 1] == Some(js) then 1 else 0)
  }

  /** The join-set pointers of all task objects after object `to` is move-assigned from object `from`. */
  function MoveAssigned(cells: seq<Option<nat>>, to: nat, from: nat): seq<Option<nat>>
    requires to < |cells| && from < |cells|
  {
    if to == from then cells else cells[to := cells[from]][from := None]
  }

  lemma {:induction false} OwnersUpdate(cells: seq<Option<nat>>, k: nat, cell: Option<nat>, js: nat)
    requires k < |cells|
    ensures Owners(cells[k := cell], js)
         == Owners(cells, js) - (if cells[k] == Some(js) then 1 else 0) + (if cell == Some(js) then 1 else 0)
  {
    var n := |cells| - 1;
    if k == n {
      assert cells[k := cell][..n] == cells[..n];
    } else {
      OwnersUpdate(cells[..n], k, cell, js);
      assert cells[k := cell][..n] == cells[..n][k := cell];
    }
  }

  /**
   * Move assignment drops the pointer of its target without telling the join set. No owner is lost
   * exactly when the target owned nothing, or the object is assigned to itself.
   */
  lemma MoveAssignKeepsOwners(cells: seq<Option<nat>>, to: nat, from: nat)
    requires to < |cells| && from < |cells|
    ensures (forall js: nat :: Owners(MoveAssigned(cells, to, from), js) == Owners(cells, js))
       <==> (cells[to].None? || to == from)
  {
    if to != from {
      forall js: nat ensures Owners(MoveAssigned(cells, to, from), js)
                     == Owners(cells, js) - (if cells[to] == Some(js) then 1 else 0) {
        OwnersUpdate(cells, to, cells[from], js);
        OwnersUpdate(cells[to := cells[from]], from, None, js);
      }
      if cells[to].Some? {
        var js := cells[to].value;
        assert Owners(MoveAssigned(cells, to, from), js) != Owners(cells, js);
      }
    }
  }
}
