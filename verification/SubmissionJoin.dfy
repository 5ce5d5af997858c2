/** What the join set of a submission knows, and when it lets the client thread pass. */
module SubmissionJoin {
  import opened Prelude
  import opened Batching
  import opened JoinSets
  import opened Submission

  /** The jobs whose task object is still there. */
  function Unfinished(jobs: seq<Job>): nat {
    if jobs == [] then 0 else Unfinished(jobs[..|jobs| - 1]) + (if jobs[|jobs| - 1].Over? then 0 else 1)
  }

  lemma UnfinishedSnoc(jobs: seq<Job>, j: Job)
    ensures Unfinished(jobs + [j]) == Unfinished(jobs) + (if j.Over? then 0 else 1)
  {
    assert (jobs + [j])[..|jobs|] == jobs;
  }

  lemma {:induction false} UnfinishedUpdate(jobs: seq<Job>, k: nat, j: Job)
    requires k < |jobs|
    ensures Unfinished(jobs[k := j]) + (if jobs[k].Over? then 0 else 1) == Unfinished(jobs) + (if j.Over? then 0 else 1)
  {
    var n := |jobs| - 1;
    if k == n {
      assert jobs[k := j][..n] == jobs[..n];
    } else {
      UnfinishedUpdate(jobs[..n], k, j);
      assert jobs[k := j][..n] == jobs[..n][k := j];
    }
  }

  /** The count is zero exactly when every task object is gone. */
  lemma {:induction false} UnfinishedNone(jobs: seq<Job>)
    ensures Unfinished(jobs) == 0 <==> forall j :: j in jobs ==> j.Over?
  {
    if jobs != [] {
      var front, last := jobs[..|jobs| - 1], jobs[|jobs| - 1];
      UnfinishedNone(front);
      assert jobs == front + [last];
      assert last in jobs;
    }
  }

  /** What the client thread waits for in each phase. */
  function KindOf(phase: Phase): WaitKind {
    if phase.Unwinding? then ForDestruction else ForTasks
  }

  /** A sleeping client that nobody has notified has nothing to wake up for. */
  ghost predicate WaitersOk(s: State) {
    forall w :: w in s.join.waiters ==>
      && w == CLIENT && !HasEnded(s) && s.join.waiters[w].kind == KindOf(s.phase)
      && (!s.join.waiters[w].notified ==> !Ready(s.join, s.join.waiters[w].kind))
  }

  ghost predicate NoneOver(jobs: seq<Job>) {
    forall k :: 0 <= k < |jobs| ==> !jobs[k].Over?
  }

  lemma {:induction false} PlannedJobs(log: seq<Emission>, batches: seq<seq<nat>>)
    ensures NoneOver(CreationJobs(log)) && NoneOver(TaskJobs(batches))
    decreases |log| + |batches|
  {
    if log != [] {
      PlannedJobs(log[..|log| - 1], batches);
    } else if batches != [] {
      PlannedJobs(log, batches[..|batches| - 1]);
    }
  }

  ghost predicate JoinInv(s: State) {
    && s.join.count == Unfinished(s.live)
    && (Active(s) ==> (s.join.exception.Some? <==> s.failed))
    && (s.phase.Unwinding? || s.phase.Aborted? ==> s.failed)
    && (s.phase.Completed? ==> !s.failed)
    && (!Active(s) ==> s.unspawned == []) && NoneOver(s.unspawned)
    && (HasEnded(s) ==> s.join.count == 0)
    && WaitersOk(s)
  }

  /**
   * Wait returns exactly when all task objects are gone and no function threw; it throws exactly when one of them
   * did, gone or not.
   */
  lemma WaitPassesExactly(s: State)
    requires JoinInv(s) && Active(s)
    ensures var outcome := Waited(s.join, CLIENT, ForTasks).1;
            && (outcome == Some(Outcome.Returned) <==> !s.failed && forall j :: j in s.live ==> j.Over?)
            && (outcome.Some? && outcome.value.Rethrown? <==> s.failed)
  {
    UnfinishedNone(s.live);
  }

  /** The destructor of the join set returns exactly when all task objects are gone. */
  lemma UnwindPassesExactly(s: State)
    requires JoinInv(s)
    ensures Waited(s.join, CLIENT, ForDestruction).1.Some? <==> forall j :: j in s.live ==> j.Over?
  {
    UnfinishedNone(s.live);
  }

  lemma UpdateStep(s: State, k: nat, j: Job, t: State)
    requires JoinInv(s) && k < |s.live| && !s.live[k].Over? && !j.Over?
    requires t.live == s.live[k := j] && t.join == s.join && t.phase == s.phase
    requires t.unspawned == s.unspawned && t.failed == s.failed
    ensures JoinInv(t)
  {
    UnfinishedUpdate(s.live, k, j);
  }

  lemma StoreKeepsJoin(s: State, k: nat)
    requires JoinInv(s) && Enabled(s, Store(k))
    ensures JoinInv(Next(s, Store(k)))
  {
    hide Unfinished;
    var job := s.live[k];
    var slot := job.slots[0];
    var less := Write(job.slots[1..], job.reply[SlotName(slot) := ""], job.inlined);
    UnfinishedUpdate(s.live, k, less);
    UnfinishedSnoc(s.live[k := less], Upload(slot.i));
    assert s.live[k] in s.live;
    UnfinishedNone(s.live);
  }

  lemma SpawnKeepsJoin(s: State)
    requires JoinInv(s) && Enabled(s, Spawn)
    ensures JoinInv(Next(s, Spawn))
  {
    UnfinishedSnoc(s.live, s.unspawned[0]);
    hide Unfinished;
  }

  lemma FailKeepsJoin(s: State, k: nat)
    requires JoinInv(s) && Enabled(s, Fail(k))
    ensures JoinInv(Next(s, Fail(k)))
  {
    UnfinishedUpdate(s.live, k, Ended);
    UnfinishedNone(s.live);
    assert s.live[k] in s.live;
    hide Unfinished;
  }

  lemma EndKeepsJoin(s: State, k: nat)
    requires JoinInv(s) && Enabled(s, End(k))
    ensures JoinInv(Next(s, End(k)))
  {
    UnfinishedUpdate(s.live, k, Over);
    hide Unfinished;
  }

  lemma ClientKeepsJoin(s: State, step: Step)
    requires JoinInv(s) && Enabled(s, step) && (step.Wait? || step.Unwind?)
    ensures JoinInv(Next(s, step))
  {
    if step.Wait? {
      PlannedJobs([], step.batches);
    }
    hide Unfinished, TaskJobs;
  }

  /** The functions get on, without a change of the join set. */
  lemma UpdatesKeepJoin(s: State, step: Step)
    requires JoinInv(s) && Enabled(s, step)
    requires step.Answer? || step.Uploaded? || step.AnswerTasks? || step.StoreTask?
    ensures JoinInv(Next(s, step))
  {
    hide JoinInv, Answers, Receives, AcceptsTasks;
    match step
    case Answer(k, reply, _) => UpdateStep(s, k, Write(s.live[k].batch, reply, s.live[k].inlined), Next(s, step));
    case Uploaded(k, _) => UpdateStep(s, k, Ended, Next(s, step));
    case AnswerTasks(k, ids, _) => UpdateStep(s, k, WriteTasks(s.live[k].indices, ids), Next(s, step));
    case StoreTask(k) =>
      UpdateStep(s, k, WriteTasks(s.live[k].targets[1..], s.live[k].ids[1..]), Next(s, step));
  }

  lemma JoinStep(s: State, step: Step)
    requires JoinInv(s) && Enabled(s, step)
    ensures JoinInv(Next(s, step))
  {
    match step
    case Spawn => SpawnKeepsJoin(s);
    case Fail(k) => FailKeepsJoin(s, k);
    case Store(k) => StoreKeepsJoin(s, k);
    case End(k) => EndKeepsJoin(s, k);
    case Wait(_) => ClientKeepsJoin(s, step);
    case Unwind => ClientKeepsJoin(s, step);
    case Others(_) =>
      hide Unfinished, Keeps;
    case _ =>
      UpdatesKeepJoin(s, step);
      hide JoinInv, Next;
  }

  lemma JoinStart(request: Request, server: Server, chunkMax: nat, limit: nat)
    ensures JoinInv(Start(request, server, chunkMax, limit))
  {
    PlannedJobs(PlanLog(Config(Sizes(request.payloads), chunkMax, limit, request.withOutputs)), []);
    hide CreationJobs, PlanLog;
  }
}
