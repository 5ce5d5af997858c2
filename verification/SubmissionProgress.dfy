/**
 * A submission gets stuck in no schedule, no schedule is endless, and whatever has happened so far, it can still end
 * without a further failure: it completes if nothing has failed.
 */
module SubmissionProgress {
  import opened Prelude
  import opened Batching
  import opened JoinSets
  import opened Submission
  import opened SubmissionJoin
  import opened SubmissionProofs

  /** The steps that a job has left, at most. */
  function Weight(j: Job): nat {
    match j
    case Create(batch, _) => 2 + 3 * |batch|
    case Write(slots, _, _) => 1 + 3 * |slots|
    case Upload(_) => 2
    case SubmitTasks(indices) => 2 + |indices|
    case WriteTasks(targets, _) => 1 + |targets|
    case Ended => 1
    case Over => 0
  }

  function Weights(jobs: seq<Job>): nat {
    if jobs == [] then 0 else Weights(jobs[..|jobs| - 1]) + Weight(jobs[|jobs| - 1])
  }

  function StepsLeft(s: State): nat {
    Weights(s.unspawned) + |s.unspawned| + Weights(s.live)
  }

  function PhasesLeft(s: State): nat {
    match s.phase
    case Creating => 3
    case Submitting => 2
    case Unwinding => 1
    case _ => 0
  }

  lemma {:induction false} WeightsUpdate(jobs: seq<Job>, k: nat, j: Job)
    requires k < |jobs|
    ensures Weights(jobs[k := j]) + Weight(jobs[k]) == Weights(jobs) + Weight(j)
  {
    hide Weight;
    var n := |jobs| - 1;
    if k == n {
      assert jobs[k := j][..n] == jobs[..n];
    } else {
      WeightsUpdate(jobs[..n], k, j);
      assert jobs[k := j][..n] == jobs[..n][k := j];
    }
  }

  lemma WeightsSnoc(jobs: seq<Job>, j: Job)
    ensures Weights(jobs + [j]) == Weights(jobs) + Weight(j)
  {
    assert (jobs + [j])[..|jobs|] == jobs;
  }

  lemma {:induction false} WeightsCons(jobs: seq<Job>)
    requires jobs != []
    ensures Weights(jobs) == Weight(jobs[0]) + Weights(jobs[1..])
  {
    hide Weight;
    if |jobs| > 1 {
      var n := |jobs| - 1;
      WeightsCons(jobs[..n]);
      assert jobs[..n][1..] == jobs[1..][..n - 1];
    }
  }

  /** The client thread looks for what it waits for, and does not find it. */
  predicate SleepsOn(s: State, step: Step) {
    (step.Wait? && !Ready(s.join, ForTasks)) || (step.Unwind? && !Ready(s.join, ForDestruction))
  }

  /**
   * Every step of the submission leaves fewer phases, or as many phases and fewer steps, unless it sends the client
   * thread (back) to sleep.
   */
  lemma StepsRunOut(s: State, step: Step)
    requires Enabled(s, step) && !step.Others? && !SleepsOn(s, step)
    ensures var t := Next(s, step);
            PhasesLeft(t) < PhasesLeft(s) || (PhasesLeft(t) == PhasesLeft(s) && StepsLeft(t) < StepsLeft(s))
  {
    hide Weights, Answers, Receives, Keeps, TaskJobs;
    match step
    case Spawn =>
      WeightsCons(s.unspawned);
      WeightsSnoc(s.live, s.unspawned[0]);
    case Fail(k) => WeightsUpdate(s.live, k, Ended);
    case Answer(k, reply, _) => WeightsUpdate(s.live, k, Write(s.live[k].batch, reply, s.live[k].inlined));
    case Store(k) => StoreRunsOut(s, k);
    case Uploaded(k, _) => WeightsUpdate(s.live, k, Ended);
    case AnswerTasks(k, ids, _) => WeightsUpdate(s.live, k, WriteTasks(s.live[k].indices, ids));
    case StoreTask(k) => WeightsUpdate(s.live, k, WriteTasks(s.live[k].targets[1..], s.live[k].ids[1..]));
    case End(k) => WeightsUpdate(s.live, k, Over);
    case Wait(_) =>
    case Unwind =>
  }

  lemma StoreRunsOut(s: State, k: nat)
    requires Enabled(s, Store(k))
    ensures StepsLeft(Stored(s, k)) < StepsLeft(s) && Stored(s, k).phase == s.phase
  {
    hide Weights;
    var job := s.live[k];
    var slot := job.slots[0];
    var left := Write(job.slots[1..], job.reply[SlotName(slot) := ""], job.inlined);
    WeightsUpdate(s.live, k, left);
    if slot.In? && !job.inlined {
      WeightsSnoc(s.live[k := left], Upload(slot.i));
    }
  }

  // ---------- ids that are free ----------

  lemma LongerThanAll(ids: set<Id>) returns (n: nat)
    ensures n > 0 && forall id :: id in ids ==> |id| < n
  {
    if ids == {} {
      n := 1;
    } else {
      var id :| id in ids;
      var m := LongerThanAll(ids - {id});
      n := if |id| < m then m else |id| + 1;
    }
  }

  /** A server that makes ids longer than all there are: this is the id for `suffix`. */
  function Free(n: nat, suffix: string): Id {
    seq(n, _ => 'x') + suffix
  }

  lemma FreePrefix(ids: set<Id>) returns (n: nat)
    ensures forall suffix :: Free(n, suffix) !in ids && Free(n, suffix) != ""
  {
    n := LongerThanAll(ids);
  }

  lemma FreeIsInjective(n: nat, a: string, b: string)
    requires Free(n, a) == Free(n, b)
    ensures a == b
  {
    assert Free(n, a)[n..] == a && Free(n, b)[n..] == b;
  }

  // ---------- whatever waits for the server can be answered ----------

  /** The results made for a batch, on top of those there are. */
  function WithResults(r: Request, batch: seq<Slot>, inlined: bool, n: nat, results: map<Id, Record>): map<Id, Record>
    requires forall slot :: slot in batch ==> r.InRange(slot)
  {
    if batch == [] then results
    else
      var last := batch[|batch| - 1];
      WithResults(r, batch[..|batch| - 1], inlined, n, results)
        [Free(n, SlotName(last)) := Record(SlotName(last), ContentOf(r, last, inlined))]
  }

  lemma {:induction false} WithResultsFits(
    r: Request, batch: seq<Slot>, inlined: bool, n: nat, results: map<Id, Record>)
    requires forall slot :: slot in batch ==> r.InRange(slot)
    requires forall suffix :: Free(n, suffix) !in results.Keys
    ensures var after := WithResults(r, batch, inlined, n, results);
            && (forall id :: id in results ==> id in after && after[id] == results[id])
            && forall slot :: slot in batch ==>
                 && Free(n, SlotName(slot)) in after
                 && after[Free(n, SlotName(slot))] == Record(SlotName(slot), ContentOf(r, slot, inlined))
  {
    hide Free, SlotName, ContentOf;
    if batch != [] {
      var front, last := batch[..|batch| - 1], batch[|batch| - 1];
      assert batch == front + [last];
      WithResultsFits(r, front, inlined, n, results);
      forall slot | slot in front
        ensures Free(n, SlotName(slot)) == Free(n, SlotName(last)) ==> slot == last {
        if Free(n, SlotName(slot)) == Free(n, SlotName(last)) {
          FreeIsInjective(n, SlotName(slot), SlotName(last));
          SlotNameInjective(slot, last);
        }
      }
    }
  }

  function ReplyFor(batch: seq<Slot>, n: nat): map<string, Id> {
    map slot | slot in batch :: SlotName(slot) := Free(n, SlotName(slot))
  }

  lemma AnswersFit(s: State, batch: seq<Slot>, inlined: bool, n: nat)
    requires forall slot :: slot in batch ==> s.request.InRange(slot)
    requires forall suffix :: Free(n, suffix) !in s.server.results.Keys && Free(n, suffix) != ""
    ensures Answers(s, batch, inlined, ReplyFor(batch, n),
                    s.server.(results := WithResults(s.request, batch, inlined, n, s.server.results)))
  {
    hide Free, SlotName, WithResults, ContentOf;
    WithResultsFits(s.request, batch, inlined, n, s.server.results);
  }

  lemma CanAnswer(s: State, k: nat) returns (step: Step)
    requires Inv(s) && k < |s.live| && s.live[k].Create?
    ensures step.Answer? && Enabled(s, step)
  {
    var batch, inlined := s.live[k].batch, s.live[k].inlined;
    assert JobOk(s, s.live[k]);
    hide Inv, JobOk, Answers, WithResults, ReplyFor;
    var n := FreePrefix(s.server.results.Keys);
    AnswersFit(s, batch, inlined, n);
    step := Answer(k, ReplyFor(batch, n), s.server.(results := WithResults(s.request, batch, inlined, n, s.server.results)));
  }

  lemma CanReceive(s: State, k: nat) returns (step: Step)
    requires Inv(s) && k < |s.live| && s.live[k].Upload?
    ensures step.Uploaded? && Enabled(s, step)
  {
    assert JobOk(s, s.live[k]);
    var i := s.live[k].i;
    var id := s.inputs[i];
    var server := s.server.(results := s.server.results[id := s.server.results[id].(content := Some(s.request.payloads[i]))]);
    step := Uploaded(k, server);
  }

  /** The tasks made for a batch, on top of those there are. */
  function WithTasks(s: State, indices: seq<nat>, n: nat): map<Id, TaskRecord>
    requires s.Sized() && s.request.Valid() && s.request.withOutputs
    requires forall j :: 0 <= j < |indices| ==> indices[j] < |s.tasks|
  {
    if indices == [] then s.server.tasks
    else
      var last := |indices| - 1;
      WithTasks(s, indices[..last], n)[Free(n, Decimal(last)) := TaskRequest(s, indices[last])]
  }

  lemma {:induction false} WithTasksFits(s: State, indices: seq<nat>, n: nat)
    requires s.Sized() && s.request.Valid() && s.request.withOutputs
    requires forall j :: 0 <= j < |indices| ==> indices[j] < |s.tasks|
    requires forall suffix :: Free(n, suffix) !in s.server.tasks.Keys
    ensures var after := WithTasks(s, indices, n);
            && (forall t :: t in s.server.tasks ==> t in after && after[t] == s.server.tasks[t])
            && forall j :: 0 <= j < |indices| ==>
                 Free(n, Decimal(j)) in after && after[Free(n, Decimal(j))] == TaskRequest(s, indices[j])
  {
    hide Free, Decimal;
    if indices != [] {
      var last := |indices| - 1;
      WithTasksFits(s, indices[..last], n);
      forall j | 0 <= j < last ensures Free(n, Decimal(j)) != Free(n, Decimal(last)) {
        if Free(n, Decimal(j)) == Free(n, Decimal(last)) {
          FreeIsInjective(n, Decimal(j), Decimal(last));
          DecimalInjective(j, last);
        }
      }
    }
  }

  lemma CanAcceptTasks(s: State, k: nat) returns (step: Step)
    requires Inv(s) && k < |s.live| && s.live[k].SubmitTasks?
    ensures step.AnswerTasks? && Enabled(s, step)
  {
    var indices := s.live[k].indices;
    assert JobOk(s, s.live[k]) && s.Sized() && s.request.Valid() && s.request.withOutputs;
    forall j | 0 <= j < |indices| ensures indices[j] < |s.tasks| {
      assert indices[j] in indices;
    }
    var n := FreePrefix(s.server.tasks.Keys);
    hide Inv, JobOk, Free, Decimal, WithTasks;
    WithTasksFits(s, indices, n);
    var ids := seq(|indices|, j requires 0 <= j < |indices| => Free(n, Decimal(j)));
    step := AnswerTasks(k, ids, s.server.(tasks := WithTasks(s, indices, n)));
  }

  // ---------- progress ----------

  /**
   * A step that brings the submission on: nothing fails, no other client is needed, and the client thread goes on only
   * if what it waits for is there, and if it is awake or has been notified.
   */
  ghost predicate Progress(s: State, step: Step) {
    && Enabled(s, step) && !step.Fail? && !step.Others? && !SleepsOn(s, step)
    && (step.Wait? || step.Unwind? ==> CLIENT in s.join.waiters ==> s.join.waiters[CLIENT].notified)
  }

  lemma JobGoesOn(s: State, k: nat) returns (step: Step)
    requires Inv(s) && k < |s.live| && !s.live[k].Over?
    ensures Progress(s, step)
  {
    assert JobOk(s, s.live[k]) && s.Sized();
    if Finished(s.live[k]) {
      assert s.live[k] in s.live;
      UnfinishedNone(s.live);
      step := End(k);
    } else if s.live[k].Create? {
      step := CanAnswer(s, k);
    } else if s.live[k].Upload? {
      step := CanReceive(s, k);
    } else if s.live[k].SubmitTasks? {
      step := CanAcceptTasks(s, k);
    } else if s.live[k].Write? {
      assert s.live[k].slots[0] in s.live[k].slots;
      step := Store(k);
    } else {
      step := StoreTask(k);
    }
  }

  lemma ClientGoesOn(s: State) returns (step: Step)
    requires JoinInv(s) && !HasEnded(s) && s.unspawned == [] && forall k :: 0 <= k < |s.live| ==> s.live[k].Over?
    ensures Progress(s, step)
  {
    assert forall j :: j in s.live ==> j.Over?;
    UnfinishedNone(s.live);
    if s.phase.Unwinding? {
      step := Unwind;
    } else {
      var all := seq(|s.tasks|, i => i);
      FlattenOne(all);
      step := Wait([all]);
      assert Enabled(s, step);
    }
  }

  lemma GoesOn(s: State) returns (step: Step)
    requires Inv(s) && !HasEnded(s)
    ensures Progress(s, step)
  {
    hide DataInv, Progress;
    if s.unspawned != [] {
      step := Spawn;
      SpawnGoesOn(s);
    } else if k: nat :| k < |s.live| && !s.live[k].Over? {
      step := JobGoesOn(s, k);
    } else {
      step := ClientGoesOn(s);
    }
  }

  lemma SpawnGoesOn(s: State)
    requires JoinInv(s) && s.unspawned != []
    ensures Progress(s, Spawn)
  {
  }

  /**
   * Until SubmitRaw ends, the client thread or one of the functions can go on without a failure: the server can always
   * answer, and the client thread is never left asleep with nobody to wake it.
   */
  lemma NeverStuck(request: Request, server: Server, chunkMax: nat, limit: nat, s: State)
    requires request.Valid() && Reachable(Start(request, server, chunkMax, limit), s) && !HasEnded(s)
    ensures exists step :: Progress(s, step)
  {
    ReachableInv(request, server, chunkMax, limit, s);
    hide Inv, Progress, Reachable;
    var step := GoesOn(s);
  }

  /** No function throws, and no other client interferes. */
  ghost predicate Undisturbed(steps: seq<Step>) {
    forall k :: 0 <= k < |steps| ==> !steps[k].Fail? && !steps[k].Others?
  }

  lemma CanEnd(s: State) returns (steps: seq<Step>)
    requires Inv(s)
    ensures IsRun(s, steps) && Undisturbed(steps) && HasEnded(After(s, steps)) && Inv(After(s, steps))
    ensures After(s, steps).failed == s.failed
    decreases PhasesLeft(s), StepsLeft(s)
  {
    hide Inv, Enabled, StepsLeft;
    if HasEnded(s) {
      steps := [];
    } else {
      var step := GoesOn(s);
      InvStep(s, step);
      StepsRunOut(s, step);
      NotFailing(s, step);
      var rest := CanEnd(Next(s, step));
      steps := [step] + rest;
      assert steps[1..] == rest;
    }
  }

  lemma NotFailing(s: State, step: Step)
    requires Enabled(s, step) && !step.Fail?
    ensures Next(s, step).failed == s.failed
  {
  }

  /**
   * From every state that any schedule leads to there is a way to the end on which nothing fails: to completion if
   * nothing has failed so far, and to the exception else.
   */
  lemma CanAlwaysEnd(request: Request, server: Server, chunkMax: nat, limit: nat, s: State) returns (steps: seq<Step>)
    requires request.Valid() && Reachable(Start(request, server, chunkMax, limit), s)
    ensures IsRun(s, steps) && Undisturbed(steps)
    ensures After(s, steps).phase == if s.failed then Aborted else Completed
  {
    ReachableInv(request, server, chunkMax, limit, s);
    hide Reachable, DataInv;
    steps := CanEnd(s);
  }
}
