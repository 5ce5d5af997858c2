/** What a submission promises, for every schedule of its requests and every behaviour of other clients. */
module SubmissionTheorems {
  import opened Prelude
  import opened Batching
  import opened Submission
  import opened JoinSets
  import opened SubmissionJoin
  import opened SubmissionProofs

  /** The arrays hold, slot by slot, what the server has for that slot. */
  ghost predicate Exact(s: State) {
    && s.Sized() && s.request.Valid()
    && (forall i :: 0 <= i < |s.inputs| ==>
          && s.inputs[i] in s.server.results
          && s.server.results[s.inputs[i]] == Record("input-" + Decimal(i), Some(s.request.payloads[i])))
    && (s.request.withOutputs ==> forall i :: 0 <= i < |s.outputs| ==>
          && s.outputs[i] in s.server.results && s.server.results[s.outputs[i]].name == "output-" + Decimal(i)
          && s.tasks[i] in s.server.tasks
          && s.server.tasks[s.tasks[i]]
             == TaskRecord(s.inputs[i], [s.outputs[i]], s.request.dependencies[i], s.request.options))
  }

  /**
   * Whatever the order of the requests, and whatever other clients do, a submission that completes has in
   * slot `i` the id under which the server stores payload `i`, its output, and the task that joins the two.
   */
  lemma CompletedIsExact(request: Request, server: Server, chunkMax: nat, limit: nat, s: State)
    requires request.Valid() && Reachable(Start(request, server, chunkMax, limit), s) && s.phase.Completed?
    ensures s.request == request && Exact(s)
  {
    ReachableInv(request, server, chunkMax, limit, s);
    BarrierIsComplete(s);
    hide Debts, JobOk;
    forall i | 0 <= i < |s.inputs|
      ensures s.inputs[i] in s.server.results
      ensures s.server.results[s.inputs[i]] == Record(SlotName(In(i)), Some(request.payloads[i]))
    {
      assert Delivered(s, i) && SlotOk(s, In(i)) && s.At(In(i)) == s.inputs[i];
    }
    if request.withOutputs {
      forall i | 0 <= i < |s.outputs|
        ensures s.outputs[i] in s.server.results && s.server.results[s.outputs[i]].name == SlotName(Out(i))
        ensures s.tasks[i] in s.server.tasks && s.server.tasks[s.tasks[i]] == TaskRequest(s, i)
      {
        assert SlotOk(s, Out(i)) && s.At(Out(i)) == s.outputs[i] && s.outputs[i] != "";
        assert TaskOk(s, i) && Debts(s, TaskOf(i)) == 0;
      }
    }
  }

  /** Results made for the two submissions that have the same name have the same id, and so have equal tasks made for them. */
  ghost predicate SameIds(a: State, b: State) {
    && (forall x, y | x in a.issued && y in b.issued && x in a.server.results && y in b.server.results ::
          a.server.results[x].name == b.server.results[y].name ==> x == y)
    && (forall t, u | t in a.made && u in b.made && t in a.server.tasks && u in b.server.tasks ::
          a.server.tasks[t] == b.server.tasks[u] ==> t == u)
  }

  /** Schedule independence: if the server names things alike, two schedules end with the same three arrays. */
  lemma SchedulesAgree(request: Request, server: Server, chunkMax: nat, limit: nat, a: State, b: State)
    requires request.Valid() && SameIds(a, b)
    requires Reachable(Start(request, server, chunkMax, limit), a) && a.phase.Completed?
    requires Reachable(Start(request, server, chunkMax, limit), b) && b.phase.Completed?
    ensures a.inputs == b.inputs
    ensures request.withOutputs ==> a.outputs == b.outputs && a.tasks == b.tasks
  {
    CompletedIssued(request, server, chunkMax, limit, a);
    CompletedIssued(request, server, chunkMax, limit, b);
    hide Reachable, Start;
    SameSlots(a, b);
    if request.withOutputs {
      SameTasks(a, b);
    }
  }

  lemma SameSlots(a: State, b: State)
    requires SameIds(a, b) && Exact(a) && Exact(b) && a.request == b.request
    requires forall i :: 0 <= i < |a.inputs| ==> a.inputs[i] in a.issued
    requires forall i :: 0 <= i < |b.inputs| ==> b.inputs[i] in b.issued
    requires a.request.withOutputs ==> forall i :: 0 <= i < |a.outputs| ==> a.outputs[i] in a.issued
    requires a.request.withOutputs ==> forall i :: 0 <= i < |b.outputs| ==> b.outputs[i] in b.issued
    ensures a.inputs == b.inputs && (a.request.withOutputs ==> a.outputs == b.outputs)
  {
  }

  lemma SameTasks(a: State, b: State)
    requires SameIds(a, b) && Exact(a) && Exact(b) && a.request == b.request && a.request.withOutputs
    requires a.inputs == b.inputs && a.outputs == b.outputs
    requires forall i :: 0 <= i < |a.outputs| ==> a.tasks[i] in a.made
    requires forall i :: 0 <= i < |b.outputs| ==> b.tasks[i] in b.made
    ensures a.tasks == b.tasks
  {
    forall i | 0 <= i < |a.tasks| ensures a.tasks[i] == b.tasks[i] {
      assert TaskRequest(a, i) == TaskRequest(b, i);
    }
  }

  lemma CompletedIssued(request: Request, server: Server, chunkMax: nat, limit: nat, s: State)
    requires request.Valid() && Reachable(Start(request, server, chunkMax, limit), s) && s.phase.Completed?
    ensures s.request == request && Exact(s)
    ensures forall i :: 0 <= i < |s.inputs| ==> s.inputs[i] in s.issued
    ensures request.withOutputs ==> forall i :: 0 <= i < |s.outputs| ==> s.outputs[i] in s.issued && s.tasks[i] in s.made
  {
    CompletedIsExact(request, server, chunkMax, limit, s);
    ReachableInv(request, server, chunkMax, limit, s);
    BarrierIsComplete(s);
    hide Debts, JobOk, Exact, Reachable, Start, JoinInv;
    forall i | 0 <= i < |s.inputs| ensures s.inputs[i] in s.issued {
      InputIssued(s, i);
    }
    if request.withOutputs {
      forall i | 0 <= i < |s.outputs| ensures s.outputs[i] in s.issued && s.tasks[i] in s.made {
        OutputIssued(s, i);
      }
    }
  }

  lemma InputIssued(s: State, i: nat)
    requires DataInv(s) && i < |s.inputs| && Delivered(s, i)
    ensures s.inputs[i] in s.issued
  {
    hide Debts, JobOk, JobsOk;
    assert SlotOk(s, In(i)) && s.At(In(i)) == s.inputs[i];
  }

  lemma OutputIssued(s: State, i: nat)
    requires DataInv(s) && Complete(s) && Exact(s) && s.phase.Completed?
    requires s.request.withOutputs && i < |s.outputs| && Debts(s, TaskOf(i)) == 0
    ensures s.outputs[i] in s.issued && s.tasks[i] in s.made
  {
    hide Debts, JobOk, JobsOk;
    assert SlotOk(s, Out(i)) && s.At(Out(i)) == s.outputs[i] && s.outputs[i] != "";
    assert TaskOk(s, i);
  }

  // ---------- ids are new and distinct ----------

  /** Tasks refer to results that exist. */
  ghost predicate WellFormed(server: Server) {
    forall t :: t in server.tasks ==> server.tasks[t].payload in server.results
  }

  ghost predicate IssuedAfter(server: Server, s: State) {
    && (forall id :: id in s.issued ==> id !in server.results)
    && Keeps(server, s.server, {})
  }

  lemma {:induction false} IssuedRun(server: Server, s: State, steps: seq<Step>)
    requires IssuedAfter(server, s) && IsRun(s, steps)
    ensures IssuedAfter(server, After(s, steps))
    decreases |steps|
  {
    hide IssuedAfter, Enabled;
    if steps != [] {
      IssuedStep(server, s, steps[0]);
      IssuedRun(server, Next(s, steps[0]), steps[1..]);
    }
  }

  lemma IssuedStep(server: Server, s: State, step: Step)
    requires IssuedAfter(server, s) && Enabled(s, step)
    ensures IssuedAfter(server, Next(s, step))
  {
    hide Next, Enabled, Keeps;
    ServerKeeps(s, step);
    IssuedGrows(s, step);
    KeptIds(server, s.server);
    KeepsTransitive(server, s.server, Next(s, step).server);
  }

  lemma KeepsTransitive(a: Server, b: Server, c: Server)
    requires Keeps(a, b, {}) && Keeps(b, c, {})
    ensures Keeps(a, c, {})
  {
  }

  lemma CompletedIsDistinct(request: Request, server: Server, chunkMax: nat, limit: nat, s: State)
    requires request.Valid() && request.withOutputs
    requires Reachable(Start(request, server, chunkMax, limit), s) && s.phase.Completed?
    ensures s.Sized()
    ensures forall i, j :: 0 <= i < j < |s.tasks| ==> s.outputs[i] != s.outputs[j] && s.tasks[i] != s.tasks[j]
  {
    CompletedIssued(request, server, chunkMax, limit, s);
    hide Reachable, Start;
    forall i, j | 0 <= i < j < |s.tasks| ensures s.outputs[i] != s.outputs[j] && s.tasks[i] != s.tasks[j] {
      DistinctNames(i, j);
      assert TaskRequest(s, i).payload == s.inputs[i] && TaskRequest(s, j).payload == s.inputs[j];
    }
  }

  /** The new results and tasks are pairwise distinct and were unknown to the server before. */
  lemma CompletedIsFresh(request: Request, server: Server, chunkMax: nat, limit: nat, s: State)
    requires request.Valid() && request.withOutputs && WellFormed(server)
    requires Reachable(Start(request, server, chunkMax, limit), s) && s.phase.Completed?
    ensures s.Sized()
    ensures forall i :: 0 <= i < |s.tasks| ==> s.outputs[i] !in server.results && s.tasks[i] !in server.tasks
    ensures forall i, j :: 0 <= i < j < |s.tasks| ==> s.outputs[i] != s.outputs[j] && s.tasks[i] != s.tasks[j]
  {
    hide Reachable, Start, IssuedAfter, WellFormed, Exact;
    CompletedIsDistinct(request, server, chunkMax, limit, s);
    CompletedIssued(request, server, chunkMax, limit, s);
    ReachableIssued(request, server, chunkMax, limit, s);
    forall i | 0 <= i < |s.tasks| ensures s.outputs[i] !in server.results && s.tasks[i] !in server.tasks {
      SlotIsNew(server, s, i);
    }
  }

  lemma ReachableIssued(request: Request, server: Server, chunkMax: nat, limit: nat, s: State)
    requires Reachable(Start(request, server, chunkMax, limit), s)
    ensures IssuedAfter(server, s)
  {
    var start := Start(request, server, chunkMax, limit);
    var steps :| IsRun(start, steps) && After(start, steps) == s;
    assert IssuedAfter(server, start);
    hide Start, IssuedAfter;
    IssuedRun(server, start, steps);
  }

  lemma SlotIsNew(server: Server, s: State, i: nat)
    requires WellFormed(server) && IssuedAfter(server, s) && Exact(s) && s.request.withOutputs && i < |s.inputs|
    requires s.inputs[i] in s.issued && s.outputs[i] in s.issued
    ensures s.outputs[i] !in server.results && s.tasks[i] !in server.tasks
  {
    assert TaskRequest(s, i).payload == s.inputs[i];
  }

  lemma DistinctNames(i: nat, j: nat)
    requires i != j
    ensures SlotName(In(i)) != SlotName(In(j)) && SlotName(Out(i)) != SlotName(Out(j))
  {
    if SlotName(In(i)) == SlotName(In(j)) {
      SlotNameInjective(In(i), In(j));
    }
    if SlotName(Out(i)) == SlotName(Out(j)) {
      SlotNameInjective(Out(i), Out(j));
    }
  }

  // ---------- one step at a time ----------

  /** What the server has made for this submission is on the server. */
  ghost predicate Accounted(s: State) {
    s.issued <= s.server.results.Keys && s.made <= s.server.tasks.Keys
  }

  /** The ids in an answer are new. */
  lemma AnswerIsNew(s: State, k: nat, reply: map<string, Id>, after: Server)
    requires Enabled(s, Answer(k, reply, after))
    ensures forall id :: id in reply.Values ==> id !in s.server.results && id in after.results
  {
    hide SlotName;
    forall id | id in reply.Values ensures id !in s.server.results && id in after.results {
      var n :| n in reply && reply[n] == id;
      assert n in reply.Keys;
      var slot :| slot in s.live[k].batch && SlotName(slot) == n;
    }
  }

  /** Nothing is lost on the server. */
  lemma ServerKeeps(s: State, step: Step)
    requires Enabled(s, step)
    ensures Keeps(s.server, Next(s, step).server, {}) && Next(s, step).request == s.request
  {
    KeepsItself(s.server);
    match step
    case Answer(_, _, server) => KeepsLess(s.server, server, s.issued);
    case Uploaded(k, server) => KeepsLess(s.server, server, s.issued - {s.inputs[s.live[k].i]});
    case AnswerTasks(_, _, server) => KeepsLess(s.server, server, s.issued);
    case Others(server) => KeepsLess(s.server, server, s.issued);
    case _ =>
    hide Keeps, SlotName, Finished, TaskJobs, TaskRequest, Incremented, Decremented, ErrorRecorded, Waited;
  }

  lemma KeepsItself(a: Server)
    ensures Keeps(a, a, {})
  {
  }

  lemma KeepsLess(a: Server, b: Server, ours: set<Id>)
    requires Keeps(a, b, ours)
    ensures Keeps(a, b, {})
  {
  }

  /** The ids that a step brings, which the server has from then on. */
  lemma IssuedGrows(s: State, step: Step)
    requires Enabled(s, step)
    ensures var t := Next(s, step);
            && s.issued <= t.issued && s.made <= t.made
            && (forall id :: id in t.issued && id !in s.issued ==> id !in s.server.results && id in t.server.results)
            && (forall id :: id in t.made && id !in s.made ==> id !in s.server.tasks && id in t.server.tasks)
  {
    if step.Answer? {
      AnswerIsNew(s, step.job, step.reply, step.server);
    }
    hide SlotName, Finished, TaskJobs, TaskRequest, Keeps, Incremented, Decremented, ErrorRecorded, Waited;
  }

  lemma KeptIds(a: Server, b: Server)
    requires Keeps(a, b, {})
    ensures a.results.Keys <= b.results.Keys && a.tasks.Keys <= b.tasks.Keys
  {
  }

  /** The ids that a step of this submission brings are new. */
  lemma NewIdsAreNew(s: State, step: Step)
    requires Accounted(s) && Enabled(s, step)
    ensures var t := Next(s, step);
            && Accounted(t) && Keeps(s.server, t.server, {}) && t.request == s.request
            && s.issued <= t.issued && (t.issued - s.issued) !! s.server.results.Keys
            && s.made <= t.made && (t.made - s.made) !! s.server.tasks.Keys
  {
    hide Next, Enabled, Keeps;
    ServerKeeps(s, step);
    IssuedGrows(s, step);
    KeptIds(s.server, Next(s, step).server);
  }

  lemma {:induction false} RunSnoc(s: State, steps: seq<Step>, step: Step)
    requires IsRun(s, steps) && Enabled(After(s, steps), step)
    ensures IsRun(s, steps + [step]) && After(s, steps + [step]) == Next(After(s, steps), step)
    decreases |steps|
  {
    hide Enabled, Next;
    if steps == [] {
      assert steps + [step] == [step] && [step][1..] == [];
      assert IsRun(Next(s, step), []) && After(Next(s, step), []) == Next(s, step);
    } else {
      RunSnoc(Next(s, steps[0]), steps[1..], step);
      assert (steps + [step])[1..] == steps[1..] + [step];
    }
  }

  lemma ReachableNext(start: State, s: State, step: Step)
    requires Reachable(start, s) && Enabled(s, step)
    ensures Reachable(start, Next(s, step))
  {
    hide Enabled, Next;
    var steps :| IsRun(start, steps) && After(start, steps) == s;
    RunSnoc(start, steps, step);
    assert After(start, steps + [step]) == Next(s, step);
  }

  /** After the end nothing of a submission moves. */
  lemma EndIsFinal(s: State, step: Step)
    requires JoinInv(s) && HasEnded(s) && Enabled(s, step)
    ensures step.Others?
  {
    hide Unfinished;
    UnfinishedNone(s.live);
    assert forall k :: 0 <= k < |s.live| ==> s.live[k] in s.live && s.live[k].Over?;
  }

  // ---------- phases and failures ----------

  /** In no schedule does a task submission name an input or an output that has no id or no data yet. */
  lemma RequestsAreAssigned(
    request: Request, server: Server, chunkMax: nat, limit: nat, s: State, k: nat, ids: seq<Id>, answer: Server)
    requires request.Valid() && Reachable(Start(request, server, chunkMax, limit), s)
    requires Enabled(s, AnswerTasks(k, ids, answer)) && s.live[k].indices != []
    ensures request.withOutputs && s.request == request && s.Sized()
    ensures forall i :: 0 <= i < |s.tasks| ==>
              var r := TaskRequest(s, i);
              && r.payload != "" && r.outputs == [s.outputs[i]] && s.outputs[i] != ""
              && r.payload in s.server.results && s.server.results[r.payload].content == Some(request.payloads[i])
  {
    ReachableInv(request, server, chunkMax, limit, s);
    hide Debts;
    assert JobOk(s, s.live[k]) && Complete(s);
    hide JobOk, Enabled, Reachable, SlotOk, DebtOk, DataOk, TaskOk, Start;
    forall i | 0 <= i < |s.tasks|
      ensures var r := TaskRequest(s, i);
              && r.payload != "" && r.outputs == [s.outputs[i]] && s.outputs[i] != ""
              && r.payload in s.server.results && s.server.results[r.payload].content == Some(request.payloads[i])
    {
      assert Delivered(s, i) && 0 <= i < |s.outputs|;
    }
  }

  /** Whether some function throws in a run. */
  ghost predicate SomeFail(steps: seq<Step>) {
    exists k :: Fail(k) in steps
  }

  lemma {:induction false} FailedExactly(s: State, steps: seq<Step>)
    requires IsRun(s, steps)
    ensures After(s, steps).failed <==> s.failed || SomeFail(steps)
    decreases |steps|
  {
    hide Enabled;
    if steps != [] {
      FailedExactly(Next(s, steps[0]), steps[1..]);
      OneStepFails(s, steps[0]);
      assert steps == [steps[0]] + steps[1..];
      if k :| Fail(k) in steps[1..] {
        assert Fail(k) in steps;
      }
      if steps[0].Fail? {
        assert Fail(steps[0].job) in steps;
      }
    }
  }

  lemma OneStepFails(s: State, step: Step)
    requires Enabled(s, step)
    ensures Next(s, step).failed <==> s.failed || step.Fail?
  {
  }

  /**
   * The first barrier and the second, in every schedule: Wait returns exactly when every task spawned so far, the
   * nested uploads included, has been destroyed and none has thrown; it throws exactly when one has.
   */
  lemma BarriersAreExact(request: Request, server: Server, chunkMax: nat, limit: nat, s: State)
    requires request.Valid() && Reachable(Start(request, server, chunkMax, limit), s) && Active(s)
    ensures s.join.count == Unfinished(s.live)
    ensures var outcome := Waited(s.join, CLIENT, ForTasks).1;
            && (outcome == Some(Outcome.Returned) <==> !s.failed && forall j :: j in s.live ==> j.Over?)
            && (outcome.Some? && outcome.value.Rethrown? <==> s.failed)
  {
    ReachableInv(request, server, chunkMax, limit, s);
    hide Reachable, DataInv;
    WaitPassesExactly(s);
  }

  /** The function that throws first in a run. */
  function FirstFail(steps: seq<Step>): Option<nat> {
    if steps == [] then None else if steps[0].Fail? then Some(steps[0].job) else FirstFail(steps[1..])
  }

  lemma ErrorStep(s: State, step: Step)
    requires Enabled(s, step) && Active(Next(s, step))
    ensures Active(s)
    ensures Next(s, step).join.exception
         == if s.join.exception.Some? then s.join.exception else if step.Fail? then Some(step.job) else None
  {
    hide Finished, TaskJobs, Answers, Receives, AcceptsTasks, SlotName, Keeps;
  }

  lemma {:induction false} ErrorRun(s: State, steps: seq<Step>)
    requires IsRun(s, steps) && Active(After(s, steps))
    ensures Active(s)
    ensures After(s, steps).join.exception == if s.join.exception.Some? then s.join.exception else FirstFail(steps)
    decreases |steps|
  {
    hide Enabled, Next, Active;
    if steps != [] {
      ErrorRun(Next(s, steps[0]), steps[1..]);
      ErrorStep(s, steps[0]);
    }
  }

  /** The exception that a barrier lets out is that of the function that threw first, in every schedule. */
  lemma ThrowsTheFirst(request: Request, server: Server, chunkMax: nat, limit: nat, steps: seq<Step>, k: nat)
    requires request.Valid() && IsRun(Start(request, server, chunkMax, limit), steps)
    requires Active(After(Start(request, server, chunkMax, limit), steps))
    requires Waited(After(Start(request, server, chunkMax, limit), steps).join, CLIENT, ForTasks).1 == Some(Outcome.Rethrown(k))
    ensures FirstFail(steps) == Some(k)
  {
    ErrorRun(Start(request, server, chunkMax, limit), steps);
    hide IsRun, After, FirstFail, PlanLog, CreationJobs;
  }

  /**
   * Every schedule, once SubmitRaw has ended: it has thrown if some function has, and has returned otherwise. Either way
   * no task of it is left.
   */
  lemma AbortedExactly(request: Request, server: Server, chunkMax: nat, limit: nat, steps: seq<Step>)
    requires request.Valid() && IsRun(Start(request, server, chunkMax, limit), steps)
    requires HasEnded(After(Start(request, server, chunkMax, limit), steps))
    ensures var s := After(Start(request, server, chunkMax, limit), steps);
            && (s.phase.Aborted? <==> SomeFail(steps)) && (s.phase.Completed? <==> !SomeFail(steps))
            && s.join.count == 0 && forall j :: j in s.live ==> j.Over?
  {
    var start := Start(request, server, chunkMax, limit);
    var s := After(start, steps);
    FailedExactly(start, steps);
    assert Reachable(start, s);
    ReachableInv(request, server, chunkMax, limit, s);
    UnfinishedNone(s.live);
    hide Reachable, DataInv;
  }

  lemma FailureIncomplete(s: State)
    requires Inv(s) && s.failed
    ensures !s.phase.Completed?
  {
  }

  lemma FailureStays(s: State, step: Step)
    requires s.failed && Enabled(s, step)
    ensures Next(s, step).failed
  {
  }

  /** A failed request is never forgotten: the submission will not complete, so nothing of it gets recorded. */
  lemma {:induction false} FailureNeverCompletes(s: State, steps: seq<Step>)
    requires Inv(s) && s.failed && IsRun(s, steps)
    ensures After(s, steps).failed && !After(s, steps).phase.Completed?
    decreases |steps|
  {
    FailureIncomplete(s);
    hide Inv, Next, Enabled;
    if steps != [] {
      InvStep(s, steps[0]);
      FailureStays(s, steps[0]);
      FailureNeverCompletes(Next(s, steps[0]), steps[1..]);
    }
  }

  lemma FailedMeansNotRecorded(
    request: Request, server: Server, chunkMax: nat, limit: nat, s: State, job: nat, steps: seq<Step>)
    requires request.Valid() && Reachable(Start(request, server, chunkMax, limit), s)
    requires Enabled(s, Fail(job)) && IsRun(Next(s, Fail(job)), steps)
    ensures var t := After(Next(s, Fail(job)), steps);
            !t.phase.Completed? && (HasEnded(t) ==> t.phase.Aborted?)
  {
    ReachableInv(request, server, chunkMax, limit, s);
    InvStep(s, Fail(job));
    hide Inv;
    FailureNeverCompletes(Next(s, Fail(job)), steps);
  }
}
