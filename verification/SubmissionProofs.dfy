/** Whatever the schedule, a submission that completes has filled every slot with what the server holds for it. */
module SubmissionProofs {
  import opened Prelude
  import opened Batching
  import opened BatchingProofs
  import opened JoinSets
  import opened Submission
  import opened SubmissionJoin

  // ---------- names ----------

  lemma SlotNameInjective(a: Slot, b: Slot)
    requires SlotName(a) == SlotName(b)
    ensures a == b
  {
    var x, y := SlotName(a), SlotName(b);
    assert x[0] == 'i' <==> a.In?;
    assert y[0] == 'i' <==> b.In?;
    var n := if a.In? then 6 else 7;
    assert x[n..] == Decimal(a.i) && y[n..] == Decimal(b.i);
    DecimalInjective(a.i, b.i);
  }

  // ---------- debts: what the jobs still have to do ----------

  /** An id to write into a slot, data to bring to the server, a task to submit. */
  datatype Debt = IdOf(slot: Slot) | DataOf(i: nat) | TaskOf(i: nat)

  function OwesSlots(slots: seq<Slot>, d: Debt): nat {
    match d
    case IdOf(slot) => multiset(slots)[slot]
    case DataOf(i) => multiset(slots)[In(i)]
    case TaskOf(_) => 0
  }

  function OwesTasks(indices: seq<nat>, d: Debt): nat {
    match d
    case TaskOf(i) => multiset(indices)[i]
    case _ => 0
  }

  function Owes(j: Job, d: Debt): nat {
    match j
    case Create(batch, _) => OwesSlots(batch, d)
    case Write(slots, _, _) => OwesSlots(slots, d)
    case Upload(i) => if d == DataOf(i) then 1 else 0
    case SubmitTasks(indices) => OwesTasks(indices, d)
    case WriteTasks(targets, _) => OwesTasks(targets, d)
    case _ => 0
  }

  function Total(jobs: seq<Job>, d: Debt): nat {
    if jobs == [] then 0 else Total(jobs[..|jobs| - 1], d) + Owes(jobs[|jobs| - 1], d)
  }

  function Debts(s: State, d: Debt): nat {
    Total(s.unspawned, d) + Total(s.live, d)
  }

  lemma {:induction false} TotalConcat(a: seq<Job>, b: seq<Job>, d: Debt)
    ensures Total(a + b, d) == Total(a, d) + Total(b, d)
  {
    if b == [] {
      assert a + b == a;
    } else {
      TotalConcat(a, b[..|b| - 1], d);
      assert (a + b)[..|a + b| - 1] == a + b[..|b| - 1];
    }
  }

  lemma TotalSnoc(jobs: seq<Job>, j: Job, d: Debt)
    ensures Total(jobs + [j], d) == Total(jobs, d) + Owes(j, d)
  {
    assert (jobs + [j])[..|jobs|] == jobs;
  }

  lemma TotalCons(jobs: seq<Job>, d: Debt)
    requires jobs != []
    ensures Total(jobs, d) == Owes(jobs[0], d) + Total(jobs[1..], d)
  {
    hide Owes;
    TotalConcat([jobs[0]], jobs[1..], d);
    TotalSnoc([], jobs[0], d);
    assert [] + [jobs[0]] == [jobs[0]] && [jobs[0]] + jobs[1..] == jobs;
  }

  lemma {:induction false} TotalUpdate(jobs: seq<Job>, k: nat, j: Job, d: Debt)
    requires k < |jobs|
    ensures Total(jobs[k := j], d) + Owes(jobs[k], d) == Total(jobs, d) + Owes(j, d)
  {
    hide Owes;
    var n := |jobs| - 1;
    if k == n {
      assert jobs[k := j][..n] == jobs[..n];
    } else {
      TotalUpdate(jobs[..n], k, j, d);
      assert jobs[k := j][..n] == jobs[..n][k := j];
    }
  }

  lemma {:induction false} TotalAtLeast(jobs: seq<Job>, k: nat, d: Debt)
    requires k < |jobs|
    ensures Total(jobs, d) >= Owes(jobs[k], d)
  {
    hide Owes;
    if k < |jobs| - 1 {
      TotalAtLeast(jobs[..|jobs| - 1], k, d);
    }
  }

  lemma {:induction false} TotalTwice(jobs: seq<Job>, k: nat, m: nat, d: Debt)
    requires k < m < |jobs|
    ensures Total(jobs, d) >= Owes(jobs[k], d) + Owes(jobs[m], d)
  {
    hide Owes;
    var n := |jobs| - 1;
    if m < n {
      TotalTwice(jobs[..n], k, m, d);
    } else {
      TotalAtLeast(jobs[..n], k, d);
    }
  }

  lemma {:induction false} DoneOwesNothing(jobs: seq<Job>, d: Debt)
    requires forall j :: j in jobs ==> j.Over?
    ensures Total(jobs, d) == 0
  {
    if jobs != [] {
      DoneOwesNothing(jobs[..|jobs| - 1], d);
      assert jobs[|jobs| - 1] in jobs;
    }
  }

  lemma {:induction false} CreationDebts(log: seq<Emission>, slot: Slot)
    ensures Total(CreationJobs(log), IdOf(slot)) == EmittedSlots(log)[slot]
    ensures slot.In? ==> Total(CreationJobs(log), DataOf(slot.i)) == EmittedSlots(log)[slot]
    ensures Total(CreationJobs(log), TaskOf(slot.i)) == 0
  {
    if log != [] {
      CreationDebts(log[..|log| - 1], slot);
      CreationDebt(log, IdOf(slot));
      CreationDebt(log, DataOf(slot.i));
      CreationDebt(log, TaskOf(slot.i));
      hide CreationJobs, Total;
    }
  }

  lemma CreationDebt(log: seq<Emission>, d: Debt)
    requires log != []
    ensures var e := log[|log| - 1];
            Total(CreationJobs(log), d) == Total(CreationJobs(log[..|log| - 1]), d) + Owes(Create(e.slots, e.inlined), d)
  {
    var e := log[|log| - 1];
    TotalSnoc(CreationJobs(log[..|log| - 1]), Create(e.slots, e.inlined), d);
    hide Total;
  }

  lemma {:induction false} TaskDebts(batches: seq<seq<nat>>, d: Debt)
    ensures Total(TaskJobs(batches), d) == OwesTasks(Flatten(batches), d)
  {
    if batches != [] {
      var front, last := batches[..|batches| - 1], batches[|batches| - 1];
      TaskDebts(front, d);
      TotalSnoc(TaskJobs(front), SubmitTasks(last), d);
    }
  }

  lemma {:induction false} EachIndexOnce(n: nat, i: nat)
    ensures multiset(seq(n, k => k))[i] == if i < n then 1 else 0
  {
    if n > 0 {
      EachIndexOnce(n - 1, i);
      assert seq(n, k => k) == seq(n - 1, k => k) + [n - 1];
    }
  }

  // ---------- invariants ----------

  /** The server holds a result under this id, issued to this submission for this slot. */
  ghost predicate Known(s: State, slot: Slot, id: Id) {
    id in s.issued && id in s.server.results && s.server.results[id].name == SlotName(slot)
  }

  ghost predicate SlotOk(s: State, slot: Slot)
    requires s.Sized() && s.request.InRange(slot)
  {
    s.At(slot) != "" ==> Known(s, slot, s.At(slot))
  }

  /** A slot is written at most once, and unless something failed somebody will write it. */
  ghost predicate DebtOk(s: State, slot: Slot)
    requires s.Sized() && s.request.InRange(slot)
  {
    && Debts(s, IdOf(slot)) <= 1
    && (Debts(s, IdOf(slot)) > 0 ==> s.At(slot) == "")
    && (!s.failed && Debts(s, IdOf(slot)) == 0 ==> s.At(slot) != "")
  }

  /** Input `i` has its id, and the server has its data. */
  ghost predicate Delivered(s: State, i: nat)
    requires s.Sized() && i < |s.inputs|
  {
    && s.inputs[i] != "" && s.inputs[i] in s.server.results
    && s.server.results[s.inputs[i]].content == Some(s.request.payloads[i])
  }

  ghost predicate DataOk(s: State, i: nat)
    requires s.Sized() && i < |s.inputs|
  {
    && Debts(s, DataOf(i)) <= 1
    && (!s.failed && Debts(s, DataOf(i)) == 0 ==> Delivered(s, i))
  }

  /** All ids are written and all data is delivered: tasks may be submitted. */
  ghost predicate Complete(s: State)
    requires s.Sized()
  {
    && (forall i :: 0 <= i < |s.inputs| ==> Delivered(s, i))
    && (s.request.withOutputs ==> forall i :: 0 <= i < |s.outputs| ==> s.outputs[i] != "")
  }

  ghost predicate TaskKnown(s: State, i: nat, t: Id)
    requires s.Sized() && i < |s.tasks|
  {
    && s.request.Valid() && s.request.withOutputs && Complete(s)
    && t in s.made && t in s.server.tasks && s.server.tasks[t] == TaskRequest(s, i)
  }

  ghost predicate TaskOk(s: State, i: nat)
    requires s.Sized() && i < |s.tasks|
  {
    && Debts(s, TaskOf(i)) <= 1
    && (Debts(s, TaskOf(i)) > 0 ==> s.tasks[i] == "")
    && (s.tasks[i] != "" ==> TaskKnown(s, i, s.tasks[i]))
    && (s.phase.Creating? ==> Debts(s, TaskOf(i)) == 0 && s.tasks[i] == "")
    && ((s.phase.Submitting? || s.phase.Completed?) && s.request.withOutputs && !s.failed && Debts(s, TaskOf(i)) == 0
        ==> s.tasks[i] != "")
  }

  ghost predicate JobOk(s: State, j: Job)
    requires s.Sized()
  {
    match j
    case Create(batch, _) => forall slot :: slot in batch ==> s.request.InRange(slot)
    case Write(slots, reply, inlined) =>
      forall slot :: slot in slots ==> s.request.InRange(slot) && Promised(s, slot, reply, inlined)
    case Upload(i) =>
      && i < |s.inputs| && s.inputs[i] != "" && Known(s, In(i), s.inputs[i])
      && s.server.results[s.inputs[i]].content.None?
    case SubmitTasks(indices) => s.request.withOutputs && Complete(s) && forall i :: i in indices ==> i < |s.tasks|
    case WriteTasks(targets, ids) =>
      && |targets| == |ids|
      && forall k :: 0 <= k < |targets| ==> targets[k] < |s.tasks| && ids[k] != "" && TaskKnown(s, targets[k], ids[k])
    case _ => true
  }

  /** The reply still has the id for this slot. */
  ghost predicate Promised(s: State, slot: Slot, reply: map<string, Id>, inlined: bool)
    requires s.request.InRange(slot)
  {
    && SlotName(slot) in reply
    && var id := reply[SlotName(slot)];
       && id != "" && Known(s, slot, id)
       && (slot.In? ==> s.server.results[id].content == if inlined then Some(s.request.payloads[slot.i]) else None)
  }

  ghost predicate JobsOk(s: State, jobs: seq<Job>)
    requires s.Sized()
  {
    forall k :: 0 <= k < |jobs| ==> JobOk(s, jobs[k])
  }

  ghost predicate DataInv(s: State) {
    && s.Sized() && s.request.Valid()
    && JobsOk(s, s.unspawned) && JobsOk(s, s.live)
    && (forall slot :: s.request.InRange(slot) ==> SlotOk(s, slot) && DebtOk(s, slot))
    && (forall i :: 0 <= i < |s.inputs| ==> DataOk(s, i))
    && (forall i :: 0 <= i < |s.tasks| ==> TaskOk(s, i))
    && (s.phase.Submitting? || (s.phase.Completed? && s.request.withOutputs) ==> Complete(s))
    && (s.phase.Completed? ==> !s.failed && s.unspawned == [] && forall j :: j in s.live ==> j.Over?)
  }

  ghost predicate Inv(s: State) {
    DataInv(s) && JoinInv(s)
  }

  // ---------- how a step changes the debts ----------

  /** The debt that a step settles. */
  function Settled(s: State, step: Step, d: Debt): nat {
    match step
    case Fail(k) => if k < |s.live| then Owes(s.live[k], d) else 0
    case Uploaded(k, _) => if k < |s.live| then Owes(s.live[k], d) else 0
    case Store(k) =>
      if k < |s.live| && s.live[k].Write? && s.live[k].slots != [] then
        var slot := s.live[k].slots[0];
        if d == IdOf(slot) || (slot.In? && s.live[k].inlined && d == DataOf(slot.i)) then 1 else 0
      else 0
    case StoreTask(k) =>
      if k < |s.live| && s.live[k].WriteTasks? && s.live[k].targets != [] && d == TaskOf(s.live[k].targets[0]) then 1
      else 0
    case _ => 0
  }

  lemma OwesSlotsCons(slots: seq<Slot>, d: Debt)
    requires slots != []
    ensures OwesSlots(slots, d) == OwesSlots(slots[1..], d)
         + (if d == IdOf(slots[0]) || (slots[0].In? && d == DataOf(slots[0].i)) then 1 else 0)
  {
    assert slots == [slots[0]] + slots[1..];
  }

  lemma OwesTasksCons(indices: seq<nat>, d: Debt)
    requires indices != []
    ensures OwesTasks(indices, d) == OwesTasks(indices[1..], d) + (if d == TaskOf(indices[0]) then 1 else 0)
  {
    assert indices == [indices[0]] + indices[1..];
  }

  lemma StoredDebts(s: State, k: nat, d: Debt)
    requires Enabled(s, Store(k))
    ensures Debts(Stored(s, k), d) + Settled(s, Store(k), d) == Debts(s, d)
  {
    hide Total, OwesSlots;
    var job := s.live[k];
    var slot := job.slots[0];
    var rest := Write(job.slots[1..], job.reply[SlotName(slot) := ""], job.inlined);
    OwesSlotsCons(job.slots, d);
    TotalUpdate(s.live, k, rest, d);
    if slot.In? && !job.inlined {
      TotalSnoc(s.live[k := rest], Upload(slot.i), d);
    } else {
      assert s.live[k := rest] + [] == s.live[k := rest];
    }
  }

  lemma DebtsNext(s: State, step: Step, d: Debt)
    requires Enabled(s, step)
    requires !step.Wait?
    ensures Debts(Next(s, step), d) + Settled(s, step, d) == Debts(s, d)
  {
    hide Total, OwesSlots, OwesTasks, Stored, Answers, Receives, AcceptsTasks, Keeps;
    match step
    case Spawn =>
      TotalCons(s.unspawned, d);
      TotalSnoc(s.live, s.unspawned[0], d);
    case Fail(k) => TotalUpdate(s.live, k, Ended, d);
    case Answer(k, reply, server) => TotalUpdate(s.live, k, Write(s.live[k].batch, reply, s.live[k].inlined), d);
    case Store(k) => StoredDebts(s, k, d);
    case Uploaded(k, server) => TotalUpdate(s.live, k, Ended, d);
    case AnswerTasks(k, ids, server) => TotalUpdate(s.live, k, WriteTasks(s.live[k].indices, ids), d);
    case StoreTask(k) =>
      OwesTasksCons(s.live[k].targets, d);
      TotalUpdate(s.live, k, WriteTasks(s.live[k].targets[1..], s.live[k].ids[1..]), d);
    case End(k) =>
      FinishedOwesNothing(s.live[k], d);
      TotalUpdate(s.live, k, Over, d);
    case _ =>
  }

  lemma FinishedOwesNothing(j: Job, d: Debt)
    requires Finished(j)
    ensures Owes(j, d) == 0
  {
  }

  // ---------- what growth of the server and of the issued ids keeps ----------

  /** Nothing is taken back; the results issued to this submission are left alone, but for those in `spared`. */
  ghost predicate Extends(s: State, t: State, spared: set<Id>) {
    && t.request == s.request && t.inputs == s.inputs && t.outputs == s.outputs && t.tasks == s.tasks
    && s.issued <= t.issued && s.made <= t.made && Keeps(s.server, t.server, s.issued - spared)
  }

  /** The job has no business with the results in `spared`. */
  ghost predicate Untouched(s: State, j: Job, spared: set<Id>) {
    match j
    case Write(slots, reply, _) =>
      forall slot :: slot in slots && SlotName(slot) in reply ==> reply[SlotName(slot)] !in spared
    case Upload(i) => i < |s.inputs| ==> s.inputs[i] !in spared
    case _ => true
  }

  lemma ExtendsComplete(s: State, t: State, spared: set<Id>)
    requires s.Sized() && Extends(s, t, spared)
    ensures Complete(s) ==> Complete(t)
    ensures forall i :: 0 <= i < |s.inputs| && Delivered(s, i) ==> Delivered(t, i)
  {
    forall i | 0 <= i < |s.inputs| && Delivered(s, i) ensures Delivered(t, i) {
      assert s.inputs[i] in t.server.results;
    }
  }

  lemma ExtendsJob(s: State, t: State, spared: set<Id>, j: Job)
    requires s.Sized() && Extends(s, t, spared) && JobOk(s, j) && Untouched(s, j, spared)
    ensures JobOk(t, j)
  {
    ExtendsComplete(s, t, spared);
    hide Complete;
    match j
    case Write(slots, reply, inlined) =>
      forall slot | slot in slots ensures t.request.InRange(slot) && Promised(t, slot, reply, inlined) {
        assert Promised(s, slot, reply, inlined);
      }
    case WriteTasks(targets, ids) =>
      forall k | 0 <= k < |targets| ensures targets[k] < |t.tasks| && ids[k] != "" && TaskKnown(t, targets[k], ids[k]) {
        assert TaskKnown(s, targets[k], ids[k]);
      }
    case _ =>
  }

  lemma ExtendsJobs(s: State, t: State, jobs: seq<Job>)
    requires s.Sized() && Extends(s, t, {}) && JobsOk(s, jobs)
    ensures JobsOk(t, jobs)
  {
    hide JobOk, Keeps;
    forall k | 0 <= k < |jobs| ensures JobOk(t, jobs[k]) {
      ExtendsJob(s, t, {}, jobs[k]);
    }
  }

  /** The facts about single slots and tasks, apart from who still owes them. */
  lemma ExtendsSlots(s: State, t: State, spared: set<Id>)
    requires s.Sized() && Extends(s, t, spared)
    ensures forall slot :: s.request.InRange(slot) && SlotOk(s, slot) ==> SlotOk(t, slot)
    ensures forall i, id :: 0 <= i < |s.tasks| && TaskKnown(s, i, id) ==> TaskKnown(t, i, id)
  {
    ExtendsComplete(s, t, spared);
    hide Complete;
  }

  // ---------- steps that write no slot ----------

  /** A step that leaves the arrays alone, gives up debts only when it fails, and pays for data it no longer owes. */
  lemma FrameStep(s: State, t: State, spared: set<Id>)
    requires DataInv(s) && Extends(s, t, spared) && JobsOk(t, t.unspawned) && JobsOk(t, t.live)
    requires t.phase == s.phase || t.phase.Unwinding? || t.phase.Aborted?
    requires s.failed ==> t.failed
    requires forall slot :: Debts(t, IdOf(slot)) <= Debts(s, IdOf(slot))
    requires !t.failed ==> forall slot :: Debts(t, IdOf(slot)) == Debts(s, IdOf(slot))
    requires forall i: nat :: Debts(t, TaskOf(i)) <= Debts(s, TaskOf(i))
    requires !t.failed ==> forall i: nat :: Debts(t, TaskOf(i)) == Debts(s, TaskOf(i))
    requires forall i: nat :: Debts(t, DataOf(i)) <= Debts(s, DataOf(i))
    requires forall i :: 0 <= i < |t.inputs| && !t.failed && Debts(t, DataOf(i)) == 0 ==>
               Debts(s, DataOf(i)) == 0 || Delivered(t, i)
    requires t.phase.Completed? ==> !t.failed && t.unspawned == [] && forall j :: j in t.live ==> j.Over?
    ensures DataInv(t)
  {
    ExtendsComplete(s, t, spared);
    ExtendsSlots(s, t, spared);
    hide Debts, Complete, Keeps, SlotOk, TaskKnown, Delivered, JobsOk;
    forall slot | t.request.InRange(slot) ensures SlotOk(t, slot) && DebtOk(t, slot) {
      assert SlotOk(s, slot) && DebtOk(s, slot);
    }
    forall i | 0 <= i < |t.inputs| ensures DataOk(t, i) {
      assert DataOk(s, i);
    }
    forall i | 0 <= i < |t.tasks| ensures TaskOk(t, i) {
      assert TaskOk(s, i);
    }
  }

  lemma ReplaceJob(s: State, jobs: seq<Job>, k: nat, j: Job)
    requires s.Sized() && JobsOk(s, jobs) && k < |jobs| && JobOk(s, j)
    ensures JobsOk(s, jobs[k := j])
  {
    hide JobOk;
  }

  lemma AppendJob(s: State, jobs: seq<Job>, j: Job)
    requires s.Sized() && JobsOk(s, jobs) && JobOk(s, j)
    ensures JobsOk(s, jobs + [j])
  {
    hide JobOk;
  }

  lemma SpawnStep(s: State)
    requires DataInv(s) && Enabled(s, Spawn)
    ensures DataInv(Next(s, Spawn))
  {
    var t := Next(s, Spawn);
    assert JobOk(s, s.unspawned[0]);
    forall d ensures Debts(t, d) == Debts(s, d) {
      DebtsNext(s, Spawn, d);
    }
    assert Extends(s, t, {});
    ExtendsJobs(s, t, s.unspawned);
    ExtendsJobs(s, t, s.live);
    AppendJob(t, s.live, s.unspawned[0]);
    hide Debts, Complete, JobOk, TaskOk, DataOk, DebtOk, SlotOk, Keeps;
    assert JobsOk(t, t.unspawned);
    FrameStep(s, t, {});
  }

  lemma FailStep(s: State, k: nat)
    requires DataInv(s) && Enabled(s, Fail(k))
    ensures DataInv(Next(s, Fail(k)))
  {
    var t := Next(s, Fail(k));
    forall d ensures Debts(t, d) <= Debts(s, d) {
      DebtsNext(s, Fail(k), d);
    }
    assert s.live[k] in s.live && !s.live[k].Over?;
    ExtendsJobs(s, t, s.unspawned);
    ExtendsJobs(s, t, s.live);
    ReplaceJob(t, s.live, k, Ended);
    hide Debts, Complete, JobsOk, TaskOk, DataOk, DebtOk, SlotOk, Keeps;
    FrameStep(s, t, {});
  }

  /** A request that is answered: its job goes on as `j`, with the same debts. */
  lemma AnsweredStep(s: State, step: Step, k: nat, j: Job, t: State)
    requires DataInv(s) && Enabled(s, step) && (step.Answer? || step.AnswerTasks?) && t == Next(s, step)
    requires k < |s.live| && !s.live[k].Over? && t.live == s.live[k := j] && t.unspawned == s.unspawned
    requires Extends(s, t, {}) && JobOk(t, j)
    ensures DataInv(t)
  {
    forall d ensures Debts(t, d) == Debts(s, d) {
      DebtsNext(s, step, d);
    }
    assert s.live[k] in s.live;
    ExtendsJobs(s, t, s.unspawned);
    ExtendsJobs(s, t, s.live);
    ReplaceJob(t, s.live, k, j);
    hide Debts, Complete, JobsOk, JobOk, TaskOk, DataOk, DebtOk, SlotOk, Keeps, Extends, Enabled;
    FrameStep(s, t, {});
  }

  lemma AnswerStep(s: State, k: nat, reply: map<string, Id>, server: Server)
    requires DataInv(s) && Enabled(s, Answer(k, reply, server)) && !s.live[k].Over?
    ensures DataInv(Next(s, Answer(k, reply, server)))
  {
    var t := Next(s, Answer(k, reply, server));
    var job := s.live[k];
    assert JobOk(s, job);
    forall slot | slot in job.batch ensures t.request.InRange(slot) && Promised(t, slot, reply, job.inlined) {
      assert SlotName(slot) in reply.Keys;
      assert reply[SlotName(slot)] in reply.Values;
    }
    AnsweredStep(s, Answer(k, reply, server), k, Write(job.batch, reply, job.inlined), t);
  }

  lemma AnswerTasksStep(s: State, k: nat, ids: seq<Id>, server: Server)
    requires DataInv(s) && Enabled(s, AnswerTasks(k, ids, server)) && !s.live[k].Over?
    ensures DataInv(Next(s, AnswerTasks(k, ids, server)))
  {
    var t := Next(s, AnswerTasks(k, ids, server));
    var indices := s.live[k].indices;
    assert JobOk(s, s.live[k]);
    ExtendsComplete(s, t, {});
    forall m | 0 <= m < |indices|
      ensures indices[m] < |t.tasks| && ids[m] != "" && TaskKnown(t, indices[m], ids[m])
    {
    }
    AnsweredStep(s, AnswerTasks(k, ids, server), k, WriteTasks(indices, ids), t);
  }

  /** A job that does not owe the data of input `i` has no business with its result. */
  lemma OwesNotUntouched(s: State, j: Job, i: nat, id: Id)
    requires s.Sized() && JobOk(s, j) && Owes(j, DataOf(i)) == 0 && Known(s, In(i), id)
    ensures Untouched(s, j, {id})
  {
    match j
    case Write(slots, reply, inlined) =>
      assert In(i) !in multiset(slots);
      forall slot | slot in slots && SlotName(slot) in reply ensures reply[SlotName(slot)] != id {
        assert Promised(s, slot, reply, inlined);
        if reply[SlotName(slot)] == id {
          SlotNameInjective(slot, In(i));
        }
      }
    case Upload(m) =>
      if s.inputs[m] == id {
        SlotNameInjective(In(m), In(i));
      }
    case _ =>
  }

  /** The data of an input is owed by its upload alone. */
  lemma OthersOweNot(s: State, k: nat, jobs: seq<Job>, m: nat)
    requires DataInv(s) && k < |s.live| && s.live[k].Upload?
    requires m < |jobs| && (jobs == s.unspawned || (jobs == s.live && m != k))
    ensures Owes(jobs[m], DataOf(s.live[k].i)) == 0
  {
    var d := DataOf(s.live[k].i);
    assert JobOk(s, s.live[k]);
    assert DataOk(s, s.live[k].i);
    hide Total, Owes, OwesSlots;
    assert Owes(s.live[k], d) == 1 by {
      UploadOwes(s.live[k].i);
    }
    if jobs == s.unspawned {
      TotalAtLeast(s.unspawned, m, d);
      TotalAtLeast(s.live, k, d);
    } else if m < k {
      TotalTwice(s.live, m, k, d);
    } else {
      TotalTwice(s.live, k, m, d);
    }
  }

  lemma UploadOwes(i: nat)
    ensures Owes(Upload(i), DataOf(i)) == 1
  {
  }

  lemma UploadedJobs(s: State, k: nat, t: State)
    requires DataInv(s) && k < |s.live| && s.live[k].Upload? && s.live[k].i < |s.inputs|
    requires Extends(s, t, {s.inputs[s.live[k].i]}) && t.unspawned == s.unspawned && t.live == s.live[k := Ended]
    ensures JobsOk(t, t.unspawned) && JobsOk(t, t.live)
  {
    var i := s.live[k].i;
    var id := s.inputs[i];
    assert JobOk(s, s.live[k]);
    hide Debts, Complete, Owes, TaskOk, DataOk, DebtOk, SlotOk, Extends;
    forall m | 0 <= m < |s.unspawned| ensures JobOk(t, t.unspawned[m]) {
      OthersOweNot(s, k, s.unspawned, m);
      OwesNotUntouched(s, s.unspawned[m], i, id);
      ExtendsJob(s, t, {id}, s.unspawned[m]);
    }
    forall m | 0 <= m < |s.live| && m != k ensures JobOk(t, t.live[m]) {
      OthersOweNot(s, k, s.live, m);
      OwesNotUntouched(s, s.live[m], i, id);
      ExtendsJob(s, t, {id}, s.live[m]);
    }
  }

  lemma UploadedStep(s: State, k: nat, server: Server)
    requires DataInv(s) && Enabled(s, Uploaded(k, server))
    ensures DataInv(Next(s, Uploaded(k, server)))
  {
    var t := Next(s, Uploaded(k, server));
    forall d ensures Debts(t, d) + Owes(s.live[k], d) == Debts(s, d) {
      DebtsNext(s, Uploaded(k, server), d);
    }
    assert JobOk(s, s.live[k]) && s.live[k] in s.live && !s.live[k].Over?;
    assert Delivered(t, s.live[k].i);
    var id := s.inputs[s.live[k].i];
    assert Extends(s, t, {id});
    hide Debts, Complete, JobsOk, JobOk, TaskOk, DataOk, DebtOk, SlotOk, Keeps, Extends, Enabled;
    UploadedJobs(s, k, t);
    FrameStep(s, t, {id});
  }

  /** Steps that leave arrays and debts alone. */
  lemma QuietStep(s: State, t: State)
    requires DataInv(s) && (t.phase == s.phase || t.phase.Unwinding? || t.phase.Aborted?)
    requires t == s.(server := t.server, live := t.live, join := t.join, phase := t.phase)
    requires Keeps(s.server, t.server, s.issued) && JobsOk(s, t.live)
    requires forall d :: Debts(t, d) == Debts(s, d)
    requires t.phase.Completed? ==> t.live == s.live
    ensures DataInv(t)
  {
    assert Extends(s, t, {});
    hide Debts, Complete, TaskOk, DataOk, DebtOk, SlotOk, Keeps, Extends;
    ExtendsJobs(s, t, s.unspawned);
    ExtendsJobs(s, t, t.live);
    hide JobsOk;
    FrameStep(s, t, {});
  }

  lemma OthersStep(s: State, step: Step)
    requires DataInv(s) && Enabled(s, step) && (step.Others? || step.Unwind? || step.End?)
    ensures DataInv(Next(s, step))
  {
    var t := Next(s, step);
    forall d ensures Debts(t, d) == Debts(s, d) {
      DebtsNext(s, step, d);
    }
    hide Debts, Complete, TaskOk, DataOk, DebtOk, SlotOk;
    if step.End? {
      assert s.live[step.job] in s.live && !s.live[step.job].Over?;
      assert JobOk(s, Over);
      ReplaceJob(s, s.live, step.job, Over);
    }
    QuietStep(s, t);
  }

  // ---------- the step that writes a slot ----------

  /** While a slot is still owed, no task is submitted, and the slot is not owed twice. */
  lemma OwedSlot(s: State, k: nat)
    requires DataInv(s) && Enabled(s, Store(k))
    ensures var slots := s.live[k].slots;
            && s.request.InRange(slots[0]) && s.At(slots[0]) == "" && !Complete(s)
            && Debts(s, IdOf(slots[0])) == 1 && slots[0] !in slots[1..]
  {
    var slots := s.live[k].slots;
    var slot := slots[0];
    assert JobOk(s, s.live[k]);
    TotalAtLeast(s.live, k, IdOf(slot));
    OwesSlotsCons(slots, IdOf(slot));
    assert DebtOk(s, slot);
    assert multiset(slots[1..])[slot] == 0;
    if slot.In? {
      assert !Delivered(s, slot.i);
    }
  }

  /** Writing one slot disturbs no job. */
  lemma StoredJob(s: State, t: State, slot: Slot, j: Job)
    requires s.Sized() && JobOk(s, j) && !Complete(s) && s.request.InRange(slot) && s.At(slot) == ""
    requires t.Sized() && t.request == s.request && t.server == s.server && t.issued == s.issued
    requires Known(t, slot, t.At(slot)) && t.At(slot) != ""
    requires forall other :: s.request.InRange(other) && other != slot ==> t.At(other) == s.At(other)
    ensures JobOk(t, j)
  {
    hide Complete;
    match j
    case Write(slots, reply, inlined) =>
      forall other | other in slots ensures t.request.InRange(other) && Promised(t, other, reply, inlined) {
        assert Promised(s, other, reply, inlined);
      }
    case Upload(i) =>
      assert t.At(In(i)) == t.inputs[i] && s.At(In(i)) == s.inputs[i];
    case _ =>
  }

  lemma StoredRest(s: State, t: State, slots: seq<Slot>, reply: map<string, Id>, inlined: bool)
    requires s.Sized() && t.Sized() && slots != [] && JobOk(s, Write(slots, reply, inlined)) && slots[0] !in slots[1..]
    requires t.request == s.request && t.server == s.server && t.issued == s.issued
    ensures JobOk(t, Write(slots[1..], reply[SlotName(slots[0]) := ""], inlined))
  {
    hide Known, SlotName;
    var left := reply[SlotName(slots[0]) := ""];
    forall slot | slot in slots[1..] ensures t.request.InRange(slot) && Promised(t, slot, left, inlined) {
      assert Promised(s, slot, reply, inlined);
      if SlotName(slot) == SlotName(slots[0]) {
        SlotNameInjective(slot, slots[0]);
      }
      KnownSame(s, t, slot, reply[SlotName(slot)]);
    }
  }

  lemma KnownSame(s: State, t: State, slot: Slot, id: Id)
    requires Known(s, slot, id) && t.server == s.server && t.issued == s.issued
    ensures Known(t, slot, id)
  {
  }

  lemma StoredArrays(s: State, k: nat)
    requires DataInv(s) && Enabled(s, Store(k))
    ensures var t, slot := Stored(s, k), s.live[k].slots[0];
            && t.Sized() && t.request == s.request && t.server == s.server && t.issued == s.issued && t.tasks == s.tasks
            && t.failed == s.failed && t.phase == s.phase && t.unspawned == s.unspawned
            && s.request.InRange(slot) && t.At(slot) == s.live[k].reply[SlotName(slot)]
            && t.At(slot) != "" && Known(t, slot, t.At(slot))
            && (forall other :: s.request.InRange(other) && other != slot ==> t.At(other) == s.At(other))
            && (slot.In? && s.live[k].inlined ==> Delivered(t, slot.i))
            && (slot.In? && !s.live[k].inlined ==> t.server.results[t.At(slot)].content.None?)
  {
    var slot := s.live[k].slots[0];
    assert JobOk(s, s.live[k]);
    assert Promised(s, slot, s.live[k].reply, s.live[k].inlined);
  }

  lemma StoredJobs(s: State, k: nat)
    requires DataInv(s) && Enabled(s, Store(k))
    ensures Stored(s, k).Sized() && JobsOk(Stored(s, k), Stored(s, k).unspawned) && JobsOk(Stored(s, k), Stored(s, k).live)
  {
    var t, job := Stored(s, k), s.live[k];
    var slot := job.slots[0];
    OwedSlot(s, k);
    StoredArrays(s, k);
    assert JobOk(s, job);
    StoredRest(s, t, job.slots, job.reply, job.inlined);
    hide Complete, Debts, Known, JobOk, DebtOk, DataOk, SlotOk, TaskOk;
    forall m | 0 <= m < |s.live| ensures JobOk(t, s.live[m]) {
      assert JobOk(s, s.live[m]);
      StoredJob(s, t, slot, s.live[m]);
    }
    forall m | 0 <= m < |s.unspawned| ensures JobOk(t, s.unspawned[m]) {
      assert JobOk(s, s.unspawned[m]);
      StoredJob(s, t, slot, s.unspawned[m]);
    }
    var left := Write(job.slots[1..], job.reply[SlotName(slot) := ""], job.inlined);
    ReplaceJob(t, s.live, k, left);
    if slot.In? && !job.inlined {
      UploadOk(t, slot.i);
      AppendJob(t, s.live[k := left], Upload(slot.i));
    }
    assert s.live[k := left] + [] == s.live[k := left];
  }

  lemma UploadOk(t: State, i: nat)
    requires t.Sized() && i < |t.inputs| && t.inputs[i] != "" && Known(t, In(i), t.inputs[i])
    requires t.server.results[t.inputs[i]].content.None?
    ensures JobOk(t, Upload(i))
  {
  }

  lemma StoredTask(s: State, k: nat, i: nat)
    requires DataInv(s) && Enabled(s, Store(k)) && i < |s.tasks|
    ensures Stored(s, k).Sized() && TaskOk(Stored(s, k), i)
  {
    OwedSlot(s, k);
    StoredDebts(s, k, TaskOf(i));
    hide Debts;
    StoredArrays(s, k);
    assert TaskOk(s, i) && s.tasks[i] == "" && s.live[k] in s.live;
  }

  lemma StoredSlot(s: State, k: nat, other: Slot)
    requires DataInv(s) && Enabled(s, Store(k)) && s.request.InRange(other)
    ensures var t := Stored(s, k); t.Sized() && t.request == s.request && SlotOk(t, other) && DebtOk(t, other)
  {
    var t := Stored(s, k);
    OwedSlot(s, k);
    StoredArrays(s, k);
    assert SlotOk(s, other) && DebtOk(s, other);
    StoredDebts(s, k, IdOf(other));
    hide Debts, JobOk, DataOk, TaskOk, JobsOk;
  }

  lemma StoreStep(s: State, k: nat)
    requires DataInv(s) && Enabled(s, Store(k))
    ensures DataInv(Next(s, Store(k)))
  {
    var t := Stored(s, k);
    OwedSlot(s, k);
    StoredArrays(s, k);
    StoredJobs(s, k);
    assert s.live[k] in s.live && !s.live[k].Over?;
    hide Stored, SlotOk, DebtOk, DataOk, JobsOk;
    forall i | 0 <= i < |t.tasks| ensures TaskOk(t, i) {
      StoredTask(s, k, i);
    }
    forall other | t.request.InRange(other) ensures SlotOk(t, other) && DebtOk(t, other) {
      StoredSlot(s, k, other);
    }
    forall i | 0 <= i < |t.inputs| ensures DataOk(t, i) {
      StoredData(s, k, i);
    }
  }

  lemma StoredData(s: State, k: nat, i: nat)
    requires DataInv(s) && Enabled(s, Store(k)) && i < |s.inputs|
    ensures Stored(s, k).Sized() && DataOk(Stored(s, k), i)
  {
    var t, slot := Stored(s, k), s.live[k].slots[0];
    StoredArrays(s, k);
    StoredDebts(s, k, DataOf(i));
    assert DataOk(s, i);
    assert t.At(In(i)) == t.inputs[i] && s.At(In(i)) == s.inputs[i];
    if slot == In(i) && !s.live[k].inlined {
      var left := Write(s.live[k].slots[1..], s.live[k].reply[SlotName(slot) := ""], false);
      TotalSnoc(s.live[k := left], Upload(i), DataOf(i));
    }
  }

  // ---------- the other steps of the client thread ----------

  lemma StoredTaskJob(s: State, t: State, j: Job)
    requires s.Sized() && t.Sized() && t == s.(tasks := t.tasks, live := t.live) && JobOk(s, j)
    ensures JobOk(t, j)
  {
    forall i | 0 <= i < |s.inputs| ensures Delivered(s, i) <==> Delivered(t, i) {
      DeliveredSame(s, t, i);
    }
    assert Complete(s) <==> Complete(t);
    hide Complete, Delivered;
    match j
    case Write(slots, reply, inlined) =>
      forall slot | slot in slots ensures t.request.InRange(slot) && Promised(t, slot, reply, inlined) {
        assert Promised(s, slot, reply, inlined);
      }
    case WriteTasks(targets, ids) =>
      forall m | 0 <= m < |targets| ensures targets[m] < |t.tasks| && ids[m] != "" && TaskKnown(t, targets[m], ids[m]) {
        assert TaskKnown(s, targets[m], ids[m]);
      }
    case _ =>
  }

  lemma StoreTaskStep(s: State, k: nat)
    requires DataInv(s) && Enabled(s, StoreTask(k))
    ensures DataInv(Next(s, StoreTask(k)))
  {
    var t, job := Next(s, StoreTask(k)), s.live[k];
    var left := WriteTasks(job.targets[1..], job.ids[1..]);
    assert JobOk(s, job) && TaskKnown(s, job.targets[0], job.ids[0]);
    assert s.live[k] in s.live && !s.live[k].Over?;
    assert JobOk(s, left) by {
      forall m | 0 <= m < |left.targets|
        ensures left.targets[m] < |s.tasks| && left.ids[m] != "" && TaskKnown(s, left.targets[m], left.ids[m]) {
        assert TaskKnown(s, job.targets[m + 1], job.ids[m + 1]);
      }
    }
    forall d ensures Debts(t, d) + Settled(s, StoreTask(k), d) == Debts(s, d) {
      DebtsNext(s, StoreTask(k), d);
    }
    TotalAtLeast(s.live, k, TaskOf(job.targets[0]));
    OwesTasksCons(job.targets, TaskOf(job.targets[0]));
    StoreTaskRest(s, t, k, left);
  }

  lemma StoreTaskRest(s: State, t: State, k: nat, left: Job)
    requires DataInv(s) && k < |s.live| && s.live[k].WriteTasks? && s.live[k].targets != [] && s.live[k].ids != []
    requires s.live[k].targets[0] < |s.tasks| && JobOk(s, left) && !s.phase.Completed?
    requires s.live[k].ids[0] != "" && TaskKnown(s, s.live[k].targets[0], s.live[k].ids[0])
    requires t == s.(tasks := s.tasks[s.live[k].targets[0] := s.live[k].ids[0]], live := s.live[k := left])
    requires forall d :: Debts(t, d) + (if d == TaskOf(s.live[k].targets[0]) then 1 else 0) == Debts(s, d)
    ensures DataInv(t)
  {
    var target := s.live[k].targets[0];
    hide Debts, Known, JobOk, Delivered;
    ReplaceJob(s, s.live, k, left);
    forall m | 0 <= m < |t.live| ensures JobOk(t, t.live[m]) {
      assert JobOk(s, t.live[m]);
      StoredTaskJob(s, t, t.live[m]);
    }
    forall m | 0 <= m < |t.unspawned| ensures JobOk(t, t.unspawned[m]) {
      assert JobOk(s, s.unspawned[m]);
      StoredTaskJob(s, t, s.unspawned[m]);
    }
    forall slot | t.request.InRange(slot) ensures SlotOk(t, slot) && DebtOk(t, slot) {
      assert SlotOk(s, slot) && DebtOk(s, slot);
      if s.At(slot) != "" {
        KnownSame(s, t, slot, s.At(slot));
      }
    }
    forall i | 0 <= i < |t.inputs| ensures Delivered(s, i) <==> Delivered(t, i) {
      DeliveredSame(s, t, i);
    }
    forall i | 0 <= i < |t.inputs| ensures DataOk(t, i) {
      assert DataOk(s, i);
    }
    assert Complete(s) <==> Complete(t);
    forall i | 0 <= i < |t.tasks| ensures TaskOk(t, i) {
      assert TaskOk(s, i);
    }
  }

  lemma DeliveredSame(s: State, t: State, i: nat)
    requires s.Sized() && t.Sized() && t.request == s.request && t.inputs == s.inputs && t.server == s.server
    requires i < |s.inputs|
    ensures Delivered(s, i) <==> Delivered(t, i)
  {
  }

  /** When Wait lets the client go on, every slot is filled and all data is delivered. */
  lemma BarrierIsComplete(s: State)
    requires DataInv(s) && s.unspawned == [] && !s.failed && forall j :: j in s.live ==> j.Over?
    ensures Complete(s)
    ensures forall d :: Debts(s, d) == 0
  {
    forall d ensures Debts(s, d) == 0 {
      DoneOwesNothing(s.live, d);
    }
    forall i | 0 <= i < |s.inputs| ensures Delivered(s, i) {
      assert DataOk(s, i);
    }
    if s.request.withOutputs {
      forall i | 0 <= i < |s.outputs| ensures s.outputs[i] != "" {
        assert DebtOk(s, Out(i));
        assert s.At(Out(i)) == s.outputs[i];
      }
    }
  }

  lemma {:induction false} TaskJobsOk(s: State, batches: seq<seq<nat>>)
    requires s.Sized() && s.request.withOutputs && Complete(s)
    requires forall i: nat :: i in Flatten(batches) ==> i < |s.tasks|
    ensures JobsOk(s, TaskJobs(batches))
  {
    hide Complete;
    if batches != [] {
      var front, last := batches[..|batches| - 1], batches[|batches| - 1];
      assert Flatten(batches) == Flatten(front) + last;
      forall i: nat | i in Flatten(front) || i in last ensures i < |s.tasks| {
        assert i in Flatten(front) + last;
      }
      TaskJobsOk(s, front);
      assert JobOk(s, SubmitTasks(last));
      AppendJob(s, TaskJobs(front), SubmitTasks(last));
    }
  }

  lemma PassedStep(s: State, batches: seq<seq<nat>>)
    requires DataInv(s) && Enabled(s, Wait(batches)) && !s.failed && forall j :: j in s.live ==> j.Over?
    ensures DataInv(Passed(s, batches))
  {
    var t := Passed(s, batches);
    BarrierIsComplete(s);
    assert Extends(s, t, {});
    ExtendsComplete(s, t, {});
    ExtendsSlots(s, t, {});
    ExtendsJobs(s, t, s.live);
    if s.phase.Creating? && s.request.withOutputs {
      forall i: nat | i in Flatten(batches) ensures i < |s.tasks| {
        assert i in seq(|s.tasks|, k => k);
      }
      TaskJobsOk(t, batches);
      forall d ensures Debts(t, d) == OwesTasks(Flatten(batches), d) {
        TaskDebts(batches, d);
        DoneOwesNothing(t.live, d);
      }
      forall i: nat ensures Debts(t, TaskOf(i)) == if 0 <= i < |s.tasks| then 1 else 0 {
        EachIndexOnce(|s.tasks|, i);
      }
    }
    BarrierRest(s, t);
  }

  lemma JoinChanges(s: State, t: State)
    requires DataInv(s) && (t.phase == s.phase || t.phase.Unwinding?) && t == s.(join := t.join, phase := t.phase)
    ensures DataInv(t)
  {
    hide Keeps, Complete, TaskOk, DataOk, DebtOk, SlotOk, JobOk;
    KeepsItself(s.server, s.issued);
    assert forall d :: Debts(t, d) == Debts(s, d);
    hide Debts;
    QuietStep(s, t);
  }

  lemma KeepsItself(server: Server, ours: set<Id>)
    ensures Keeps(server, server, ours)
  {
  }

  /** A pass of Wait. That nobody failed and nobody is left comes from the join set. */
  lemma WaitStep(s: State, batches: seq<seq<nat>>)
    requires Inv(s) && Enabled(s, Wait(batches))
    ensures DataInv(Next(s, Wait(batches)))
  {
    WaitPassesExactly(s);
    hide DataInv, JoinInv;
    var (join, outcome) := Waited(s.join, CLIENT, ForTasks);
    var t := s.(join := join);
    if outcome == Some(Outcome.Returned) {
      JoinChanges(s, t);
      PassedStep(t, batches);
    } else if outcome.Some? {
      JoinChanges(s, t.(phase := Unwinding));
    } else {
      JoinChanges(s, t);
    }
  }

  lemma BarrierRest(s: State, t: State)
    requires DataInv(s) && t.Sized() && Complete(s) && Complete(t) && Active(s) && !s.failed && (forall d :: Debts(s, d) == 0)
    requires (forall j :: j in s.live ==> j.Over?) && s.unspawned == []
    requires t == s.(phase := t.phase, unspawned := t.unspawned) && JobsOk(t, t.unspawned) && JobsOk(t, t.live)
    requires forall slot :: s.request.InRange(slot) && SlotOk(s, slot) ==> SlotOk(t, slot)
    requires forall i, id :: 0 <= i < |s.tasks| && TaskKnown(s, i, id) ==> TaskKnown(t, i, id)
    requires if s.phase.Creating? && s.request.withOutputs
             then t.phase.Submitting?
               && (forall slot :: Debts(t, IdOf(slot)) == 0) && (forall i: nat :: Debts(t, DataOf(i)) == 0)
               && forall i: nat :: Debts(t, TaskOf(i)) == if 0 <= i < |s.tasks| then 1 else 0
             else t.phase.Completed? && t.unspawned == []
    ensures DataInv(t)
  {
    hide JobsOk, TaskKnown, SlotOk;
    assert t.phase.Completed? ==> forall d :: Debts(t, d) == Debts(s, d);
    hide Debts;
    forall slot | t.request.InRange(slot) ensures SlotOk(t, slot) && DebtOk(t, slot) {
      assert SlotOk(s, slot) && DebtOk(s, slot);
    }
    forall i | 0 <= i < |t.inputs| ensures DataOk(t, i) {
      assert Delivered(t, i);
    }
    hide Complete;
    forall i | 0 <= i < |t.tasks| ensures TaskOk(t, i) {
      assert TaskOk(s, i);
    }
  }

  // ---------- every run ----------

  lemma {:induction false} EmittedInLog(log: seq<Emission>, k: nat, slot: Slot)
    requires k < |log| && slot in log[k].slots
    ensures EmittedSlots(log)[slot] > 0
  {
    if k < |log| - 1 {
      EmittedInLog(log[..|log| - 1], k, slot);
    }
  }

  lemma {:induction false} CreationJobAt(log: seq<Emission>)
    ensures |CreationJobs(log)| == |log|
    ensures forall k :: 0 <= k < |log| ==> CreationJobs(log)[k] == Create(log[k].slots, log[k].inlined)
  {
    if log != [] {
      CreationJobAt(log[..|log| - 1]);
    }
  }

  lemma StartJobs(request: Request, server: Server, chunkMax: nat, limit: nat)
    ensures var s := Start(request, server, chunkMax, limit);
            s.Sized() && JobsOk(s, s.unspawned) && JobsOk(s, s.live)
  {
    var s := Start(request, server, chunkMax, limit);
    var c := Config(Sizes(request.payloads), chunkMax, limit, request.withOutputs);
    var log := PlanLog(c);
    PlanCoversOnce(c);
    CreationJobAt(log);
    hide EmittedSlots, PlanLog, CreationJobs;
    forall k | 0 <= k < |s.unspawned| ensures JobOk(s, s.unspawned[k]) {
      forall slot | slot in log[k].slots ensures request.InRange(slot) {
        EmittedInLog(log, k, slot);
      }
    }
  }

  lemma StartDebts(request: Request, server: Server, chunkMax: nat, limit: nat, slot: Slot)
    ensures var s := Start(request, server, chunkMax, limit);
            && Debts(s, IdOf(slot)) == (if request.InRange(slot) then 1 else 0)
            && Debts(s, TaskOf(slot.i)) == 0
            && (slot.In? ==> Debts(s, DataOf(slot.i)) == if request.InRange(slot) then 1 else 0)
  {
    var c := Config(Sizes(request.payloads), chunkMax, limit, request.withOutputs);
    PlanCoversOnce(c);
    CreationDebts(PlanLog(c), slot);
    hide EmittedSlots, PlanLog, CreationJobs;
  }

  lemma InvStart(request: Request, server: Server, chunkMax: nat, limit: nat)
    requires request.Valid()
    ensures Inv(Start(request, server, chunkMax, limit))
  {
    JoinStart(request, server, chunkMax, limit);
    hide JoinInv;
    var s := Start(request, server, chunkMax, limit);
    StartJobs(request, server, chunkMax, limit);
    forall slot: Slot ensures Debts(s, IdOf(slot)) == (if request.InRange(slot) then 1 else 0)
                     && Debts(s, TaskOf(slot.i)) == 0
                     && (slot.In? ==> Debts(s, DataOf(slot.i)) == if request.InRange(slot) then 1 else 0) {
      StartDebts(request, server, chunkMax, limit, slot);
    }
    hide Debts, JobsOk, PlanLog, CreationJobs;
    forall i | 0 <= i < |s.inputs| ensures DataOk(s, i) && TaskOk(s, i) {
      assert request.InRange(In(i)) && Debts(s, DataOf(In(i).i)) == 1 && Debts(s, TaskOf(In(i).i)) == 0;
    }
  }

  lemma InvStep(s: State, step: Step)
    requires Inv(s) && Enabled(s, step)
    ensures Inv(Next(s, step))
  {
    JoinStep(s, step);
    hide DataInv, JoinInv;
    match step
    case Spawn => SpawnStep(s);
    case Fail(k) => FailStep(s, k);
    case Answer(k, reply, server) => AnswerStep(s, k, reply, server);
    case Store(k) => StoreStep(s, k);
    case Uploaded(k, server) => UploadedStep(s, k, server);
    case AnswerTasks(k, ids, server) => AnswerTasksStep(s, k, ids, server);
    case StoreTask(k) => StoreTaskStep(s, k);
    case End(_) => OthersStep(s, step);
    case Wait(batches) => WaitStep(s, batches);
    case Unwind => OthersStep(s, step);
    case Others(_) => OthersStep(s, step);
  }

  lemma {:induction false} InvRun(s: State, steps: seq<Step>)
    requires Inv(s) && IsRun(s, steps)
    ensures Inv(After(s, steps)) && After(s, steps).request == s.request
    decreases |steps|
  {
    hide Inv, Enabled;
    if steps != [] {
      InvStep(s, steps[0]);
      InvRun(Next(s, steps[0]), steps[1..]);
    }
  }

  lemma ReachableInv(request: Request, server: Server, chunkMax: nat, limit: nat, s: State)
    requires request.Valid() && Reachable(Start(request, server, chunkMax, limit), s)
    ensures Inv(s) && s.request == request
  {
    hide Inv;
    var start := Start(request, server, chunkMax, limit);
    InvStart(request, server, chunkMax, limit);
    var steps :| IsRun(start, steps) && After(start, steps) == s;
    InvRun(start, steps);
  }
}
