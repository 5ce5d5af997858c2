/** Runs of the submission machine, step by step, beside the variables of the code that makes them. */
module SubmissionRuns {
  import opened Prelude
  import opened Batching
  import opened JoinSets
  import opened Submission
  import opened SubmissionJoin
  import opened SubmissionProofs

  ghost predicate Leads(s: State, steps: seq<Step>, t: State) {
    IsRun(s, steps) && After(s, steps) == t
  }

  lemma {:induction false} LeadsOn(s: State, steps: seq<Step>, t: State, step: Step)
    requires Leads(s, steps, t) && Enabled(t, step)
    ensures Leads(s, steps + [step], Next(t, step))
    decreases |steps|
  {
    hide Enabled, Next;
    if steps == [] {
      assert t == s && steps + [step] == [step] && [step][1..] == [];
      assert IsRun(Next(s, step), []) && After(Next(s, step), []) == Next(s, step);
    } else {
      LeadsOn(Next(s, steps[0]), steps[1..], t, step);
      assert (steps + [step])[1..] == steps[1..] + [step];
    }
  }

  lemma {:induction false} LeadsFurther(s: State, a: seq<Step>, t: State, b: seq<Step>, u: State)
    requires Leads(s, a, t) && Leads(t, b, u)
    ensures Leads(s, a + b, u)
    decreases |a|
  {
    hide Enabled, Next;
    if a == [] {
      assert a + b == b;
    } else {
      LeadsFurther(Next(s, a[0]), a[1..], t, b, u);
      assert (a + b)[1..] == a[1..] + b;
    }
  }

  lemma LeadsNowhere(s: State)
    ensures Leads(s, [], s)
  {
  }

  /** The variables that the machine shares with the code. */
  datatype Picture = Picture(r: Request, server: Server, join: Join, ins: seq<Id>, outs: seq<Id>, ts: seq<Id>)

  ghost predicate Mirrors(t: State, p: Picture) {
    && Inv(t) && t.request == p.r && t.server == p.server && t.join == p.join
    && t.inputs == p.ins && t.outputs == p.outs && t.tasks == p.ts
  }

  /** All jobs but one are over. */
  ghost predicate OnlyBusy(t: State, k: nat) {
    k < |t.live| && !t.live[k].Over? && forall m :: 0 <= m < |t.live| && m != k ==> t.live[m].Over?
  }

  ghost predicate Idle(t: State) {
    forall m :: 0 <= m < |t.live| ==> t.live[m].Over?
  }

  /** What running one job leaves alone. */
  ghost predicate SameBut(s: State, t: State, ok: bool) {
    t.unspawned == s.unspawned && t.phase == s.phase && t.failed == (s.failed || !ok)
  }

  lemma SameTwice(s: State, t: State, u: State, a: bool, b: bool)
    requires SameBut(s, t, a) && SameBut(t, u, b)
    ensures SameBut(s, u, a && b)
  {
  }

  /** The same for a job that was still to be spawned. */
  ghost predicate RanFirst(s: State, t: State, ok: bool) {
    s.unspawned != [] && t.unspawned == s.unspawned[1..] && t.phase == s.phase && t.failed == (s.failed || !ok)
  }

  lemma SpawnedIsBusy(t: State, u: State)
    requires Idle(t) && t.unspawned != [] && u.live == t.live + [t.unspawned[0]] && !t.unspawned[0].Over?
    ensures OnlyBusy(u, |t.live|) && u.live[|t.live|] == t.unspawned[0]
  {
  }

  lemma BusyStays(u: State, v: State, k: nat, j: Job)
    requires OnlyBusy(u, k) && v.live == u.live[k := j]
    ensures v.live[k] == j && if j.Over? then Idle(v) else OnlyBusy(v, k)
  {
  }

  // ---------- the steps of any job ----------

  lemma SpawnAdvances(t: State, steps: seq<Step>, u: State, p: Picture)
    requires Leads(t, steps, u) && Mirrors(u, p) && Active(u) && u.unspawned != []
    ensures Enabled(u, Spawn) && !u.unspawned[0].Over?
    ensures var v := Next(u, Spawn);
            && Leads(t, steps + [Spawn], v) && Mirrors(v, p.(join := Incremented(p.join)))
            && v.unspawned == u.unspawned[1..] && v.live == u.live + [u.unspawned[0]]
            && v.phase == u.phase && v.failed == u.failed
  {
    LeadsOn(t, steps, u, Spawn);
    InvStep(u, Spawn);
    hide Leads, DataInv;
  }

  lemma FailAdvances(t: State, steps: seq<Step>, u: State, k: nat, p: Picture)
    requires Leads(t, steps, u) && Mirrors(u, p)
    requires k < |u.live| && (u.live[k].Create? || u.live[k].Upload? || u.live[k].SubmitTasks?)
    ensures Enabled(u, Fail(k))
    ensures var v := Next(u, Fail(k));
            && Leads(t, steps + [Fail(k)], v) && SameBut(u, v, false)
            && Mirrors(v, p.(join := ErrorRecorded(p.join, k))) && v.live == u.live[k := Ended]
  {
    LeadsOn(t, steps, u, Fail(k));
    InvStep(u, Fail(k));
    hide Leads, Inv;
  }

  lemma EndAdvances(t: State, steps: seq<Step>, u: State, k: nat, p: Picture)
    requires Leads(t, steps, u) && Mirrors(u, p) && k < |u.live| && Finished(u.live[k])
    ensures Enabled(u, End(k)) && p.join.count > 0
    ensures var v := Next(u, End(k));
            && Leads(t, steps + [End(k)], v) && SameBut(u, v, true)
            && Mirrors(v, p.(join := Decremented(p.join))) && v.live == u.live[k := Over]
  {
    assert u.live[k] in u.live;
    UnfinishedNone(u.live);
    assert Enabled(u, End(k));
    LeadsOn(t, steps, u, End(k));
    InvStep(u, End(k));
    hide Leads, Inv;
  }

  // ---------- creating results ----------

  lemma CanStore(u: State, k: nat)
    requires Inv(u) && k < |u.live| && u.live[k].Write? && u.live[k].slots != []
    ensures Enabled(u, Store(k))
  {
    assert JobOk(u, u.live[k]) && u.live[k].slots[0] in u.live[k].slots;
  }

  /** The job after one of its slots is stored. */
  function Less(j: Job): Job
    requires j.Write? && j.slots != []
  {
    Write(j.slots[1..], j.reply[SlotName(j.slots[0]) := ""], j.inlined)
  }

  /** The slot that is next, and the id for it. */
  lemma StoreAdvances(t: State, steps: seq<Step>, u: State, k: nat, p: Picture)
    requires Leads(t, steps, u) && Mirrors(u, p) && k < |u.live| && u.live[k].Write? && u.live[k].slots != []
    ensures Enabled(u, Store(k))
    ensures var v, job := Next(u, Store(k)), u.live[k];
            var slot := job.slots[0];
            var nested := slot.In? && !job.inlined;
            && |p.ins| == |p.outs| == |p.r.payloads| && p.r.InRange(slot) && SlotName(slot) in job.reply
            && Leads(t, steps + [Store(k)], v) && SameBut(u, v, true)
            && Mirrors(v, p.(ins := if slot.In? then p.ins[slot.i := job.reply[SlotName(slot)]] else p.ins,
                             outs := if slot.Out? then p.outs[slot.i := job.reply[SlotName(slot)]] else p.outs,
                             join := if nested then Incremented(p.join) else p.join))
            && v.live == u.live[k := Less(job)] + (if nested then [Upload(slot.i)] else [])
  {
    CanStore(u, k);
    LeadsOn(t, steps, u, Store(k));
    InvStep(u, Store(k));
    var slot := u.live[k].slots[0];
    assert JobOk(u, u.live[k]) && slot in u.live[k].slots;
    hide Leads;
  }

  /** The data of a large input has arrived. */
  lemma UploadAdvances(t: State, steps: seq<Step>, u: State, k: nat, i: nat, after: Server, p: Picture)
    requires Leads(t, steps, u) && Mirrors(u, p) && k < |u.live| && u.live[k] == Upload(i)
    requires i < |p.ins| == |p.r.payloads| && p.ins[i] in p.server.results
    requires var id := p.ins[i];
             after == p.server.(results := p.server.results[id := p.server.results[id].(content := Some(p.r.payloads[i]))])
    ensures Enabled(u, Uploaded(k, after))
    ensures var v := Next(u, Uploaded(k, after));
            && Leads(t, steps + [Uploaded(k, after)], v) && SameBut(u, v, true)
            && Mirrors(v, p.(server := after)) && v.live == u.live[k := Ended]
  {
    assert JobOk(u, u.live[k]);
    LeadsOn(t, steps, u, Uploaded(k, after));
    InvStep(u, Uploaded(k, after));
    hide Leads, Inv;
  }

  /** A batch names no slot twice, and only slots there are. */
  lemma BatchIsDistinct(u: State, k: nat)
    requires Inv(u) && k < |u.live| && u.live[k].Create?
    ensures var batch := u.live[k].batch;
            && (forall a :: 0 <= a < |batch| ==> u.request.InRange(batch[a]))
            && (forall a, b :: 0 <= a < b < |batch| ==> batch[a] != batch[b])
            && (forall a, b :: 0 <= a < b < |batch| ==> SlotName(batch[a]) != SlotName(batch[b]))
  {
    var batch := u.live[k].batch;
    assert JobOk(u, u.live[k]);
    assert forall slot :: u.request.InRange(slot) ==> DebtOk(u, slot) && Debts(u, IdOf(slot)) <= 1;
    assert forall slot :: slot in batch ==> u.request.InRange(slot);
    hide Inv, DebtOk, SlotOk;
    forall a, b | 0 <= a < b < |batch| ensures batch[a] != batch[b] && SlotName(batch[a]) != SlotName(batch[b]) {
      if batch[a] == batch[b] {
        TwiceInMultiset(batch, a, b);
        TotalAtLeast(u.live, k, IdOf(batch[a]));
      }
      if SlotName(batch[a]) == SlotName(batch[b]) {
        SlotNameInjective(batch[a], batch[b]);
      }
    }
  }

  /** The results for these slots are there under the ids of the reply. */
  ghost predicate Answered(server: Server, slots: seq<Slot>, reply: map<string, Id>) {
    forall slot :: slot in slots ==> SlotName(slot) in reply && reply[SlotName(slot)] in server.results
  }

  function Names(batch: seq<Slot>): seq<string> {
    seq(|batch|, j requires 0 <= j < |batch| => SlotName(batch[j]))
  }

  /** What CreateResults promises. */
  ghost predicate CreatedFor(
    batch: seq<Slot>, inlined: bool, r: Request, server: Server, reply: map<string, Id>, after: Server) {
    && after.tasks == server.tasks
    && (forall id :: id in server.results ==> id in after.results && after.results[id] == server.results[id])
    && (forall n :: n in reply <==> n in Names(batch))
    && forall a :: 0 <= a < |batch| ==>
         && r.InRange(batch[a]) && SlotName(batch[a]) in reply
         && var id := reply[SlotName(batch[a])];
            && id != "" && id !in server.results && id in after.results
            && after.results[id] == Record(SlotName(batch[a]), ContentOf(r, batch[a], inlined))
  }

  lemma NamesOfBatch(batch: seq<Slot>)
    ensures (set n | n in Names(batch)) == (set slot | slot in batch :: SlotName(slot))
  {
    var names := Names(batch);
    forall n ensures n in names <==> n in (set slot | slot in batch :: SlotName(slot)) {
      if n in names {
        var j :| 0 <= j < |names| && names[j] == n;
        assert batch[j] in batch;
      }
      if slot :| slot in batch && SlotName(slot) == n {
        var j :| 0 <= j < |batch| && batch[j] == slot;
        assert names[j] == n;
      }
    }
    hide SlotName;
  }

  /** It is what the machine expects of an answer. */
  lemma CreatedAnswers(u: State, batch: seq<Slot>, inlined: bool, reply: map<string, Id>, after: Server)
    requires CreatedFor(batch, inlined, u.request, u.server, reply, after)
    ensures Answers(u, batch, inlined, reply, after) && Answered(after, batch, reply)
  {
    hide SlotName, Names, ContentOf;
    NamesOfBatch(batch);
    assert reply.Keys == (set n | n in Names(batch));
    forall slot | slot in batch
      ensures exists a :: 0 <= a < |batch| && batch[a] == slot {
    }
  }

  lemma AnswerAdvances(
    t: State, steps: seq<Step>, u: State, k: nat, reply: map<string, Id>, after: Server, p: Picture)
    requires Leads(t, steps, u) && Mirrors(u, p) && k < |u.live| && u.live[k].Create?
    requires CreatedFor(u.live[k].batch, u.live[k].inlined, p.r, p.server, reply, after)
    ensures Enabled(u, Answer(k, reply, after))
    ensures var v := Next(u, Answer(k, reply, after));
            && Leads(t, steps + [Answer(k, reply, after)], v) && SameBut(u, v, true) && Mirrors(v, p.(server := after))
            && v.live == u.live[k := Write(u.live[k].batch, reply, u.live[k].inlined)]
            && Answered(after, u.live[k].batch, reply)
  {
    hide Answers, CreatedFor, Answered;
    CreatedAnswers(u, u.live[k].batch, u.live[k].inlined, reply, after);
    LeadsOn(t, steps, u, Answer(k, reply, after));
    InvStep(u, Answer(k, reply, after));
    hide Leads, Inv;
  }

  /** The slots that are left, and their ids in the reply of the job. */
  ghost predicate Left(j: Job, slots: seq<Slot>, reply: map<string, Id>, inlined: bool) {
    && j.Write? && j.slots == slots && j.inlined == inlined
    && forall slot :: slot in slots ==>
         SlotName(slot) in j.reply && SlotName(slot) in reply && j.reply[SlotName(slot)] == reply[SlotName(slot)]
  }

  lemma LeftLess(j: Job, slots: seq<Slot>, reply: map<string, Id>, inlined: bool)
    requires Left(j, slots, reply, inlined) && slots != [] && slots[0] !in slots[1..]
    ensures Left(Less(j), slots[1..], reply, inlined)
  {
    forall slot | slot in slots[1..] ensures SlotName(slot) != SlotName(slots[0]) {
      if SlotName(slot) == SlotName(slots[0]) {
        SlotNameInjective(slot, slots[0]);
      }
    }
  }

  lemma WriteBegins(t: State, k: nat, slots: seq<Slot>, reply: map<string, Id>, inlined: bool, server: Server)
    requires k < |t.live| && t.live[k] == Write(slots, reply, inlined) && Answered(server, slots, reply)
    ensures Left(t.live[k], slots, reply, inlined)
  {
  }

  lemma WriteEnds(u: State, k: nat, reply: map<string, Id>, inlined: bool)
    requires OnlyBusy(u, k) && Left(u.live[k], [], reply, inlined)
    ensures Finished(u.live[k])
  {
  }

  lemma SlotLeft(j: Job, slots: seq<Slot>, reply: map<string, Id>, inlined: bool, server: Server)
    requires Left(j, slots, reply, inlined) && Answered(server, slots, reply) && slots != []
    ensures j.Write? && j.slots == slots && j.inlined == inlined
    ensures var name := SlotName(slots[0]);
            name in reply && name in j.reply && j.reply[name] == reply[name] && reply[name] in server.results
  {
    assert slots[0] in slots;
  }

  lemma AnsweredLess(server: Server, after: Server, slots: seq<Slot>, reply: map<string, Id>)
    requires slots != [] && Answered(server, slots, reply) && server.results.Keys <= after.results.Keys
    ensures Answered(after, slots[1..], reply)
  {
    assert forall slot :: slot in slots[1..] ==> slot in slots;
  }

  // ---------- submitting tasks ----------

  /** The requests for a batch of tasks, from what is in the arrays. */
  function Requests(r: Request, batch: seq<nat>, ins: seq<Id>, outs: seq<Id>): seq<TaskRecord>
    requires |r.payloads| == |ins| == |outs| == |r.dependencies| && forall i :: i in batch ==> i < |ins|
  {
    seq(|batch|, j requires 0 <= j < |batch| =>
      assert batch[j] in batch;
      TaskRecord(ins[batch[j]], [outs[batch[j]]], r.dependencies[batch[j]], r.options))
  }

  ghost predicate TasksCreated(requests: seq<TaskRecord>, server: Server, ids: seq<Id>, after: Server) {
    && after.results == server.results && |ids| == |requests|
    && (forall t :: t in server.tasks ==> t in after.tasks && after.tasks[t] == server.tasks[t])
    && forall k :: 0 <= k < |ids| ==>
         ids[k] != "" && ids[k] !in server.tasks && ids[k] in after.tasks && after.tasks[ids[k]] == requests[k]
  }

  lemma BatchInRange(u: State, k: nat)
    requires Inv(u) && k < |u.live| && u.live[k].SubmitTasks?
    ensures u.request.withOutputs && |u.request.dependencies| == |u.request.payloads| == |u.inputs| == |u.outputs| == |u.tasks|
    ensures forall i :: i in u.live[k].indices ==> i < |u.tasks|
  {
    assert JobOk(u, u.live[k]);
  }

  lemma TasksAccepted(u: State, k: nat, ids: seq<Id>, after: Server)
    requires Inv(u) && k < |u.live| && u.live[k].SubmitTasks?
    requires forall i :: i in u.live[k].indices ==> i < |u.inputs|
    requires |u.request.payloads| == |u.inputs| == |u.outputs| == |u.request.dependencies|
    requires TasksCreated(Requests(u.request, u.live[k].indices, u.inputs, u.outputs), u.server, ids, after)
    ensures Enabled(u, AnswerTasks(k, ids, after))
  {
    assert JobOk(u, u.live[k]);
    var batch := u.live[k].indices;
    assert u.Sized() && u.request.Valid() && u.request.withOutputs;
    hide Inv, JobOk;
    forall j | 0 <= j < |batch|
      ensures batch[j] < |u.tasks| && after.tasks[ids[j]] == TaskRequest(u, batch[j])
    {
      assert batch[j] in batch;
    }
  }

  lemma TasksAdvance(t: State, steps: seq<Step>, u: State, k: nat, ids: seq<Id>, after: Server, p: Picture)
    requires Leads(t, steps, u) && Mirrors(u, p) && k < |u.live| && u.live[k].SubmitTasks?
    requires |p.r.payloads| == |p.ins| == |p.outs| == |p.r.dependencies|
    requires forall i :: i in u.live[k].indices ==> i < |p.ins|
    requires TasksCreated(Requests(p.r, u.live[k].indices, p.ins, p.outs), p.server, ids, after)
    ensures Enabled(u, AnswerTasks(k, ids, after))
    ensures var v := Next(u, AnswerTasks(k, ids, after));
            && Leads(t, steps + [AnswerTasks(k, ids, after)], v) && SameBut(u, v, true) && Mirrors(v, p.(server := after))
            && v.live == u.live[k := WriteTasks(u.live[k].indices, ids)]
  {
    TasksAccepted(u, k, ids, after);
    LeadsOn(t, steps, u, AnswerTasks(k, ids, after));
    InvStep(u, AnswerTasks(k, ids, after));
    hide Leads, Inv, AcceptsTasks, Requests, TasksCreated;
  }

  lemma StoreTaskAdvances(t: State, steps: seq<Step>, u: State, k: nat, p: Picture)
    requires Leads(t, steps, u) && Mirrors(u, p)
    requires k < |u.live| && u.live[k].WriteTasks? && u.live[k].targets != [] && u.live[k].ids != []
    ensures Enabled(u, StoreTask(k)) && u.live[k].targets[0] < |p.ts|
    ensures var v, job := Next(u, StoreTask(k)), u.live[k];
            && Leads(t, steps + [StoreTask(k)], v) && SameBut(u, v, true)
            && Mirrors(v, p.(ts := p.ts[job.targets[0] := job.ids[0]]))
            && v.live == u.live[k := WriteTasks(job.targets[1..], job.ids[1..])]
  {
    assert JobOk(u, u.live[k]);
    LeadsOn(t, steps, u, StoreTask(k));
    InvStep(u, StoreTask(k));
    hide Leads, Inv, JobOk;
  }

  // ---------- the client thread ----------

  lemma {:induction false} TaskJobAt(batches: seq<seq<nat>>)
    ensures |TaskJobs(batches)| == |batches|
    ensures forall k :: 0 <= k < |batches| ==> TaskJobs(batches)[k] == SubmitTasks(batches[k])
  {
    if batches != [] {
      TaskJobAt(batches[..|batches| - 1]);
    }
  }

  lemma Begins(r: Request, server: Server, chunkMax: nat, limit: nat, log: seq<Emission>, blank: seq<Id>)
    requires r.Valid() && log == PlanLog(Config(Sizes(r.payloads), chunkMax, limit, r.withOutputs))
    requires |blank| == |r.payloads| && forall i :: 0 <= i < |blank| ==> blank[i] == ""
    ensures var s := Start(r, server, chunkMax, limit);
            && Mirrors(s, Picture(r, server, EmptyJoin(), blank, blank, blank)) && Idle(s) && s.live == []
            && s.unspawned == CreationJobs(log) && !s.failed && s.phase == Creating && Leads(s, [], s)
  {
    InvStart(r, server, chunkMax, limit);
    assert blank == Blank(|r.payloads|);
    hide Inv;
  }

  lemma IdleIsOver(u: State)
    requires Idle(u)
    ensures forall j :: j in u.live ==> j.Over?
  {
  }

  /** Wait returns: the tasks are next, if there are any; else all is done. */
  lemma WaitReturns(t: State, steps: seq<Step>, u: State, batches: seq<seq<nat>>, p: Picture)
    requires Leads(t, steps, u) && Mirrors(u, p) && Active(u) && Idle(u) && u.unspawned == [] && !u.failed
    requires u.phase.Creating? && p.r.withOutputs ==> Flatten(batches) == seq(|p.ts|, i => i)
    ensures Enabled(u, Wait(batches))
    ensures var v := Next(u, Wait(batches));
            var (join, outcome) := Waited(p.join, CLIENT, ForTasks);
            && outcome == Some(Outcome.Returned)
            && Leads(t, steps + [Wait(batches)], v) && Mirrors(v, p.(join := join)) && Idle(v) && !v.failed
            && v.live == u.live
            && (if u.phase.Creating? && p.r.withOutputs then v.phase == Submitting && v.unspawned == TaskJobs(batches)
                else v.phase == Completed)
  {
    IdleIsOver(u);
    WaitPassesExactly(u);
    LeadsOn(t, steps, u, Wait(batches));
    InvStep(u, Wait(batches));
    hide Leads, Inv, TaskJobs;
  }

  /** Wait throws, and the destructor of the join set finds all tasks gone. */
  lemma WaitThrows(t: State, steps: seq<Step>, u: State, batches: seq<seq<nat>>, p: Picture)
    requires Leads(t, steps, u) && Mirrors(u, p) && Active(u) && Idle(u) && u.unspawned == [] && u.failed
    requires u.phase.Creating? && p.r.withOutputs ==> Flatten(batches) == seq(|p.ts|, i => i)
    ensures Enabled(u, Wait(batches)) && Enabled(Next(u, Wait(batches)), Unwind)
    ensures var v := Next(Next(u, Wait(batches)), Unwind);
            var (join, outcome) := Waited(p.join, CLIENT, ForTasks);
            var (last, left) := Waited(join, CLIENT, ForDestruction);
            && outcome.Some? && outcome.value.Rethrown? && left == Some(Outcome.Returned)
            && Leads(t, steps + [Wait(batches)] + [Unwind], v) && Mirrors(v, p.(join := last)) && v.phase == Aborted
  {
    IdleIsOver(u);
    WaitPassesExactly(u);
    LeadsOn(t, steps, u, Wait(batches));
    InvStep(u, Wait(batches));
    var v := Next(u, Wait(batches));
    hide DataInv, TaskJobs;
    assert v.phase.Unwinding? && v.live == u.live;
    UnwindPassesExactly(v);
    LeadsOn(t, steps + [Wait(batches)], v, Unwind);
    InvStep(v, Unwind);
    hide Leads, JoinInv;
  }
}
