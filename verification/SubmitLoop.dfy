/**
 * A submission from its first line to its last, one function after the other, with its arrays and its join set, against
 * a server that answers as it should: one of the schedules of Submission.
 */
module SubmitLoop {
  import opened Prelude
  import opened Batching
  import opened BatchingProofs
  import opened JoinSets
  import opened Upload
  import opened Submission
  import opened SubmissionProofs
  import opened SubmissionTheorems
  import opened SubmissionRuns
  import opened ServerStore
  import opened SessionMaps
  import opened SessionMapsProofs

  // ---------- one upload ----------

  /** One of the attempts at an upload is good. */
  predicate GoodUpload(data: string, limit: nat, attempts: seq<Attempt>)
    requires limit > 0 && |attempts| == MAX_RETRY
  {
    exists k :: 0 <= k < MAX_RETRY && Good(data, limit, attempts[k])
  }

  /** The function spawned for a large input: the server has the data exactly when an attempt is good. */
  method UploadJob(store: Store, id: Id, data: string, limit: nat, attempts: seq<Attempt>) returns (ok: bool)
    requires store.Valid() && id in store.results && limit > 0 && |attempts| == MAX_RETRY
    modifies store
    ensures store.Valid() && store.tasks == old(store.tasks)
    ensures ok <==> GoodUpload(data, limit, attempts)
    ensures ok <==> exists k ::
              && 0 <= k < 3
              && attempts[k].channel && (attempts[k].broken.None? || attempts[k].broken.value >= |Chunks(data, limit)|)
              && attempts[k].writesDone && attempts[k].finished && attempts[k].reportedSize == |data|
    ensures store.results == if ok then old(store.results)[id := old(store.results)[id].(content := Some(data))]
                             else old(store.results)
  {
    var sent;
    ok, sent := UploadLargeResult(data, limit, attempts);
    if ok {
      store.UploadData(id, Flatten(sent[|sent| - 1]));
    }
  }

  /**
   * A nested upload, from the task object to its destructor. It ends the job with Uploaded if an attempt is good, and
   * with Fail else. The machine has counted the task already.
   */
  method RunUpload(
    store: Store, joinSet: JoinSet, r: Request, limit: nat, attempts: seq<Attempt>, m: nat, i: nat, id: Id,
    ghost ins: seq<Id>, ghost outs: seq<Id>, ghost ts: seq<Id>, ghost t: State)
    returns (ok: bool, ghost steps: seq<Step>, ghost u: State)
    requires store.Valid() && limit > 0 && |attempts| == MAX_RETRY
    requires Mirrors(t, Picture(r, store.View(), Incremented(joinSet.View()), ins, outs, ts))
    requires m < |t.live| && t.live[m] == Upload(i) && i < |ins| && id == ins[i]
    modifies store, joinSet
    ensures store.Valid() && store.tasks == old(store.tasks) && old(store.results.Keys) <= store.results.Keys
    ensures Mirrors(u, Picture(r, store.View(), joinSet.View(), ins, outs, ts))
    ensures i < |r.payloads| && (ok <==> GoodUpload(r.payloads[i], limit, attempts))
    ensures steps == (if ok then [Uploaded(m, store.View())] else [Fail(m)]) + [End(m)] && Leads(t, steps, u)
    ensures SameBut(t, u, ok) && u.live == t.live[m := Over]
  {
    hide Mirrors, Leads, Enabled, Next, GoodUpload, SameBut;
    ghost var server := store.View();
    UploadIsReady(t, m, Picture(r, server, Incremented(joinSet.View()), ins, outs, ts));
    LeadsNowhere(t);
    var task := new Task(m, joinSet);
    ok := UploadJob(store, id, r.payloads[i], limit, attempts);
    if ok {
      UploadAdvances(t, [], t, m, i, store.View(), Picture(r, server, joinSet.View(), ins, outs, ts));
      steps, u := [] + [Uploaded(m, store.View())], Next(t, Uploaded(m, store.View()));
    } else {
      FailAdvances(t, [], t, m, Picture(r, server, joinSet.View(), ins, outs, ts));
      steps, u := [] + [Fail(m)], Next(t, Fail(m));
      joinSet.RecordError(m);
    }
    EndAdvances(t, steps, u, m, Picture(r, store.View(), joinSet.View(), ins, outs, ts));
    SameTwice(t, u, Next(u, End(m)), ok, true);
    steps, u := steps + [End(m)], Next(u, End(m));
    task.Destroy();
  }

  // ---------- one request to create results ----------

  /** The uploads that a batch leads to are good. */
  predicate UploadsGood(r: Request, limit: nat, slots: seq<Slot>, inlined: bool, uploads: nat -> seq<Attempt>)
    requires limit > 0 && forall i :: |uploads(i)| == MAX_RETRY
  {
    forall slot :: slot in slots && slot.In? && !inlined && slot.i < |r.payloads| ==>
      GoodUpload(r.payloads[slot.i], limit, uploads(slot.i))
  }

  lemma NoUploads(r: Request, limit: nat, inlined: bool, uploads: nat -> seq<Attempt>)
    requires limit > 0 && forall i :: |uploads(i)| == MAX_RETRY
    ensures UploadsGood(r, limit, [], inlined, uploads)
  {
  }

  lemma UploadsGoodSnoc(r: Request, limit: nat, slots: seq<Slot>, j: nat, inlined: bool, uploads: nat -> seq<Attempt>)
    requires limit > 0 && (forall i :: |uploads(i)| == MAX_RETRY) && j < |slots|
    ensures UploadsGood(r, limit, slots[..j + 1], inlined, uploads) <==>
            (&& UploadsGood(r, limit, slots[..j], inlined, uploads)
             && (slots[j].In? && !inlined && slots[j].i < |r.payloads| ==>
                   GoodUpload(r.payloads[slots[j].i], limit, uploads(slots[j].i))))
  {
    assert slots[..j + 1] == slots[..j] + [slots[j]];
  }

  lemma UploadIsReady(t: State, m: nat, p: Picture)
    requires Mirrors(t, p) && m < |t.live| && t.live[m].Upload?
    ensures var i := t.live[m].i; i < |p.ins| == |p.r.payloads| && p.ins[i] in p.server.results
  {
    assert JobOk(t, t.live[m]);
  }

  /** One turn of the loop over the slots, as the machine takes it. */
  lemma SlotAdvances(
    t: State, steps: seq<Step>, u: State, k: nat, slots: seq<Slot>, reply: map<string, Id>, inlined: bool, p: Picture)
    requires Leads(t, steps, u) && Mirrors(u, p) && k < |u.live| && Left(u.live[k], slots, reply, inlined)
    requires Answered(p.server, slots, reply) && slots != [] && slots[0] !in slots[1..]
    ensures Enabled(u, Store(k)) && SlotName(slots[0]) in reply && p.r.InRange(slots[0])
    ensures var v, slot := Next(u, Store(k)), slots[0];
            var id, nested := reply[SlotName(slot)], slot.In? && !inlined;
            && |p.ins| == |p.outs| == |p.r.payloads| && id in p.server.results
            && Leads(t, steps + [Store(k)], v) && SameBut(u, v, true)
            && Mirrors(v, p.(ins := if slot.In? then p.ins[slot.i := id] else p.ins,
                             outs := if slot.Out? then p.outs[slot.i := id] else p.outs,
                             join := if nested then Incremented(p.join) else p.join))
            && |v.live| == |u.live| + (if nested then 1 else 0)
            && Left(v.live[k], slots[1..], reply, inlined) && !v.live[k].Over?
            && (forall m :: 0 <= m < |u.live| && m != k ==> v.live[m] == u.live[m])
            && (nested ==> v.live[|u.live|] == Upload(slot.i))
  {
    SlotLeft(u.live[k], slots, reply, inlined, p.server);
    StoreAdvances(t, steps, u, k, p);
    LeftLess(u.live[k], slots, reply, inlined);
    hide Leads, Mirrors, Enabled, Next, SlotName, Left, Answered, SameBut, Less;
  }

  /** Copies one id into its array; a large input is uploaded as soon as it has its id. */
  method WriteSlot(
    store: Store, joinSet: JoinSet, r: Request, limit: nat, inputs: array<Id>, outputs: array<Id>,
    slots: seq<Slot>, reply: map<string, Id>, inlined: bool, uploads: nat -> seq<Attempt>, jobs: nat,
    ghost ts: seq<Id>, ghost k: nat, ghost t: State)
    returns (ok: bool, spawned: nat, ghost steps: seq<Step>, ghost u: State)
    requires store.Valid() && inputs != outputs && limit > 0 && forall i :: |uploads(i)| == MAX_RETRY
    requires Mirrors(t, Picture(r, store.View(), joinSet.View(), inputs[..], outputs[..], ts))
    requires OnlyBusy(t, k) && Left(t.live[k], slots, reply, inlined) && jobs == |t.live|
    requires Answered(store.View(), slots, reply) && slots != [] && slots[0] !in slots[1..]
    modifies store, joinSet, inputs, outputs
    ensures store.Valid() && store.tasks == old(store.tasks)
    ensures Mirrors(u, Picture(r, store.View(), joinSet.View(), inputs[..], outputs[..], ts))
    ensures Leads(t, steps, u) && SameBut(t, u, ok) && OnlyBusy(u, k) && spawned == |u.live|
    ensures Left(u.live[k], slots[1..], reply, inlined) && Answered(store.View(), slots[1..], reply)
    ensures slots[0].i < |r.payloads|
    ensures ok <==> (slots[0].In? && !inlined ==> GoodUpload(r.payloads[slots[0].i], limit, uploads(slots[0].i)))
  {
    hide Mirrors, Leads, Enabled, Next, Answered, Left, SlotName, GoodUpload;
    ghost var server := store.View();
    LeadsNowhere(t);
    SlotAdvances(t, [], t, k, slots, reply, inlined,
                 Picture(r, server, joinSet.View(), inputs[..], outputs[..], ts));
    ok, spawned, steps, u := true, jobs, [] + [Store(k)], Next(t, Store(k));
    var id := reply[SlotName(slots[0])];
    match slots[0] {
      case Out(i) => outputs[i] := id;
      case In(i) =>
        inputs[i] := id;
        if !inlined {
          ghost var v, on := u, [];
          ok, on, u := RunUpload(store, joinSet, r, limit, uploads(i), spawned, i, id, inputs[..], outputs[..], ts, u);
          LeadsFurther(t, steps, v, on, u);
          SameTwice(t, v, u, true, ok);
          steps, spawned := steps + on, spawned + 1;
        }
    }
    AnsweredLess(server, store.View(), slots, reply);
  }

  /** Copies the ids of a reply into the arrays. */
  method WriteSlots(
    store: Store, joinSet: JoinSet, r: Request, limit: nat, inputs: array<Id>, outputs: array<Id>,
    slots: seq<Slot>, reply: map<string, Id>, inlined: bool, uploads: nat -> seq<Attempt>, jobs: nat,
    ghost ts: seq<Id>, ghost k: nat, ghost t: State)
    returns (ok: bool, spawned: nat, ghost steps: seq<Step>, ghost u: State)
    requires store.Valid() && inputs != outputs && limit > 0 && forall i :: |uploads(i)| == MAX_RETRY
    requires Mirrors(t, Picture(r, store.View(), joinSet.View(), inputs[..], outputs[..], ts))
    requires OnlyBusy(t, k) && t.live[k] == Write(slots, reply, inlined) && jobs == |t.live|
    requires forall a, b :: 0 <= a < b < |slots| ==> slots[a] != slots[b]
    requires Answered(store.View(), slots, reply)
    modifies store, joinSet, inputs, outputs
    ensures store.Valid() && store.tasks == old(store.tasks)
    ensures Mirrors(u, Picture(r, store.View(), joinSet.View(), inputs[..], outputs[..], ts))
    ensures Leads(t, steps, u) && OnlyBusy(u, k) && Finished(u.live[k]) && SameBut(t, u, ok) && spawned == |u.live|
    ensures ok <==> UploadsGood(r, limit, slots, inlined, uploads)
  {
    hide Mirrors, Leads, Enabled, Next, Answered, Left, SlotName, GoodUpload, UploadsGood, Less;
    ok, spawned, steps, u := true, jobs, [], t;
    LeadsNowhere(t);
    WriteBegins(t, k, slots, reply, inlined, store.View());
    assert slots[0..] == slots && slots[..0] == [];
    NoUploads(r, limit, inlined, uploads);
    for j := 0 to |slots|
      invariant store.Valid() && store.tasks == old(store.tasks)
      invariant Mirrors(u, Picture(r, store.View(), joinSet.View(), inputs[..], outputs[..], ts))
      invariant Leads(t, steps, u) && SameBut(t, u, ok) && OnlyBusy(u, k) && spawned == |u.live|
      invariant Left(u.live[k], slots[j..], reply, inlined) && Answered(store.View(), slots[j..], reply)
      invariant ok <==> UploadsGood(r, limit, slots[..j], inlined, uploads)
    {
      assert slots[j..] == [slots[j]] + slots[j + 1..];
      ghost var v, on := u, [];
      var good;
      good, spawned, on, u :=
        WriteSlot(store, joinSet, r, limit, inputs, outputs, slots[j..], reply, inlined, uploads, spawned, ts, k, v);
      LeadsFurther(t, steps, v, on, u);
      UploadsGoodSnoc(r, limit, slots, j, inlined, uploads);
      SameTwice(t, v, u, ok, good);
      ok, steps := ok && good, steps + on;
    }
    assert slots[..|slots|] == slots;
    WriteEnds(u, k, reply, inlined);
  }

  /** The request to the server. */
  method CreateFor(store: Store, r: Request, batch: seq<Slot>, inlined: bool) returns (reply: map<string, Id>)
    requires store.Valid() && forall a :: 0 <= a < |batch| ==> r.InRange(batch[a])
    requires forall a, b :: 0 <= a < b < |batch| ==> SlotName(batch[a]) != SlotName(batch[b])
    modifies store
    ensures store.Valid() && CreatedFor(batch, inlined, r, old(store.View()), reply, store.View())
  {
    hide SlotName, ContentOf;
    var names := Names(batch);
    var contents := seq(|batch|, j requires 0 <= j < |batch| && r.InRange(batch[j]) => ContentOf(r, batch[j], inlined));
    reply := store.CreateResults(names, contents);
    forall a | 0 <= a < |batch|
      ensures SlotName(batch[a]) in reply
      ensures var id := reply[SlotName(batch[a])];
              && id != "" && id !in old(store.results) && id in store.results
              && store.results[id] == Record(SlotName(batch[a]), ContentOf(r, batch[a], inlined))
    {
      assert names[a] == SlotName(batch[a]) && names[a] in names;
    }
  }

  /** The function that the batchers spawn to create results, when its request goes through. */
  method CreateAndWrite(
    store: Store, joinSet: JoinSet, r: Request, limit: nat, inputs: array<Id>, outputs: array<Id>, e: Emission,
    uploads: nat -> seq<Attempt>, jobs: nat, ghost ts: seq<Id>, ghost k: nat, ghost t: State)
    returns (ok: bool, spawned: nat, ghost steps: seq<Step>, ghost u: State)
    requires store.Valid() && inputs != outputs && limit > 0 && forall i :: |uploads(i)| == MAX_RETRY
    requires Mirrors(t, Picture(r, store.View(), joinSet.View(), inputs[..], outputs[..], ts))
    requires OnlyBusy(t, k) && t.live[k] == Create(e.slots, e.inlined) && jobs == |t.live|
    modifies store, joinSet, inputs, outputs
    ensures store.Valid() && store.tasks == old(store.tasks)
    ensures Mirrors(u, Picture(r, store.View(), joinSet.View(), inputs[..], outputs[..], ts))
    ensures Leads(t, steps, u) && OnlyBusy(u, k) && Finished(u.live[k]) && SameBut(t, u, ok) && spawned == |u.live|
    ensures ok <==> UploadsGood(r, limit, e.slots, e.inlined, uploads)
  {
    BatchIsDistinct(t, k);
    LeadsNowhere(t);
    assert t.request == r;
    hide Mirrors, Leads, Enabled, Next, Answered, CreatedFor, SlotName, UploadsGood, Finished;
    ghost var server := store.View();
    var reply := CreateFor(store, r, e.slots, e.inlined);
    AnswerAdvances(t, [], t, k, reply, store.View(), Picture(r, server, joinSet.View(), inputs[..], outputs[..], ts));
    u, steps := Next(t, Answer(k, reply, store.View())), [] + [Answer(k, reply, store.View())];
    BusyStays(t, u, k, Write(e.slots, reply, e.inlined));
    ghost var more, v;
    ok, spawned, more, v :=
      WriteSlots(store, joinSet, r, limit, inputs, outputs, e.slots, reply, e.inlined, uploads, jobs, ts, k, u);
    LeadsFurther(t, steps, u, more, v);
    SameTwice(t, u, v, true, ok);
    u, steps := v, steps + more;
  }

  /** The function that the batchers spawn to create results, from the task object to its destructor. */
  method RunCreation(
    store: Store, joinSet: JoinSet, r: Request, limit: nat, inputs: array<Id>, outputs: array<Id>, e: Emission,
    fails: bool, uploads: nat -> seq<Attempt>, jobs: nat, ghost ts: seq<Id>, ghost t: State)
    returns (ok: bool, spawned: nat, ghost steps: seq<Step>, ghost u: State)
    requires store.Valid() && inputs != outputs && limit > 0 && forall i :: |uploads(i)| == MAX_RETRY
    requires Mirrors(t, Picture(r, store.View(), joinSet.View(), inputs[..], outputs[..], ts))
    requires Active(t) && Idle(t) && t.unspawned != [] && t.unspawned[0] == Create(e.slots, e.inlined) && jobs == |t.live|
    modifies store, joinSet, inputs, outputs
    ensures store.Valid() && store.tasks == old(store.tasks)
    ensures Mirrors(u, Picture(r, store.View(), joinSet.View(), inputs[..], outputs[..], ts))
    ensures Leads(t, steps, u) && Idle(u) && RanFirst(t, u, ok) && spawned == |u.live|
    ensures ok <==> !fails && UploadsGood(r, limit, e.slots, e.inlined, uploads)
  {
    hide Mirrors, Leads, Enabled, Next, UploadsGood, Finished;
    LeadsNowhere(t);
    SpawnAdvances(t, [], t, Picture(r, store.View(), joinSet.View(), inputs[..], outputs[..], ts));
    u, steps := Next(t, Spawn), [] + [Spawn];
    SpawnedIsBusy(t, u);
    ghost var before := u;
    var task := new Task(jobs, joinSet);
    spawned := jobs + 1;
    if fails {
      ok := false;
      FailAdvances(t, steps, u, jobs, Picture(r, store.View(), joinSet.View(), inputs[..], outputs[..], ts));
      u, steps := Next(u, Fail(jobs)), steps + [Fail(jobs)];
      BusyStays(before, u, jobs, Ended);
      joinSet.RecordError(jobs);
      EndedIsFinished();
    } else {
      ghost var more, v;
      ok, spawned, more, v := CreateAndWrite(store, joinSet, r, limit, inputs, outputs, e, uploads, spawned, ts, jobs, u);
      LeadsFurther(t, steps, u, more, v);
      u, steps := v, steps + more;
    }
    before := u;
    EndAdvances(t, steps, u, jobs, Picture(r, store.View(), joinSet.View(), inputs[..], outputs[..], ts));
    u, steps := Next(u, End(jobs)), steps + [End(jobs)];
    BusyStays(before, u, jobs, Over);
    task.Destroy();
  }

  lemma EndedIsFinished()
    ensures Finished(Ended)
  {
  }

  // ---------- one request to submit tasks ----------

  /** Copies the ids of the tasks into their array. */
  method StoreIds(
    tasks: array<Id>, batch: seq<nat>, ids: seq<Id>, ghost r: Request, ghost server: Server, ghost join: Join,
    ghost ins: seq<Id>, ghost outs: seq<Id>, ghost k: nat, ghost t: State)
    returns (ghost steps: seq<Step>, ghost u: State)
    requires Mirrors(t, Picture(r, server, join, ins, outs, tasks[..]))
    requires OnlyBusy(t, k) && t.live[k] == WriteTasks(batch, ids) && |ids| == |batch|
    modifies tasks
    ensures Mirrors(u, Picture(r, server, join, ins, outs, tasks[..]))
    ensures Leads(t, steps, u) && OnlyBusy(u, k) && Finished(u.live[k]) && SameBut(t, u, true) && |u.live| == |t.live|
  {
    hide Mirrors, Leads, Enabled, Next, Finished;
    LeadsNowhere(t);
    steps, u := [], t;
    assert batch[0..] == batch && ids[0..] == ids;
    for j := 0 to |batch|
      invariant Mirrors(u, Picture(r, server, join, ins, outs, tasks[..]))
      invariant Leads(t, steps, u) && SameBut(t, u, true) && OnlyBusy(u, k) && |u.live| == |t.live|
      invariant u.live[k] == WriteTasks(batch[j..], ids[j..])
    {
      StoreTaskAdvances(t, steps, u, k, Picture(r, server, join, ins, outs, tasks[..]));
      ghost var before := u;
      u, steps := Next(u, StoreTask(k)), steps + [StoreTask(k)];
      BusyStays(before, u, k, WriteTasks(batch[j + 1..], ids[j + 1..]));
      tasks[batch[j]] := ids[j];
    }
    NoTargetsIsFinished(ids[|batch|..]);
  }

  /** The function that the last batcher spawns, when its request goes through. */
  method SubmitAndStore(
    store: Store, r: Request, tasks: array<Id>, batch: seq<nat>, ins: seq<Id>, outs: seq<Id>,
    ghost join: Join, ghost k: nat, ghost t: State)
    returns (ghost steps: seq<Step>, ghost u: State)
    requires store.Valid() && Mirrors(t, Picture(r, store.View(), join, ins, outs, tasks[..]))
    requires OnlyBusy(t, k) && t.live[k] == SubmitTasks(batch)
    modifies store, tasks
    ensures store.Valid() && Mirrors(u, Picture(r, store.View(), join, ins, outs, tasks[..]))
    ensures Leads(t, steps, u) && OnlyBusy(u, k) && Finished(u.live[k]) && SameBut(t, u, true) && |u.live| == |t.live|
  {
    LeadsNowhere(t);
    BatchInRange(t, k);
    assert t.request == r && t.inputs == ins && t.outputs == outs && t.tasks == tasks[..];
    hide Mirrors, Leads, Enabled, Next, TasksCreated, Requests, Finished;
    ghost var server := store.View();
    var ids := Submitted(store, Requests(r, batch, ins, outs));
    TasksAdvance(t, [], t, k, ids, store.View(), Picture(r, server, join, ins, outs, tasks[..]));
    u, steps := Next(t, AnswerTasks(k, ids, store.View())), [] + [AnswerTasks(k, ids, store.View())];
    BusyStays(t, u, k, WriteTasks(batch, ids));
    ghost var v, on := u, [];
    on, u := StoreIds(tasks, batch, ids, r, store.View(), join, ins, outs, k, v);
    LeadsFurther(t, steps, v, on, u);
    SameTwice(t, v, u, true, true);
    steps := steps + on;
  }

  /** The function that the last batcher spawns, from the task object to its destructor. */
  method RunSubmission(
    store: Store, joinSet: JoinSet, r: Request, tasks: array<Id>, batch: seq<nat>, fails: bool, jobs: nat,
    ins: seq<Id>, outs: seq<Id>, ghost t: State)
    returns (ok: bool, ghost steps: seq<Step>, ghost u: State)
    requires store.Valid() && Mirrors(t, Picture(r, store.View(), joinSet.View(), ins, outs, tasks[..]))
    requires Active(t) && Idle(t) && t.unspawned != [] && t.unspawned[0] == SubmitTasks(batch) && jobs == |t.live|
    modifies store, joinSet, tasks
    ensures store.Valid() && Mirrors(u, Picture(r, store.View(), joinSet.View(), ins, outs, tasks[..]))
    ensures Leads(t, steps, u) && Idle(u) && RanFirst(t, u, ok) && |u.live| == jobs + 1
    ensures ok <==> !fails
  {
    hide Mirrors, Leads, Enabled, Next, Finished;
    LeadsNowhere(t);
    SpawnAdvances(t, [], t, Picture(r, store.View(), joinSet.View(), ins, outs, tasks[..]));
    u, steps := Next(t, Spawn), [] + [Spawn];
    SpawnedIsBusy(t, u);
    ghost var before := u;
    var task := new Task(jobs, joinSet);
    ok := !fails;
    if fails {
      FailAdvances(t, steps, u, jobs, Picture(r, store.View(), joinSet.View(), ins, outs, tasks[..]));
      u, steps := Next(u, Fail(jobs)), steps + [Fail(jobs)];
      BusyStays(before, u, jobs, Ended);
      joinSet.RecordError(jobs);
      EndedIsFinished();
    } else {
      ghost var more, v := SubmitAndStore(store, r, tasks, batch, ins, outs, joinSet.View(), jobs, u);
      LeadsFurther(t, steps, u, more, v);
      u, steps := v, steps + more;
    }
    before := u;
    EndAdvances(t, steps, u, jobs, Picture(r, store.View(), joinSet.View(), ins, outs, tasks[..]));
    u, steps := Next(u, End(jobs)), steps + [End(jobs)];
    BusyStays(before, u, jobs, Over);
    task.Destroy();
  }

  lemma NoTargetsIsFinished(ids: seq<Id>)
    ensures Finished(WriteTasks([], ids))
  {
  }

  method Submitted(store: Store, requests: seq<TaskRecord>) returns (ids: seq<Id>)
    requires store.Valid()
    modifies store
    ensures store.Valid() && |ids| == |requests| && TasksCreated(requests, old(store.View()), ids, store.View())
  {
    ids := store.SubmitTasks(requests);
  }

  // ---------- the whole submission ----------

  /** The large inputs are those that are uploaded, and their uploads are good. */
  predicate AllUploadsGood(r: Request, chunkMax: nat, uploads: nat -> seq<Attempt>)
    requires chunkMax > 0 && forall i :: |uploads(i)| == MAX_RETRY
  {
    forall i :: 0 <= i < |r.payloads| && |r.payloads[i]| + 128 >= chunkMax ==>
      exists k :: 0 <= k < 3 &&
        var data, a := r.payloads[i], uploads(i)[k];
        && a.channel && (a.broken.None? || a.broken.value >= |Chunks(data, chunkMax)|)
        && a.writesDone && a.finished && a.reportedSize == |data|
  }

  lemma AllUploadsGoodExactly(r: Request, chunkMax: nat, uploads: nat -> seq<Attempt>)
    requires chunkMax > 0 && forall i :: |uploads(i)| == MAX_RETRY
    ensures AllUploadsGood(r, chunkMax, uploads) <==>
              forall i :: 0 <= i < |r.payloads| && |r.payloads[i]| + MESSAGE_OVERHEAD >= chunkMax ==>
                GoodUpload(r.payloads[i], chunkMax, uploads(i))
  {
    forall i | 0 <= i < |r.payloads|
      ensures GoodUpload(r.payloads[i], chunkMax, uploads(i)) <==>
                exists k :: 0 <= k < 3 &&
                  var data, a := r.payloads[i], uploads(i)[k];
                  && a.channel && (a.broken.None? || a.broken.value >= |Chunks(data, chunkMax)|)
                  && a.writesDone && a.finished && a.reportedSize == |data|
    {
    }
    hide GoodUpload;
  }

  /** The first requests of that many go through. */
  ghost predicate GoThrough(fails: nat -> bool, count: nat) {
    forall c: nat :: c < count ==> !fails(c)
  }

  /**
   * The requests of a submission: those of its plan, and if all goes well and there are tasks, as many as their number divided
   * by the batch size, rounded up.
   */
  ghost predicate Counted(
    r: Request, chunkMax: nat, limit: nat, fails: nat -> bool, uploads: nat -> seq<Attempt>, count: nat)
    requires chunkMax > 0 && forall i :: |uploads(i)| == MAX_RETRY
  {
    var created := |PlanLog(Config(Sizes(r.payloads), chunkMax, limit, r.withOutputs))|;
    && created <= count
    && if r.withOutputs && GoThrough(fails, created) && AllUploadsGood(r, chunkMax, uploads)
       then RoundedUp(|r.payloads|, Max(1, limit), count - created)
       else count == created
  }

  predicate LogUploadsGood(r: Request, chunkMax: nat, log: seq<Emission>, uploads: nat -> seq<Attempt>)
    requires chunkMax > 0 && forall i :: |uploads(i)| == MAX_RETRY
  {
    forall k :: 0 <= k < |log| ==> UploadsGood(r, chunkMax, log[k].slots, log[k].inlined, uploads)
  }

  lemma {:induction false} EmittedSomewhere(log: seq<Emission>, slot: Slot) returns (k: nat)
    requires EmittedSlots(log)[slot] > 0
    ensures k < |log| && slot in log[k].slots
  {
    var last := |log| - 1;
    if slot in log[last].slots {
      k := last;
    } else {
      k := EmittedSomewhere(log[..last], slot);
    }
  }

  lemma UploadsAreTheLargeInputs(r: Request, chunkMax: nat, limit: nat, uploads: nat -> seq<Attempt>)
    requires chunkMax > 0 && forall i :: |uploads(i)| == MAX_RETRY
    ensures var log := PlanLog(Config(Sizes(r.payloads), chunkMax, limit, r.withOutputs));
            LogUploadsGood(r, chunkMax, log, uploads) <==> AllUploadsGood(r, chunkMax, uploads)
  {
    var c := Config(Sizes(r.payloads), chunkMax, limit, r.withOutputs);
    var log := PlanLog(c);
    PlanCoversOnce(c);
    PlanRespectsLimits(c);
    AllUploadsGoodExactly(r, chunkMax, uploads);
    hide PlanLog, GoodUpload, AllUploadsGood, EmittedSlots, Config.Weight, WithinLimits, RightKind, UploadsGood;
    assert forall k :: 0 <= k < |log| ==> log[k] in log && WithinLimits(c, log[k]);
    if LogUploadsGood(r, chunkMax, log, uploads) {
      forall i | 0 <= i < |r.payloads| && |r.payloads[i]| + MESSAGE_OVERHEAD >= chunkMax
        ensures GoodUpload(r.payloads[i], chunkMax, uploads(i))
      {
        var k := EmittedSomewhere(log, In(i));
        UploadedThere(r, c, chunkMax, log[k], i, uploads);
      }
    }
    if AllUploadsGood(r, chunkMax, uploads) {
      forall k | 0 <= k < |log| ensures UploadsGood(r, chunkMax, log[k].slots, log[k].inlined, uploads) {
        UploadsThere(r, c, chunkMax, log[k], uploads);
      }
    }
  }

  lemma UploadedThere(r: Request, c: Config, chunkMax: nat, e: Emission, i: nat, uploads: nat -> seq<Attempt>)
    requires chunkMax > 0 && forall i :: |uploads(i)| == MAX_RETRY
    requires WithinLimits(c, e) && UploadsGood(r, chunkMax, e.slots, e.inlined, uploads)
    requires c.sizes == Sizes(r.payloads) && c.chunkMax == chunkMax
    requires In(i) in e.slots && i < |r.payloads| && |r.payloads[i]| + MESSAGE_OVERHEAD >= chunkMax
    ensures GoodUpload(r.payloads[i], chunkMax, uploads(i))
  {
    hide GoodUpload;
    assert RightKind(c, In(i), e.inlined);
  }

  lemma UploadsThere(r: Request, c: Config, chunkMax: nat, e: Emission, uploads: nat -> seq<Attempt>)
    requires chunkMax > 0 && forall i :: |uploads(i)| == MAX_RETRY
    requires WithinLimits(c, e) && c.sizes == Sizes(r.payloads) && c.chunkMax == chunkMax
    requires forall i :: 0 <= i < |r.payloads| && |r.payloads[i]| + MESSAGE_OVERHEAD >= chunkMax ==>
               GoodUpload(r.payloads[i], chunkMax, uploads(i))
    ensures UploadsGood(r, chunkMax, e.slots, e.inlined, uploads)
  {
    hide GoodUpload;
    forall slot | slot in e.slots && slot.In? && !e.inlined && slot.i < |r.payloads|
      ensures GoodUpload(r.payloads[slot.i], chunkMax, uploads(slot.i))
    {
      assert RightKind(c, slot, e.inlined);
    }
  }

  /** The first phase, up to the barrier. */
  method CreateAll(
    store: Store, joinSet: JoinSet, r: Request, limit: nat, inputs: array<Id>, outputs: array<Id>, log: seq<Emission>,
    fails: nat -> bool, uploads: nat -> seq<Attempt>, ghost ts: seq<Id>, ghost t: State)
    returns (ok: bool, jobs: nat, ghost steps: seq<Step>, ghost u: State)
    requires store.Valid() && inputs != outputs && limit > 0 && forall i :: |uploads(i)| == MAX_RETRY
    requires Mirrors(t, Picture(r, store.View(), joinSet.View(), inputs[..], outputs[..], ts))
    requires t.live == [] && t.unspawned == CreationJobs(log) && t.phase == Creating && !t.failed
    modifies store, joinSet, inputs, outputs
    ensures store.Valid() && store.tasks == old(store.tasks) && jobs == |u.live|
    ensures Mirrors(u, Picture(r, store.View(), joinSet.View(), inputs[..], outputs[..], ts))
    ensures Leads(t, steps, u) && Idle(u) && u.unspawned == [] && u.phase == Creating && u.failed == !ok
    ensures ok <==> (forall c: nat :: c < |log| ==> !fails(c)) && LogUploadsGood(r, limit, log, uploads)
  {
    hide Mirrors, Leads, Enabled, Next, CreationJobs, UploadsGood;
    CreationJobAt(log);
    LeadsNowhere(t);
    ok, jobs, steps, u := true, 0, [], t;
    var good;
    ghost var more, v;
    for k := 0 to |log|
      invariant store.Valid() && store.tasks == old(store.tasks) && jobs == |u.live|
      invariant Mirrors(u, Picture(r, store.View(), joinSet.View(), inputs[..], outputs[..], ts))
      invariant Leads(t, steps, u) && Idle(u) && u.unspawned == CreationJobs(log)[k..] && u.phase == Creating
      invariant u.failed == !ok
      invariant ok <==> (forall c: nat :: c < k ==> !fails(c)) && LogUploadsGood(r, limit, log[..k], uploads)
    {
      good, jobs, more, v :=
        RunCreation(store, joinSet, r, limit, inputs, outputs, log[k], fails(k), uploads, jobs, ts, u);
      LeadsFurther(t, steps, u, more, v);
      LogUploadsGoodSnoc(r, limit, log, k, uploads);
      ok, steps, u := ok && good, steps + more, v;
    }
    assert log[..|log|] == log;
  }

  /** The second phase, up to the barrier. */
  method SubmitAll(
    store: Store, joinSet: JoinSet, r: Request, tasks: array<Id>, batches: seq<seq<nat>>, fails: nat -> bool,
    before: nat, started: nat, ins: seq<Id>, outs: seq<Id>, ghost t: State)
    returns (ok: bool, count: nat, ghost steps: seq<Step>, ghost u: State)
    requires store.Valid() && Mirrors(t, Picture(r, store.View(), joinSet.View(), ins, outs, tasks[..]))
    requires Idle(t) && t.unspawned == TaskJobs(batches) && t.phase == Submitting && !t.failed && started == |t.live|
    modifies store, joinSet, tasks
    ensures store.Valid() && Mirrors(u, Picture(r, store.View(), joinSet.View(), ins, outs, tasks[..]))
    ensures Leads(t, steps, u) && Idle(u) && u.unspawned == [] && u.phase == Submitting && u.failed == !ok
    ensures count == before + |batches| && (ok <==> forall c: nat :: before <= c < count ==> !fails(c))
  {
    hide Mirrors, Leads, Enabled, Next, TaskJobs;
    TaskJobAt(batches);
    LeadsNowhere(t);
    ok, count, steps, u := true, before, [], t;
    var good, jobs := true, started;
    ghost var more, v;
    for k := 0 to |batches|
      invariant store.Valid() && jobs == |u.live| && count == before + k
      invariant Mirrors(u, Picture(r, store.View(), joinSet.View(), ins, outs, tasks[..]))
      invariant Leads(t, steps, u) && Idle(u) && u.unspawned == TaskJobs(batches)[k..] && u.phase == Submitting
      invariant u.failed == !ok && (ok <==> forall c: nat :: before <= c < count ==> !fails(c))
    {
      good, more, v := RunSubmission(store, joinSet, r, tasks, batches[k], fails(count), jobs, ins, outs, u);
      LeadsFurther(t, steps, u, more, v);
      ok, steps, u, count, jobs := ok && good, steps + more, v, count + 1, jobs + 1;
    }
  }

  /** The client thread at a barrier: Wait returns, or lets the exception out and the join set is destroyed on the way. */
  method Barrier(
    joinSet: JoinSet, ghost ok: bool, ghost batches: seq<seq<nat>>, ghost start: State, ghost before: seq<Step>,
    ghost t: State, ghost r: Request, ghost server: Server, ghost ins: seq<Id>, ghost outs: seq<Id>, ghost ts: seq<Id>)
    returns (ghost steps: seq<Step>, ghost u: State)
    requires Leads(start, before, t) && Mirrors(t, Picture(r, server, joinSet.View(), ins, outs, ts))
    requires Active(t) && Idle(t) && t.unspawned == [] && t.failed == !ok
    requires t.phase.Creating? && r.withOutputs ==> Flatten(batches) == seq(|ts|, i => i)
    modifies joinSet
    ensures Leads(start, steps, u) && Mirrors(u, Picture(r, server, joinSet.View(), ins, outs, ts))
    ensures if !ok then u.phase == Phase.Aborted
            else if t.phase.Creating? && r.withOutputs
            then u.phase == Submitting && u.unspawned == TaskJobs(batches) && Idle(u) && !u.failed && u.live == t.live
            else u.phase == Phase.Completed
  {
    hide Mirrors, Leads, Enabled, Next, TaskJobs;
    ghost var p := Picture(r, server, joinSet.View(), ins, outs, ts);
    if ok {
      WaitReturns(start, before, t, batches, p);
      steps, u := before + [Step.Wait(batches)], Next(t, Step.Wait(batches));
    } else {
      WaitThrows(start, before, t, batches, p);
      steps, u := before + [Step.Wait(batches)] + [Unwind], Next(Next(t, Step.Wait(batches)), Unwind);
    }
    hide Waited;
    var outcome := joinSet.Wait(CLIENT, ForTasks);
    if outcome.None? || outcome.value.Rethrown? {
      outcome := joinSet.Wait(CLIENT, ForDestruction);
    }
  }

  /** Everything up to the first barrier and past it. */
  method CreatePhase(
    store: Store, joinSet: JoinSet, r: Request, chunkMax: nat, limit: nat, inputs: array<Id>, outputs: array<Id>,
    fails: nat -> bool, uploads: nat -> seq<Attempt>, ghost ts: seq<Id>)
    returns (ok: bool, count: nat, jobs: nat, batches: seq<seq<nat>>, ghost steps: seq<Step>, ghost u: State)
    requires r.Valid() && store.Valid() && chunkMax > 0 && forall i :: |uploads(i)| == MAX_RETRY
    requires inputs != outputs && joinSet.View() == EmptyJoin()
    requires inputs[..] == outputs[..] == ts == seq(|r.payloads|, _ => "")
    modifies store, joinSet, inputs, outputs
    ensures store.Valid() && store.tasks == old(store.tasks)
    ensures Leads(Start(r, old(store.View()), chunkMax, limit), steps, u)
    ensures Mirrors(u, Picture(r, store.View(), joinSet.View(), inputs[..], outputs[..], ts))
    ensures ok <==> GoThrough(fails, count) && AllUploadsGood(r, chunkMax, uploads)
    ensures count == |PlanLog(Config(Sizes(r.payloads), chunkMax, limit, r.withOutputs))|
    ensures RoundedUp(|r.payloads|, Max(1, limit), |batches|)
    ensures if !ok then u.phase == Phase.Aborted
            else if r.withOutputs
            then u.phase == Submitting && u.unspawned == TaskJobs(batches) && Idle(u) && !u.failed && jobs == |u.live|
            else u.phase == Phase.Completed
  {
    hide Mirrors, Leads, Enabled, Next, PlanLog, CreationJobs, TaskJobs, Start, AllUploadsGood, LogUploadsGood, RoundedUp;
    var log := PlanCreation(Config(Sizes(r.payloads), chunkMax, limit, r.withOutputs));
    ghost var start := Start(r, store.View(), chunkMax, limit);
    Begins(r, store.View(), chunkMax, limit, log, ts);
    UploadsAreTheLargeInputs(r, chunkMax, limit, uploads);
    ghost var t;
    ok, jobs, steps, t := CreateAll(store, joinSet, r, chunkMax, inputs, outputs, log, fails, uploads, ts, start);
    count := |log|;
    batches := PlanTasks(|r.payloads|, limit);
    steps, u := Barrier(joinSet, ok, batches, start, steps, t, r, store.View(), inputs[..], outputs[..], ts);
  }

  /** The submission of the tasks, up to the second barrier and past it. */
  method TaskPhase(
    store: Store, joinSet: JoinSet, r: Request, tasks: array<Id>, batches: seq<seq<nat>>, fails: nat -> bool,
    before: nat, started: nat, ins: seq<Id>, outs: seq<Id>, ghost start: State, ghost done: seq<Step>, ghost t: State)
    returns (ok: bool, count: nat, ghost steps: seq<Step>, ghost u: State)
    requires store.Valid() && Mirrors(t, Picture(r, store.View(), joinSet.View(), ins, outs, tasks[..]))
    requires Idle(t) && t.unspawned == TaskJobs(batches) && t.phase == Submitting && !t.failed && started == |t.live|
    requires Leads(start, done, t)
    modifies store, joinSet, tasks
    ensures store.Valid() && Mirrors(u, Picture(r, store.View(), joinSet.View(), ins, outs, tasks[..]))
    ensures Leads(start, steps, u) && u.phase == if ok then Phase.Completed else Phase.Aborted
    ensures count == before + |batches| && (ok <==> forall c: nat :: before <= c < count ==> !fails(c))
  {
    hide Mirrors, Leads, Enabled, Next, TaskJobs;
    ghost var v;
    ok, count, steps, v := SubmitAll(store, joinSet, r, tasks, batches, fails, before, started, ins, outs, t);
    LeadsFurther(start, done, t, steps, v);
    steps, u := Barrier(joinSet, ok, [], start, done + steps, v, r, store.View(), ins, outs, tasks[..]);
  }

  /**
   * The submission is a run of the machine, up to the return or the exception of its barriers. It completes exactly when
   * none of its `count` requests fails and every large input has a good attempt among its three, and then the arrays
   * hold what they should; `fails` says which of the requests do, in the order they are made.
   */
  method SubmitRaw(
    store: Store, r: Request, chunkMax: nat, limit: nat, fails: nat -> bool, uploads: nat -> seq<Attempt>)
    returns (
      ok: bool, count: nat, inputs: array<Id>, outputs: array<Id>, tasks: array<Id>,
      ghost steps: seq<Step>, ghost u: State)
    requires r.Valid() && store.Valid() && chunkMax > 0 && forall i :: |uploads(i)| == MAX_RETRY
    modifies store
    ensures store.Valid() && fresh(inputs) && fresh(outputs) && fresh(tasks)
    ensures inputs.Length == outputs.Length == tasks.Length == |r.payloads|
    ensures Leads(Start(r, old(store.View()), chunkMax, limit), steps, u)
    ensures u.server == store.View() && u.inputs == inputs[..] && u.outputs == outputs[..] && u.tasks == tasks[..]
    ensures u.phase == if ok then Phase.Completed else Phase.Aborted
    ensures ok <==> GoThrough(fails, count) && AllUploadsGood(r, chunkMax, uploads)
    ensures Counted(r, chunkMax, limit, fails, uploads, count)
    ensures ok ==> Exact(u)
    ensures !r.withOutputs ==> store.tasks == old(store.tasks)
  {
    hide Mirrors, Leads, Enabled, Next, Start, AllUploadsGood, Exact, TaskJobs, PlanLog, RoundedUp;
    var n := |r.payloads|;
    inputs, outputs, tasks := new Id[n](_ => ""), new Id[n](_ => ""), new Id[n](_ => "");
    var joinSet := new JoinSet();
    ghost var start := Start(r, store.View(), chunkMax, limit);
    assert inputs[..] == outputs[..] == tasks[..];
    var jobs, batches;
    ok, count, jobs, batches, steps, u :=
      CreatePhase(store, joinSet, r, chunkMax, limit, inputs, outputs, fails, uploads, tasks[..]);
    if ok && r.withOutputs {
      ok, count, steps, u := TaskPhase(
        store, joinSet, r, tasks, batches, fails, count, jobs, inputs[..], outputs[..], start, steps, u);
    }
    Shown(u, Picture(r, store.View(), joinSet.View(), inputs[..], outputs[..], tasks[..]));
    if ok {
      CompletedExactly(r, old(store.View()), chunkMax, limit, steps, u);
    }
  }

  lemma Shown(u: State, p: Picture)
    requires Mirrors(u, p)
    ensures u.server == p.server && u.inputs == p.ins && u.outputs == p.outs && u.tasks == p.ts
  {
  }

  lemma LogUploadsGoodSnoc(r: Request, chunkMax: nat, log: seq<Emission>, k: nat, uploads: nat -> seq<Attempt>)
    requires chunkMax > 0 && (forall i :: |uploads(i)| == MAX_RETRY) && k < |log|
    ensures LogUploadsGood(r, chunkMax, log[..k + 1], uploads) <==>
            (&& LogUploadsGood(r, chunkMax, log[..k], uploads)
             && UploadsGood(r, chunkMax, log[k].slots, log[k].inlined, uploads))
  {
    hide UploadsGood;
    assert log[..k + 1] == log[..k] + [log[k]];
    if LogUploadsGood(r, chunkMax, log[..k + 1], uploads) {
      assert log[..k + 1][k] == log[k];
      assert forall j :: 0 <= j < k ==> log[..k][j] == log[..k + 1][j];
    }
  }

  lemma CompletedExactly(r: Request, server: Server, chunkMax: nat, limit: nat, steps: seq<Step>, u: State)
    requires r.Valid() && Leads(Start(r, server, chunkMax, limit), steps, u) && u.phase.Completed?
    ensures Reachable(Start(r, server, chunkMax, limit), u) && Exact(u)
  {
    CompletedIsExact(r, server, chunkMax, limit, u);
  }

  // ---------- recording ----------

  /** Whatever a session has recorded is on the server. */
  ghost predicate OnServer(m: Maps, server: Server) {
    (forall r :: r in m.tasks ==> r in server.results) && (forall t :: t in m.results ==> t in server.tasks)
  }

  lemma ExactIsNew(m: Maps, r: Request, server: Server, chunkMax: nat, limit: nat, steps: seq<Step>, u: State)
    requires r.Valid() && r.withOutputs && WellFormed(server) && OnServer(m, server)
    requires Leads(Start(r, server, chunkMax, limit), steps, u) && u.phase.Completed?
    ensures New(m, u.outputs, u.tasks) && Reachable(Start(r, server, chunkMax, limit), u)
    ensures |u.tasks| == |u.outputs| == |r.payloads|
  {
    CompletedExactly(r, server, chunkMax, limit, steps, u);
    CompletedIsFresh(r, server, chunkMax, limit, u);
    CompletedIsExact(r, server, chunkMax, limit, u);
    hide Start, Reachable, Leads;
  }

  /**
   * SubmitRaw with its end: when every request goes through, the run completes, its tasks and outputs are recorded
   * with the handler, and nothing else changes in the maps; when any of them fails, the maps are as they were.
   */
  method SubmitAndRecord(
    session: Session, store: Store, r: Request, handler: Handler, chunkMax: nat, limit: nat,
    fails: nat -> bool, uploads: nat -> seq<Attempt>)
    returns (result: Option<seq<Id>>, count: nat, ghost u: State)
    requires chunkMax > 0 && forall i :: |uploads(i)| == MAX_RETRY
    requires r.Valid() && r.withOutputs && store.Valid() && WellFormed(store.View())
    requires Consistent(session.View()) && OnServer(session.View(), store.View())
    modifies session, store
    ensures store.Valid() && Consistent(session.View())
    ensures result.Some? <==> GoThrough(fails, count) && AllUploadsGood(r, chunkMax, uploads)
    ensures Counted(r, chunkMax, limit, fails, uploads, count)
    ensures result.None? ==> session.View() == old(session.View())
    ensures result.Some? ==>
              && Reachable(Start(r, old(store.View()), chunkMax, limit), u) && u.phase.Completed? && Exact(u)
              && u.server == store.View() && result.value == u.tasks && |u.outputs| == |u.tasks| == |r.payloads|
              && New(old(session.View()), u.outputs, u.tasks)
              && Added(old(session.View()), session.View(), u.outputs, u.tasks, handler)
  {
    hide Leads, New, Added, AllUploadsGood, Exact, Start, Reachable, Consistent, WellFormed, OnServer, GoThrough, Counted;
    ghost var before, maps := store.View(), session.View();
    var ok, inputs, outputs, tasks;
    ghost var steps;
    ok, count, inputs, outputs, tasks, steps, u := SubmitRaw(store, r, chunkMax, limit, fails, uploads);
    if !ok {
      return None, count, u;
    }
    ExactIsNew(maps, r, before, chunkMax, limit, steps, u);
    RecordedExactly(maps, u.outputs, u.tasks, handler);
    session.Record(outputs[..], tasks[..], handler);
    result := Some(tasks[..]);
  }
}
