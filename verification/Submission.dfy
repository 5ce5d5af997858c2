/**
 * A submission as an interleaving: the client thread spawns requests, the pool runs them in any order,
 * and each of them fills its own slots of the shared arrays, one slot at a time. What lets the client thread
 * past its two barriers is the join set alone. The server is a store that names results, issues fresh ids
 * and keeps contents; other clients use it at the same time.
 */
module Submission {
  import opened Prelude
  import opened Batching
  import opened JoinSets

  /** A result of the server; it has no content until its data is there. */
  datatype Record = Record(name: string, content: Option<string>)

  datatype TaskRecord = TaskRecord(payload: Id, outputs: seq<Id>, dependencies: seq<Id>, options: map<string, string>)

  datatype Server = Server(results: map<Id, Record>, tasks: map<Id, TaskRecord>)

  /** What is submitted; without outputs it is an upload of blobs only. */
  datatype Request = Request(
    payloads: seq<string>,
    dependencies: seq<seq<Id>>,
    options: map<string, string>,
    withOutputs: bool)
  {
    predicate Valid() {
      withOutputs ==> |dependencies| == |payloads|
    }

    predicate InRange(s: Slot) {
      s.i < |payloads| && (s.In? || withOutputs)
    }
  }

  /**
   * A function spawned on the join set, by what is left of it. `Ended` is a function that has returned or thrown
   * whose task object is still there; once the object is destroyed the job is `Over`.
   */
  datatype Job =
    | Create(batch: seq<Slot>, inlined: bool)
    | Write(slots: seq<Slot>, reply: map<string, Id>, inlined: bool)
    | Upload(i: nat)
    | SubmitTasks(indices: seq<nat>)
    | WriteTasks(targets: seq<nat>, ids: seq<Id>)
    | Ended
    | Over

  /** `Unwinding`: Wait has thrown, and the destructor of the join set has yet to return. */
  datatype Phase = Creating | Submitting | Completed | Unwinding | Aborted

  /**
   * `join` is the join set of the function. The rest is history: `issued` and `made` are the ids of the results and
   * of the tasks that the server has made for this submission, and `failed` tells that some function threw.
   */
  datatype State = State(
    request: Request,
    server: Server,
    inputs: seq<Id>,
    outputs: seq<Id>,
    tasks: seq<Id>,
    unspawned: seq<Job>,
    live: seq<Job>,
    join: Join,
    phase: Phase,
    issued: set<Id>,
    made: set<Id>,
    failed: bool)
  {
    function At(s: Slot): Id
      requires s.i < |inputs| && s.i < |outputs|
    {
      if s.In? then inputs[s.i] else outputs[s.i]
    }

    predicate Sized() {
      |inputs| == |outputs| == |tasks| == |request.payloads|
    }
  }

  /** The name under which a result is requested. */
  function SlotName(s: Slot): string {
    (if s.In? then "input-" else "output-") + Decimal(s.i)
  }

  function CreationJobs(log: seq<Emission>): seq<Job> {
    if log == [] then []
    else CreationJobs(log[..|log| - 1]) + [Create(log[|log| - 1].slots, log[|log| - 1].inlined)]
  }

  function TaskJobs(batches: seq<seq<nat>>): seq<Job> {
    if batches == [] then [] else TaskJobs(batches[..|batches| - 1]) + [SubmitTasks(batches[|batches| - 1])]
  }

  function Sizes(payloads: seq<string>): (sizes: seq<nat>)
    ensures |sizes| == |payloads|
  {
    seq(|payloads|, i requires 0 <= i < |payloads| => |payloads[i]|)
  }

  function Blank(n: nat): (ids: seq<Id>)
    ensures |ids| == n
  {
    seq(n, _ => "")
  }

  /** The client has planned its requests and spawned none. */
  function Start(request: Request, server: Server, chunkMax: nat, limit: nat): State {
    var n := |request.payloads|;
    var log := PlanLog(Config(Sizes(request.payloads), chunkMax, limit, request.withOutputs));
    State(request, server, Blank(n), Blank(n), Blank(n), CreationJobs(log), [], EmptyJoin(), Creating, {}, {}, false)
  }

  // ---------- the server ----------

  /** What all clients together may do to the server between two steps, as seen by the owner of `ours`. */
  ghost predicate Keeps(a: Server, b: Server, ours: set<Id>) {
    && (forall id :: id in a.results ==>
          && id in b.results && b.results[id].name == a.results[id].name
          && (id in ours || a.results[id].content.Some? ==> b.results[id] == a.results[id]))
    && (forall t :: t in a.tasks ==> t in b.tasks && b.tasks[t] == a.tasks[t])
  }

  /** The contents that a creation request carries. */
  function ContentOf(r: Request, s: Slot, inlined: bool): Option<string>
    requires r.InRange(s)
  {
    if inlined && s.In? then Some(r.payloads[s.i]) else None
  }

  /** The server answers a creation request: a fresh id for each name. */
  ghost predicate Answers(s: State, batch: seq<Slot>, inlined: bool, reply: map<string, Id>, server: Server) {
    && Keeps(s.server, server, s.issued)
    && reply.Keys == (set slot | slot in batch :: SlotName(slot))
    && forall slot :: slot in batch ==>
         && s.request.InRange(slot)
         && var id := reply[SlotName(slot)];
            && id != "" && id !in s.server.results && id in server.results
            && server.results[id] == Record(SlotName(slot), ContentOf(s.request, slot, inlined))
  }

  /** The data of a large input arrives at the server. */
  ghost predicate Receives(s: State, id: Id, data: string, server: Server) {
    && id in s.server.results
    && Keeps(s.server, server, s.issued - {id})
    && server.results[id] == s.server.results[id].(content := Some(data))
  }

  /** The request for task `i`, from what is in the arrays now. */
  function TaskRequest(s: State, i: nat): TaskRecord
    requires s.Sized() && s.request.Valid() && s.request.withOutputs && i < |s.tasks|
  {
    TaskRecord(s.inputs[i], [s.outputs[i]], s.request.dependencies[i], s.request.options)
  }

  /** The server answers a task submission, in the order of the requests. */
  ghost predicate AcceptsTasks(s: State, indices: seq<nat>, ids: seq<Id>, server: Server) {
    && s.Sized() && s.request.Valid() && s.request.withOutputs
    && Keeps(s.server, server, s.issued)
    && |ids| == |indices|
    && forall j :: 0 <= j < |indices| ==>
         && indices[j] < |s.tasks|
         && ids[j] != "" && ids[j] !in s.server.tasks && ids[j] in server.tasks
         && server.tasks[ids[j]] == TaskRequest(s, indices[j])
  }

  // ---------- steps ----------

  datatype Step =
    | Spawn                                                       // the client thread
    | Fail(job: nat)                                              // a request or an upload throws, which is recorded
    | Answer(job: nat, reply: map<string, Id>, server: Server)
    | Store(job: nat)                                             // one slot is written
    | Uploaded(job: nat, server: Server)
    | AnswerTasks(job: nat, ids: seq<Id>, server: Server)
    | StoreTask(job: nat)
    | End(job: nat)                                               // the destructor of the task
    | Wait(batches: seq<seq<nat>>)                                // one pass of Wait in the client thread
    | Unwind                                                      // one pass of the destructor of the join set
    | Others(server: Server)                                      // other clients

  /** The function has nothing left to do. */
  predicate Finished(j: Job) {
    j.Ended? || (j.Write? && j.slots == []) || (j.WriteTasks? && j.targets == [])
  }

  predicate Active(s: State) {
    s.phase.Creating? || s.phase.Submitting?
  }

  /** SubmitRaw has returned or thrown. */
  predicate HasEnded(s: State) {
    s.phase.Completed? || s.phase.Aborted?
  }

  /** The client thread, as the join set knows it. */
  const CLIENT: nat := 0

  ghost predicate Enabled(s: State, step: Step) {
    match step
    case Spawn => Active(s) && s.unspawned != []
    case Fail(k) => k < |s.live| && (s.live[k].Create? || s.live[k].Upload? || s.live[k].SubmitTasks?)
    case Answer(k, reply, server) =>
      k < |s.live| && s.live[k].Create? && Answers(s, s.live[k].batch, s.live[k].inlined, reply, server)
    case Store(k) =>
      && k < |s.live| && s.live[k].Write? && s.live[k].slots != []
      && s.Sized() && s.request.InRange(s.live[k].slots[0]) && SlotName(s.live[k].slots[0]) in s.live[k].reply
    case Uploaded(k, server) =>
      && k < |s.live| && s.live[k].Upload? && s.live[k].i < |s.inputs| && s.Sized()
      && Receives(s, s.inputs[s.live[k].i], s.request.payloads[s.live[k].i], server)
    case AnswerTasks(k, ids, server) =>
      k < |s.live| && s.live[k].SubmitTasks? && AcceptsTasks(s, s.live[k].indices, ids, server)
    case StoreTask(k) =>
      && k < |s.live| && s.live[k].WriteTasks? && s.live[k].targets != [] && s.live[k].ids != []
      && s.live[k].targets[0] < |s.tasks|
    case End(k) => k < |s.live| && Finished(s.live[k]) && s.join.count > 0
    case Wait(batches) =>
      && Active(s) && s.unspawned == []
      && (s.phase.Creating? && s.request.withOutputs ==> Flatten(batches) == seq(|s.tasks|, i => i))
    case Unwind => s.phase.Unwinding?
    case Others(server) => Keeps(s.server, server, s.issued)
  }

  /** One turn of the loop that copies ids out of a reply; the id is moved, which empties the reply's copy. */
  function Stored(s: State, k: nat): State
    requires k < |s.live| && s.live[k].Write? && s.live[k].slots != [] && s.Sized()
    requires s.request.InRange(s.live[k].slots[0]) && SlotName(s.live[k].slots[0]) in s.live[k].reply
  {
    var job := s.live[k];
    var slot := job.slots[0];
    var id := job.reply[SlotName(slot)];
    var left := s.live[k := Write(job.slots[1..], job.reply[SlotName(slot) := ""], job.inlined)];
    match slot
    case In(i) =>
      var t := s.(inputs := s.inputs[i := id], live := left);
      if job.inlined then t else t.(live := left + [Upload(i)], join := Incremented(s.join))
    case Out(i) => s.(outputs := s.outputs[i := id], live := left)
  }

  /** Wait has returned: the tasks come next, if there are any, else the submission is complete. */
  function Passed(s: State, batches: seq<seq<nat>>): State {
    if s.phase.Creating? && s.request.withOutputs then s.(phase := Submitting, unspawned := TaskJobs(batches))
    else s.(phase := Completed)
  }

  /** One pass of Wait: the client goes on, goes to sleep, or lets the exception out. */
  function WaitedFor(s: State, batches: seq<seq<nat>>): State {
    var (join, outcome) := Waited(s.join, CLIENT, ForTasks);
    var t := s.(join := join);
    if outcome.None? then t else if outcome.value.Rethrown? then t.(phase := Unwinding) else Passed(t, batches)
  }

  function Unwound(s: State): State {
    var (join, outcome) := Waited(s.join, CLIENT, ForDestruction);
    s.(join := join, phase := if outcome.Some? then Aborted else s.phase)
  }

  function Next(s: State, step: Step): State
    requires Enabled(s, step)
  {
    match step
    case Spawn => s.(unspawned := s.unspawned[1..], live := s.live + [s.unspawned[0]], join := Incremented(s.join))
    case Fail(k) => s.(live := s.live[k := Ended], join := ErrorRecorded(s.join, k), failed := true)
    case Answer(k, reply, server) =>
      var job := s.live[k];
      s.(server := server, issued := s.issued + reply.Values, live := s.live[k := Write(job.batch, reply, job.inlined)])
    case Store(k) => Stored(s, k)
    case Uploaded(k, server) => s.(server := server, live := s.live[k := Ended])
    case AnswerTasks(k, ids, server) =>
      s.(server := server, made := s.made + (set t | t in ids), live := s.live[k := WriteTasks(s.live[k].indices, ids)])
    case StoreTask(k) =>
      var job := s.live[k];
      s.(tasks := s.tasks[job.targets[0] := job.ids[0]], live := s.live[k := WriteTasks(job.targets[1..], job.ids[1..])])
    case End(k) => s.(live := s.live[k := Over], join := Decremented(s.join))
    case Wait(batches) => WaitedFor(s, batches)
    case Unwind => Unwound(s)
    case Others(server) => s.(server := server)
  }

  ghost predicate IsRun(s: State, steps: seq<Step>)
    decreases |steps|
  {
    steps == [] || (Enabled(s, steps[0]) && IsRun(Next(s, steps[0]), steps[1..]))
  }

  ghost function After(s: State, steps: seq<Step>): State
    requires IsRun(s, steps)
    decreases |steps|
  {
    if steps == [] then s else After(Next(s, steps[0]), steps[1..])
  }

  /** The states that some schedule leads to. */
  ghost predicate Reachable(start: State, s: State) {
    exists steps :: IsRun(start, steps) && After(start, steps) == s
  }
}
