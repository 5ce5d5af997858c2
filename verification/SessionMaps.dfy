/**
 * The three maps of a session: which task makes which result, and which handler is to hear about a result.
 * Every operation here is one critical section of their mutex.
 */
module SessionMaps {
  import opened Prelude

  /** A handler pointer, which a client may have left null. */
  type Handler = Option<nat>

  datatype Maps = Maps(results: map<Id, Id>, tasks: map<Id, Id>, handlers: map<Id, Handler>)

  const NO_MAPS := Maps(map[], map[], map[])

  /** Results and tasks are paired one to one, and exactly the paired results have a handler. */
  ghost predicate Consistent(m: Maps) {
    && (forall t :: t in m.results ==> m.results[t] in m.tasks && m.tasks[m.results[t]] == t)
    && (forall r :: r in m.tasks ==> m.tasks[r] in m.results && m.results[m.tasks[r]] == r)
    && m.handlers.Keys == m.tasks.Keys
  }

  // ---------- operations on values ----------

  function RecordedOne(m: Maps, result: Id, task: Id, handler: Handler): Maps {
    Maps(m.results[task := result], m.tasks[result := task], m.handlers[result := handler])
  }

  function Recorded(m: Maps, results: seq<Id>, tasks: seq<Id>, handler: Handler): Maps
    requires |results| == |tasks|
  {
    if results == [] then m
    else
      var n := |results| - 1;
      RecordedOne(Recorded(m, results[..n], tasks[..n], handler), results[n], tasks[n], handler)
  }

  datatype Extraction = Extraction(maps: Maps, handler: Handler, task: Id)

  function Extracted(m: Maps, result: Id): Extraction {
    var handler := if result in m.handlers then m.handlers[result] else None;
    var left := m.(handlers := m.handlers - {result});
    if result in m.tasks
    then Extraction(left.(tasks := m.tasks - {result}, results := m.results - {m.tasks[result]}), handler, m.tasks[result])
    else Extraction(left, handler, "")
  }

  function CleanedOne(m: Maps, task: Id): Maps {
    if task !in m.results then m
    else Maps(m.results - {task}, m.tasks - {m.results[task]}, m.handlers - {m.results[task]})
  }

  function Cleaned(m: Maps, tasks: seq<Id>): Maps {
    if tasks == [] then m else CleanedOne(Cleaned(m, tasks[..|tasks| - 1]), tasks[|tasks| - 1])
  }

  /** The results of those tasks that are known. */
  function ResultsOf(m: Maps, tasks: set<Id>): set<Id> {
    set t | t in tasks && t in m.results :: m.results[t]
  }

  /** The results that a wait is for: all of them, or those of the tasks that are known. */
  function Snapshot(m: Maps, tasks: set<Id>): set<Id> {
    if tasks == {} then m.handlers.Keys else ResultsOf(m, tasks)
  }

  // ---------- one round of a wait, and one delivery ----------

  datatype Status = Created | Completed | Aborted(owner: Id) | Deleted | NotFound | Unknown

  /** A result that the server does not list is not found. */
  function StatusIn(listing: map<Id, Status>, r: Id): Status {
    if r in listing then listing[r] else NotFound
  }

  /** How downloading the data went; `Odd` stands for an exception outside of std::exception. */
  datatype Download = Data(payload: string) | Failing | Odd

  /** How the client's code came back from HandleResponse. */
  datatype Behaviour = Fine | Throws | ThrowsOdd

  datatype Outcome = Outcome(download: Download, response: Behaviour, lookup: Behaviour)

  datatype Reason = Generic(status: Status) | TaskFailed(task: Id) | NoData | HandlerThrew

  datatype Callback =
    | Response(handler: nat, task: Id, result: Id, payload: string)
    | Error(handler: nat, task: Id, result: Id, reason: Reason)

  /** What a delivery does: the callbacks in order, whether it notes an error, and whether an exception escapes. */
  datatype Delivery = Delivery(calls: seq<Callback>, error: bool, escapes: bool)

  // What a delivery comes to, told by status and outcome alone.

  /** When an exception leaves it. */
  predicate LetsOut(handler: Handler, task: Id, status: Status, o: Outcome) {
    || (status.Completed? && o.download.Odd?)
    || (status.Completed? && !o.download.Odd? && handler.Some? && o.response.ThrowsOdd?)
    || (status.Aborted? && (status.owner != "" || task != "") && o.lookup.ThrowsOdd?)
  }

  /** When it notes an error. */
  predicate NotesError(handler: Handler, task: Id, status: Status, o: Outcome) {
    || (status.Completed? && o.download.Failing?)
    || (status.Completed? && !o.download.Odd? && handler.Some? && o.response.Throws?)
    || (status.Aborted? && status.owner == "" && task == "")
    || (status.Aborted? && !o.lookup.ThrowsOdd?)
    || (!status.Completed? && !status.Aborted?)
  }

  /** What its handler is told, in order and with the reasons of errors. */
  predicate Told(h: nat, task: Id, result: Id, status: Status, o: Outcome, calls: seq<Callback>) {
    match status
    case Completed =>
      if o.download.Odd? then calls == []
      else
        calls == (if o.download.Failing? then [Error(h, task, result, NoData)] else [])
               + [Response(h, task, result, if o.download.Data? then o.download.payload else "")]
               + (if o.response.Throws? then [Error(h, task, result, HandlerThrew)] else [])
    case Aborted(owner) =>
      && (owner == "" && task == "" ==> calls == [Error(h, task, result, Generic(status))])
      && (owner == "" && task != "" && !o.lookup.ThrowsOdd? ==> calls == [Error(h, task, result, TaskFailed(task))])
      && (owner != "" && !o.lookup.ThrowsOdd? ==> calls == [Error(h, task, result, TaskFailed(owner))])
      && ((owner != "" || task != "") && o.lookup.ThrowsOdd? ==> calls == [])
    case _ => calls == [Error(h, task, result, Generic(status))]
  }

  // And step by step.

  function ErrorHandled(handler: Handler, task: Id, result: Id, reason: Reason): seq<Callback> {
    if handler.None? then [] else [Error(handler.value, task, result, reason)]
  }

  /** After a failed download the handler gets an empty response as well. */
  function CompletedDelivery(handler: Handler, task: Id, result: Id, o: Outcome): Delivery {
    if o.download.Odd? then Delivery([], false, true)
    else
      var before := if o.download.Failing? then ErrorHandled(handler, task, result, NoData) else [];
      var payload := if o.download.Data? then o.download.payload else "";
      if handler.None? then Delivery(before, o.download.Failing?, false)
      else
        var calls := before + [Response(handler.value, task, result, payload)];
        match o.response
        case Fine => Delivery(calls, o.download.Failing?, false)
        case Throws => Delivery(calls + ErrorHandled(handler, task, result, HandlerThrew), true, false)
        case ThrowsOdd => Delivery(calls, o.download.Failing?, true)
  }

  function Delivered(handler: Handler, task: Id, result: Id, status: Status, o: Outcome): Delivery {
    match status
    case Completed => CompletedDelivery(handler, task, result, o)
    case Aborted(owner) =>
      var failed := if owner == "" then task else owner;
      if failed == "" then Delivery(ErrorHandled(handler, task, result, Generic(status)), true, false)
      else if o.lookup.ThrowsOdd? then Delivery([], false, true)
      else Delivery(ErrorHandled(handler, task, result, TaskFailed(failed)), true, false)
    case _ => Delivery(ErrorHandled(handler, task, result, Generic(status)), true, false)
  }

  // ---------- the session ----------

  class Session {
    var taskIdResultId: map<Id, Id>
    var resultIdTaskId: map<Id, Id>
    var resultHandlers: map<Id, Handler>

    function View(): Maps
      reads this
    {
      Maps(taskIdResultId, resultIdTaskId, resultHandlers)
    }

    constructor ()
      ensures View() == NO_MAPS
    {
      taskIdResultId, resultIdTaskId, resultHandlers := map[], map[], map[];
    }

    /** The end of SubmitRaw. */
    method Record(results: seq<Id>, tasks: seq<Id>, handler: Handler)
      requires |results| == |tasks|
      modifies this
      ensures View() == Recorded(old(View()), results, tasks, handler)
    {
      for i := 0 to |results|
        invariant View() == Recorded(old(View()), results[..i], tasks[..i], handler)
      {
        assert results[..i + 1][..i] == results[..i] && tasks[..i + 1][..i] == tasks[..i];
        resultHandlers := resultHandlers[results[i] := handler];
        resultIdTaskId := resultIdTaskId[results[i] := tasks[i]];
        taskIdResultId := taskIdResultId[tasks[i] := results[i]];
      }
      assert results[..|results|] == results && tasks[..|tasks|] == tasks;
    }

    method Extract(result: Id) returns (handler: Handler, task: Id)
      modifies this
      ensures Extraction(View(), handler, task) == Extracted(old(View()), result)
    {
      handler, task := None, "";
      if result in resultHandlers {
        handler := resultHandlers[result];
      }
      resultHandlers := resultHandlers - {result};
      if result in resultIdTaskId {
        task := resultIdTaskId[result];
        resultIdTaskId := resultIdTaskId - {result};
        taskIdResultId := taskIdResultId - {task};
      }
    }

    method CleanupTasks(tasks: seq<Id>)
      modifies this
      ensures View() == Cleaned(old(View()), tasks)
    {
      for i := 0 to |tasks|
        invariant View() == Cleaned(old(View()), tasks[..i])
      {
        assert tasks[..i + 1][..i] == tasks[..i];
        if tasks[i] in taskIdResultId {
          var result := taskIdResultId[tasks[i]];
          resultIdTaskId := resultIdTaskId - {result};
          resultHandlers := resultHandlers - {result};
          taskIdResultId := taskIdResultId - {tasks[i]};
        }
      }
      assert tasks[..|tasks|] == tasks;
    }

    method DropSession()
      modifies this
      ensures View() == NO_MAPS
    {
      taskIdResultId, resultIdTaskId, resultHandlers := map[], map[], map[];
    }

    /** The start of WaitResults; every result counts as not found until the server lists it. */
    method TakeSnapshot(tasks: set<Id>) returns (results: map<Id, Status>)
      ensures results == map r | r in Snapshot(View(), tasks) :: NotFound
      ensures tasks == {} ==> results.Keys == resultHandlers.Keys
      ensures tasks != {} ==> forall r :: r in results <==> exists t :: t in tasks && t in taskIdResultId && taskIdResultId[t] == r
    {
      results := map[];
      if tasks == {} {
        results := map r | r in resultHandlers :: NotFound;
      } else {
        var todo := tasks;
        ghost var done: set<Id> := {};
        while todo != {}
          invariant done !! todo && done + todo == tasks
          invariant results.Keys == ResultsOf(View(), done) && forall r :: r in results ==> results[r] == NotFound
        {
          var t :| t in todo;
          todo, done := todo - {t}, done + {t};
          if t in taskIdResultId {
            results := results[taskIdResultId[t] := NotFound];
          }
        }
        assert done == tasks;
      }
    }

    /** The function spawned for a result that is no longer pending. */
    method HandleResult(result: Id, status: Status, o: Outcome) returns (delivery: Delivery)
      modifies this
      ensures var e := Extracted(old(View()), result);
              && View() == e.maps && delivery == Delivered(e.handler, e.task, result, status, o)
              && (delivery.escapes <==> LetsOut(e.handler, e.task, status, o))
              && (delivery.error <==> NotesError(e.handler, e.task, status, o))
              && (e.handler.None? ==> delivery.calls == [])
              && (e.handler.Some? ==> Told(e.handler.value, e.task, result, status, o, delivery.calls))
    {
      var handler, task := Extract(result);
      var calls: seq<Callback>, error := [], false;
      match status {
        case Completed =>
          var payload := "";
          match o.download {
            case Odd => return Delivery(calls, error, true);
            case Failing => calls, error := calls + ErrorHandled(handler, task, result, NoData), true;
            case Data(p) => payload := p;
          }
          if handler.Some? {
            calls := calls + [Response(handler.value, task, result, payload)];
            match o.response {
              case Fine =>
              case Throws => calls, error := calls + ErrorHandled(handler, task, result, HandlerThrew), true;
              case ThrowsOdd => return Delivery(calls, error, true);
            }
          }
        case Aborted(owner) =>
          var failed := owner;
          if failed == "" {
            failed := task;
          }
          if failed == "" {
            calls, error := ErrorHandled(handler, task, result, Generic(status)), true;
          } else if o.lookup.ThrowsOdd? {
            return Delivery(calls, error, true);
          } else {
            calls, error := ErrorHandled(handler, task, result, TaskFailed(failed)), true;
          }
        case _ =>
          calls, error := ErrorHandled(handler, task, result, Generic(status)), true;
      }
      delivery := Delivery(calls, error, false);
    }
  }

  /** The answers to the batched listing requests fill in the statuses; an answer nobody asked for would add one. */
  method FillIn(results: map<Id, Status>, response: map<Id, Status>) returns (listed: map<Id, Status>)
    ensures listed.Keys == results.Keys + response.Keys
    ensures forall r :: r in listed ==> listed[r] == if r in response then response[r] else results[r]
  {
    listed := results;
    var todo := response.Keys;
    while todo != {}
      invariant todo <= response.Keys && listed.Keys == results.Keys + (response.Keys - todo)
      invariant forall r :: r in listed ==> listed[r] == if r in response && r !in todo then response[r] else results[r]
    {
      var r :| r in todo;
      todo, listed := todo - {r}, listed[r := response[r]];
    }
  }

  /** The sweep of a round: what is still being made is kept for the next round, the rest is due for delivery. */
  method Sweep(results: map<Id, Status>) returns (kept: map<Id, Status>, due: map<Id, Status>)
    ensures kept == map r | r in results && results[r].Created? :: NotFound
    ensures due == map r | r in results && !results[r].Created? :: results[r]
  {
    kept, due := results, map[];
    var todo := results.Keys;
    while todo != {}
      invariant todo <= results.Keys <= kept.Keys + due.Keys && kept.Keys <= results.Keys
      invariant forall r :: r in todo ==> r in kept && kept[r] == results[r] && r !in due
      invariant forall r :: r in results && r !in todo ==>
                  if results[r].Created? then r in kept && kept[r] == NotFound else r !in kept
      invariant due == map r | r in results && r !in todo && !results[r].Created? :: results[r]
    {
      var r :| r in todo;
      todo := todo - {r};
      if results[r].Created? {
        kept := kept[r := NotFound];
      } else {
        kept, due := kept - {r}, due[r := results[r]];
      }
    }
  }
}
