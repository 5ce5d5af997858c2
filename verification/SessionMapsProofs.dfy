/** What the operations on the maps keep, and exactly what they remove and add. */
module SessionMapsProofs {
  import opened Prelude
  import opened SessionMaps

  /** The maps without some of the results. */
  function Without(m: Maps, gone: set<Id>): Maps {
    Maps(map t | t in m.results && m.results[t] !in gone :: m.results[t], m.tasks - gone, m.handlers - gone)
  }

  lemma WithoutConsistent(m: Maps, gone: set<Id>)
    requires Consistent(m)
    ensures Consistent(Without(m, gone))
  {
  }

  /** One more pair keeps the maps inverse exactly when neither of its ids is paired with another one. */
  lemma RecordedOneExactly(m: Maps, result: Id, task: Id, handler: Handler)
    requires Consistent(m)
    ensures Consistent(RecordedOne(m, result, task, handler))
       <==> (task in m.results ==> m.results[task] == result) && (result in m.tasks ==> m.tasks[result] == task)
  {
    var n := RecordedOne(m, result, task, handler);
    if task in m.results && m.results[task] != result {
      assert m.results[task] in n.tasks && n.tasks[m.results[task]] == task;
    } else if result in m.tasks && m.tasks[result] != task {
      assert m.tasks[result] in n.results && n.results[m.tasks[result]] == result;
    }
  }

  ghost predicate New(m: Maps, results: seq<Id>, tasks: seq<Id>) {
    && |results| == |tasks|
    && (forall k :: 0 <= k < |results| ==> results[k] !in m.tasks && tasks[k] !in m.results)
    && (forall j, k :: 0 <= j < k < |results| ==> results[j] != results[k] && tasks[j] != tasks[k])
  }

  /** A pair that the maps know, with its handler. */
  ghost predicate PairedAs(m: Maps, result: Id, task: Id, handler: Handler) {
    && task in m.results && m.results[task] == result
    && result in m.tasks && m.tasks[result] == task
    && result in m.handlers && m.handlers[result] == handler
  }

  /** `n` is `m` and more, for those results and tasks. */
  ghost predicate Grown(m: Maps, n: Maps, results: seq<Id>, tasks: seq<Id>) {
    && (forall t :: t in n.results <==> t in m.results || t in tasks)
    && (forall r :: r in n.tasks <==> r in m.tasks || r in results)
    && n.handlers.Keys == n.tasks.Keys
    && (forall t :: t in m.results ==> n.results[t] == m.results[t])
    && (forall r :: r in m.tasks ==> n.tasks[r] == m.tasks[r])
    && (forall r :: r in m.handlers ==> r in n.handlers && n.handlers[r] == m.handlers[r])
  }

  /** `n` is `m` with the pairs of a submission. */
  ghost predicate Added(m: Maps, n: Maps, results: seq<Id>, tasks: seq<Id>, handler: Handler)
    requires |results| == |tasks|
  {
    Grown(m, n, results, tasks) && forall k :: 0 <= k < |results| ==> PairedAs(n, results[k], tasks[k], handler)
  }

  /** New pairs are added, and nothing else changes. */
  lemma {:induction false} RecordedExactly(m: Maps, results: seq<Id>, tasks: seq<Id>, handler: Handler)
    requires Consistent(m) && New(m, results, tasks)
    ensures Added(m, Recorded(m, results, tasks, handler), results, tasks, handler)
    ensures Consistent(Recorded(m, results, tasks, handler))
  {
    if results != [] {
      var k := |results| - 1;
      var front, front' := results[..k], tasks[..k];
      assert results == front + [results[k]] && tasks == front' + [tasks[k]];
      RecordedExactly(m, front, front', handler);
      var before := Recorded(m, front, front', handler);
      assert results[k] !in before.tasks && tasks[k] !in before.results;
      RecordedOneExactly(before, results[k], tasks[k], handler);
      AddedSnoc(m, before, front, front', results[k], tasks[k], handler);
    }
  }

  /** All of `Added` but for what the new keys are mapped to. */
  lemma AddedDomains(m: Maps, n: Maps, results: seq<Id>, tasks: seq<Id>, result: Id, task: Id, handler: Handler)
    requires |results| == |tasks| && Added(m, n, results, tasks, handler) && m.handlers.Keys == m.tasks.Keys
    requires result !in n.tasks && task !in n.results
    ensures var o := RecordedOne(n, result, task, handler); Grown(m, o, results + [result], tasks + [task])
  {
    hide PairedAs;
  }

  lemma AddedSnoc(m: Maps, n: Maps, results: seq<Id>, tasks: seq<Id>, result: Id, task: Id, handler: Handler)
    requires |results| == |tasks| && Added(m, n, results, tasks, handler) && m.handlers.Keys == m.tasks.Keys
    requires result !in n.tasks && task !in n.results
    ensures Added(m, RecordedOne(n, result, task, handler), results + [result], tasks + [task], handler)
  {
    AddedDomains(m, n, results, tasks, result, task, handler);
    hide RecordedOne;
    var all, all' := results + [result], tasks + [task];
    forall k | 0 <= k < |all| ensures PairedAs(RecordedOne(n, result, task, handler), all[k], all'[k], handler) {
      if k < |results| {
        assert all[k] == results[k] && all'[k] == tasks[k];
        OlderPair(n, results[k], tasks[k], handler, result, task);
      } else {
        NewPair(n, result, task, handler);
      }
    }
  }

  lemma NewPair(m: Maps, result: Id, task: Id, handler: Handler)
    ensures PairedAs(RecordedOne(m, result, task, handler), result, task, handler)
  {
  }

  lemma OlderPair(m: Maps, result: Id, task: Id, handler: Handler, result': Id, task': Id)
    requires PairedAs(m, result, task, handler) && result' != result && task' != task
    ensures PairedAs(RecordedOne(m, result', task', handler), result, task, handler)
  {
  }

  /** Extraction takes one result, with its own handler and task, out of all three maps. */
  lemma ExtractedExactly(m: Maps, result: Id)
    requires Consistent(m)
    ensures var e := Extracted(m, result);
            && e.maps == Without(m, {result}) && Consistent(e.maps)
            && (if result in m.handlers then e.handler == m.handlers[result] && e.task == m.tasks[result]
                else e == Extraction(m, None, ""))
  {
    if result in m.tasks {
      assert m.results - {m.tasks[result]} == Without(m, {result}).results;
    } else {
      assert m.handlers - {result} == m.handlers && m.tasks - {result} == m.tasks;
      assert Without(m, {result}).results == m.results;
    }
  }

  /** Cleaning up tasks takes their results, and no others, out of all three maps. */
  lemma {:induction false} CleanedExactly(m: Maps, tasks: seq<Id>)
    requires Consistent(m)
    ensures Cleaned(m, tasks) == Without(m, ResultsOf(m, set t | t in tasks)) && Consistent(Cleaned(m, tasks))
  {
    if tasks == [] {
      assert Without(m, ResultsOf(m, set t | t in tasks)) == m;
    } else {
      var k := |tasks| - 1;
      var front, last := tasks[..k], tasks[k];
      CleanedExactly(m, front);
      assert tasks == front + [last];
      var gone, less := ResultsOf(m, set t | t in tasks), ResultsOf(m, set t | t in front);
      assert gone == less + (if last in m.results then {m.results[last]} else {});
      CleanedOneExactly(Cleaned(m, front), last);
      if last in m.results && m.results[last] !in less {
        WithoutTwice(m, less, {m.results[last]});
      } else {
        assert gone == less;
      }
      WithoutConsistent(m, gone);
    }
  }

  lemma CleanedOneExactly(m: Maps, task: Id)
    requires Consistent(m)
    ensures CleanedOne(m, task) == if task in m.results then Without(m, {m.results[task]}) else m
  {
    if task in m.results {
      assert m.results - {task} == Without(m, {m.results[task]}).results;
    }
  }

  lemma WithoutTwice(m: Maps, a: set<Id>, b: set<Id>)
    ensures Without(Without(m, a), b) == Without(m, a + b)
  {
    assert m.tasks - a - b == m.tasks - (a + b) && m.handlers - a - b == m.handlers - (a + b);
    assert Without(Without(m, a), b).results == Without(m, a + b).results;
  }

  /** A wait for everything is for all results with a handler, any other for the results of its tasks. */
  lemma SnapshotIsPaired(m: Maps, tasks: set<Id>)
    requires Consistent(m)
    ensures Snapshot(m, tasks) <= m.handlers.Keys
    ensures tasks == {} ==> Snapshot(m, tasks) == m.handlers.Keys
    ensures tasks != {} ==> Snapshot(m, tasks) == set r | r in m.tasks && m.tasks[r] in tasks
  {
    if tasks != {} {
      forall r ensures r in Snapshot(m, tasks) <==> r in m.tasks && m.tasks[r] in tasks {
        if r in m.tasks && m.tasks[r] in tasks {
          assert m.results[m.tasks[r]] == r;
        }
      }
    }
  }

  // ---------- deliveries ----------

  /** When a delivery with a handler makes exactly one callback. */
  predicate OneCallback(status: Status, task: Id, o: Outcome) {
    match status
    case Completed => o.download.Data? && !o.response.Throws?
    case Aborted(owner) => !o.lookup.ThrowsOdd? || (owner == "" && task == "")
    case _ => true
  }

  function Responses(calls: seq<Callback>): nat {
    if calls == [] then 0
    else Responses(calls[..|calls| - 1]) + (if calls[|calls| - 1].Response? then 1 else 0)
  }

  /**
   * A delivery without a handler calls nobody; otherwise it calls back exactly once under OneCallback, and it
   * notes no error and lets none escape exactly when it answers with the downloaded data.
   */
  lemma DeliveredExactly(handler: Handler, task: Id, result: Id, status: Status, o: Outcome)
    ensures var d := Delivered(handler, task, result, status, o);
            && (handler.None? ==> d.calls == [])
            && (forall h :: handler == Some(h) ==>
                  && (|d.calls| == 1 <==> OneCallback(status, task, o))
                  && (!d.error && !d.escapes <==> status.Completed? && o.download.Data? && o.response.Fine?)
                  && (!d.error && !d.escapes ==> d.calls == [Response(h, task, result, o.download.payload)]))
            && (forall k :: 0 <= k < |d.calls| ==>
                  Some(d.calls[k].handler) == handler && d.calls[k].task == task && d.calls[k].result == result)
  {
    if status.Completed? {
      match o.download
      case Data(_) =>
      case Failing =>
      case Odd =>
    }
  }

  /** Whether an exception leaves a delivery, whether it notes an error, and what it tells its handler. */
  lemma DeliveredAsTold(handler: Handler, task: Id, result: Id, status: Status, o: Outcome)
    ensures var d := Delivered(handler, task, result, status, o);
            && (d.escapes <==> LetsOut(handler, task, status, o))
            && (d.error <==> NotesError(handler, task, status, o))
            && (handler.None? ==> d.calls == [])
            && (forall h :: handler == Some(h) ==> Told(h, task, result, status, o, d.calls))
  {
    if status.Completed? && handler.Some? {
      match o.response
      case Fine =>
      case Throws =>
      case ThrowsOdd =>
    }
  }

  /** A delivery answers once at most: when the result is completed, whether or not it could be downloaded. */
  lemma DeliveredAnswers(handler: Handler, task: Id, result: Id, status: Status, o: Outcome)
    ensures Responses(Delivered(handler, task, result, status, o).calls)
         == if handler.Some? && status.Completed? && !o.download.Odd? then 1 else 0
  {
    DeliveredShort(handler, task, result, status, o);
    ResponsesShort(Delivered(handler, task, result, status, o).calls);
    hide Responses;
  }

  lemma DeliveredShort(handler: Handler, task: Id, result: Id, status: Status, o: Outcome)
    ensures |Delivered(handler, task, result, status, o).calls| <= 3
  {
  }

  lemma ResponsesShort(calls: seq<Callback>)
    requires |calls| <= 3
    ensures Responses(calls) ==
              (if |calls| > 0 && calls[0].Response? then 1 else 0) +
              (if |calls| > 1 && calls[1].Response? then 1 else 0) +
              (if |calls| > 2 && calls[2].Response? then 1 else 0)
  {
    if calls != [] {
      ResponsesShort(calls[..|calls| - 1]);
    }
  }
}
