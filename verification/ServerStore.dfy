/** A server that answers as it should: every id it issues is new. */
module ServerStore {
  import opened Prelude
  import opened Submission

  ghost predicate Used(id: Id, next: nat) {
    exists n: nat :: n < next && id == Decimal(n)
  }

  /** Another number is a new id, and used from then on. */
  lemma NextIsNew(next: nat)
    ensures !Used(Decimal(next), next) && Used(Decimal(next), next + 1)
    ensures forall id :: Used(id, next) ==> Used(id, next + 1)
  {
    forall n: nat | n < next ensures Decimal(n) != Decimal(next) {
      if Decimal(n) == Decimal(next) {
        DecimalInjective(n, next);
      }
    }
  }

  class Store {
    var results: map<Id, Record>
    var tasks: map<Id, TaskRecord>
    var next: nat

    function View(): Server
      reads this
    {
      Server(results, tasks)
    }

    /** All ids in use are numbers below the next one. */
    ghost predicate Valid()
      reads this
    {
      (forall id :: id in results ==> Used(id, next)) && (forall t :: t in tasks ==> Used(t, next))
    }

    constructor ()
      ensures Valid() && View() == Server(map[], map[])
    {
      results, tasks, next := map[], map[], 0;
    }

    method NewId() returns (id: Id)
      requires Valid()
      modifies this`next
      ensures Valid() && Used(id, next) && next == old(next) + 1
      ensures id != "" && id !in results && id !in tasks
    {
      NextIsNew(next);
      id := Decimal(next);
      next := next + 1;
    }

    /** One result for each name, with or without its data. */
    method CreateResults(names: seq<string>, contents: seq<Option<string>>) returns (reply: map<string, Id>)
      requires Valid() && |names| == |contents|
      requires forall j, k :: 0 <= j < k < |names| ==> names[j] != names[k]
      modifies this
      ensures Valid() && tasks == old(tasks)
      ensures forall id :: id in old(results) ==> id in results && results[id] == old(results)[id]
      ensures forall n :: n in reply <==> n in names
      ensures forall k :: 0 <= k < |names| ==>
                var id := reply[names[k]];
                id != "" && id !in old(results) && id in results && results[id] == Record(names[k], contents[k])
    {
      reply := map[];
      for k := 0 to |names|
        invariant Valid() && tasks == old(tasks)
        invariant forall id :: id in old(results) ==> id in results && results[id] == old(results)[id]
        invariant forall n :: n in reply <==> n in names[..k]
        invariant forall j :: 0 <= j < k ==>
                    && names[j] in reply
                    && var id := reply[names[j]];
                       id != "" && id !in old(results) && id in results && results[id] == Record(names[j], contents[j])
      {
        var id := NewId();
        results := results[id := Record(names[k], contents[k])];
        reply := reply[names[k] := id];
        assert names[..k + 1] == names[..k] + [names[k]];
      }
      assert names[..|names|] == names;
    }

    method UploadData(id: Id, data: string)
      requires Valid() && id in results
      modifies this
      ensures Valid() && tasks == old(tasks) && results == old(results)[id := old(results)[id].(content := Some(data))]
    {
      results := results[id := results[id].(content := Some(data))];
    }

    method AddTask(request: TaskRecord) returns (id: Id)
      requires Valid()
      modifies this
      ensures Valid() && results == old(results)
      ensures id != "" && id !in old(tasks) && tasks == old(tasks)[id := request]
    {
      id := NewId();
      tasks := tasks[id := request];
    }

    method SubmitTasks(requests: seq<TaskRecord>) returns (ids: seq<Id>)
      requires Valid()
      modifies this
      ensures Valid() && results == old(results)
      ensures forall t :: t in old(tasks) ==> t in tasks && tasks[t] == old(tasks)[t]
      ensures |ids| == |requests|
      ensures forall k :: 0 <= k < |ids| ==>
                ids[k] != "" && ids[k] !in old(tasks) && ids[k] in tasks && tasks[ids[k]] == requests[k]
    {
      ids := [];
      for k := 0 to |requests|
        invariant Valid() && results == old(results)
        invariant forall t :: t in old(tasks) ==> t in tasks && tasks[t] == old(tasks)[t]
        invariant |ids| == k
        invariant forall j :: 0 <= j < k ==>
                    ids[j] != "" && ids[j] !in old(tasks) && ids[j] in tasks && tasks[ids[j]] == requests[j]
      {
        var id := AddTask(requests[k]);
        ids := ids + [id];
      }
    }
  }
}
