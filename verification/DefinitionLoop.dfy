/** The submission of task definitions, from the first line to the last, on a server that answers as it should. */
module DefinitionLoop {
  import opened Prelude
  import opened Submission
  import opened SubmissionTheorems
  import opened Upload
  import opened ServerStore
  import opened SubmitLoop
  import opened TaskDefinitions
  import opened EndToEnd
  import opened SessionMaps
  import opened SessionMapsProofs

  lemma MoreResults(before: Server, after: Server, m: Maps)
    requires WellFormed(before) && OnServer(m, before) && Keeps(before, after, {}) && after.tasks == before.tasks
    ensures WellFormed(after) && OnServer(m, after)
  {
  }

  /** The raw inputs as blobs to upload. */
  function RawRequest(raws: seq<RawInput>): Request {
    Request(Contents(raws), [], map[], false)
  }

  /** Uploads the raw inputs, if there are any. */
  method UploadRaws(
    store: Store, raws: seq<RawInput>, chunkMax: nat, limit: nat, fails: nat -> bool, uploads: nat -> seq<Attempt>)
    returns (ids: Option<seq<Id>>, count: nat)
    requires store.Valid() && chunkMax > 0 && forall i :: |uploads(i)| == MAX_RETRY
    modifies store
    ensures store.Valid() && store.tasks == old(store.tasks) && Keeps(old(store.View()), store.View(), {})
    ensures ids.Some? <==> GoThrough(fails, count) && AllUploadsGood(RawRequest(raws), chunkMax, uploads)
    ensures Counted(RawRequest(raws), chunkMax, limit, fails, uploads, count)
    ensures ids.Some? ==> |ids.value| == |raws| && UploadedAs(raws, old(store.View()), store.View(), ids.value, chunkMax, limit)
  {
    count := 0;
    if raws == [] {
      return Some([]), count;
    }
    ghost var before := store.View();
    var ok, inputs, outputs, tasks;
    ghost var steps, u;
    ok, count, inputs, outputs, tasks, steps, u := SubmitRaw(store, RawRequest(raws), chunkMax, limit, fails, uploads);
    KeptByRun(RawRequest(raws), before, chunkMax, limit, u);
    ids := if ok then Some(inputs[..]) else None;
  }

  /** The lists that SubmitRaw is called with. */
  method BuildRequest(
    defs: seq<TaskDefinition>, options: map<string, string>, raws: seq<RawInput>, ids: seq<Id>,
    encode: ConventionPayload -> string)
    returns (r: Request)
    requires raws == RawInputs(defs, |defs|) && |raws| == |ids|
    ensures RequestFor(defs, options, ids, encode, r)
  {
    RawInputsExact(defs, |defs|);
    hide RawInputs, PayloadOf, DepsOf;
    var payloads := BuildPayloads(defs, raws, ids);
    var serialized := [];
    for i := 0 to payloads.Length
      invariant |serialized| == i
      invariant forall k :: 0 <= k < i ==> serialized[k] == encode(PayloadOf(defs[k], raws, ids, k))
    {
      serialized := serialized + [encode(payloads[i])];
    }
    var deps := BuildDependencies(defs, options, raws, ids);
    r := Request(serialized, deps[..], options, true);
  }

  /**
   * Submit for task definitions. When it returns, every task is recorded with the handler, and its worker will see
   * the inputs as the client meant them, whatever happens to the server short of losing data. When it
   * throws, nothing is recorded. It returns exactly when all requests of the two submissions go through and all
   * large inputs of both have a good attempt; `r` is what the second one is called with.
   */
  method SubmitDefinitions(
    session: Session, store: Store, defs: seq<TaskDefinition>, options: map<string, string>,
    encode: ConventionPayload -> string, handler: Handler, chunkMax: nat, limit: nat,
    rawFails: nat -> bool, rawUploads: nat -> seq<Attempt>, fails: nat -> bool, uploads: nat -> seq<Attempt>,
    ghost decode: string -> Option<ConventionPayload>)
    returns (result: Option<seq<Id>>, rawCount: nat, count: nat, r: Request)
    requires (forall d :: d in defs ==> d.Valid()) && Lossless(encode, decode) && chunkMax > 0
    requires forall i :: |rawUploads(i)| == |uploads(i)| == MAX_RETRY
    requires store.Valid() && WellFormed(store.View())
    requires Consistent(session.View()) && OnServer(session.View(), store.View())
    modifies session, store
    ensures store.Valid() && Consistent(session.View())
    ensures result.None? ==> session.View() == old(session.View())
    ensures result.Some? <==>
            (&& GoThrough(rawFails, rawCount)
             && AllUploadsGood(RawRequest(RawInputs(defs, |defs|)), chunkMax, rawUploads)
             && GoThrough(fails, count) && AllUploadsGood(r, chunkMax, uploads))
    ensures Counted(RawRequest(RawInputs(defs, |defs|)), chunkMax, limit, rawFails, rawUploads, rawCount)
    ensures if GoThrough(rawFails, rawCount) && AllUploadsGood(RawRequest(RawInputs(defs, |defs|)), chunkMax, rawUploads)
            then Counted(r, chunkMax, limit, fails, uploads, count) else count == 0
    ensures result.Some? ==> |result.value| == |defs|
    ensures result.Some? ==> forall i :: 0 <= i < |defs| ==>
              && result.value[i] in session.taskIdResultId
              && session.taskIdResultId[result.value[i]] in session.resultHandlers
              && session.resultHandlers[session.taskIdResultId[result.value[i]]] == handler
    ensures result.Some? ==> forall i, later ::
              (0 <= i < |defs| && Keeps(store.View(), later, {}) && BlobsStored(later, defs[i], options)) ==>
                AsMeant(later, defs[i], options, decode, result.value[i])
  {
    hide WellFormed, Consistent, OnServer, Keeps, Lossless, AsMeant, BlobsStored, UploadedAs, RequestFor, RawInputs;
    hide AllUploadsGood, GoThrough, Counted;
    ghost var before, maps := store.View(), session.View();
    var raws := CollectRawInputs(defs);
    var ids;
    ids, rawCount := UploadRaws(store, raws, chunkMax, limit, rawFails, rawUploads);
    count := 0;
    if ids.None? {
      r := RawRequest(raws);
      return None, rawCount, count, r;
    }
    ghost var uploaded := store.View();
    MoreResults(before, uploaded, maps);
    r := BuildRequest(defs, options, raws, ids.value, encode);
    RequestIsValid(defs, options, ids.value, encode, r);
    ghost var u;
    result, count, u := SubmitAndRecord(session, store, r, handler, chunkMax, limit, fails, uploads);
    if result.Some? {
      RecordedWith(maps, session.View(), u.outputs, u.tasks, handler);
      KeepsItself(uploaded);
      forall i, later | 0 <= i < |defs| && Keeps(store.View(), later, {}) && BlobsStored(later, defs[i], options)
        ensures AsMeant(later, defs[i], options, decode, result.value[i])
      {
        WorkerSeesWhatTheClientMeant(defs, options, encode, decode, chunkMax, limit,
                                     before, uploaded, ids.value, uploaded, r, u, later, i);
      }
    }
  }

  lemma RequestIsValid(
    defs: seq<TaskDefinition>, options: map<string, string>, ids: seq<Id>, encode: ConventionPayload -> string, r: Request)
    requires |ids| == |RawInputs(defs, |defs|)| && RequestFor(defs, options, ids, encode, r)
    ensures r.Valid() && r.withOutputs && |r.payloads| == |defs|
  {
  }

  lemma KeepsItself(server: Server)
    ensures Keeps(server, server, {})
  {
  }

  lemma RecordedWith(m: Maps, n: Maps, results: seq<Id>, tasks: seq<Id>, handler: Handler)
    requires |results| == |tasks| && Added(m, n, results, tasks, handler)
    ensures forall i :: 0 <= i < |tasks| ==>
              tasks[i] in n.results && n.results[tasks[i]] in n.handlers && n.handlers[n.results[tasks[i]]] == handler
  {
    forall i | 0 <= i < |tasks|
      ensures tasks[i] in n.results && n.results[tasks[i]] in n.handlers && n.handlers[n.results[tasks[i]]] == handler {
      assert tasks[i] in tasks && results[i] in results;
      assert n.results[tasks[i]] == results[i];
      assert results[i] in n.tasks && results[i] in n.tasks.Keys;
    }
  }
}
