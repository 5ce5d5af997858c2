/** From the task definitions of a client to the inputs a worker calls its method with. */
module EndToEnd {
  import opened Prelude
  import opened Submission
  import opened SubmissionTheorems
  import opened Options
  import opened TaskDefinitions

  // ---------- the payload of a task ----------

  lemma {:induction false} RawOfSound(i: nat, inputs: seq<(string, Blob)>, k: nat)
    requires k <= |inputs|
    ensures forall r :: r in RawOf(i, inputs, k) ==> r.task == i && (r.name, RawData(r.data)) in inputs
    ensures forall l :: 0 <= l < k && inputs[l].1.RawData? ==>
              RawInput(i, inputs[l].0, inputs[l].1.data) in RawOf(i, inputs, k)
  {
    if k > 0 {
      RawOfSound(i, inputs, k - 1);
      assert inputs[k - 1] in inputs;
      forall r | r in RawOf(i, inputs, k) ensures r.task == i && (r.name, RawData(r.data)) in inputs {
        var (name, blob) := inputs[k - 1];
        assert r in RawOf(i, inputs, k - 1) || (blob.RawData? && r == RawInput(i, name, blob.data));
      }
    }
  }

  /** The raw inputs are the raw inputs of the tasks, and all of them. */
  lemma {:induction false} RawInputsExact(defs: seq<TaskDefinition>, n: nat)
    requires n <= |defs|
    ensures forall r :: r in RawInputs(defs, n) ==> r.task < n && (r.name, RawData(r.data)) in defs[r.task].inputs
    ensures forall i, l :: 0 <= i < n && 0 <= l < |defs[i].inputs| && defs[i].inputs[l].1.RawData? ==>
              RawInput(i, defs[i].inputs[l].0, defs[i].inputs[l].1.data) in RawInputs(defs, n)
  {
    if n > 0 {
      RawInputsExact(defs, n - 1);
      RawOfSound(n - 1, defs[n - 1].inputs, |defs[n - 1].inputs|);
    }
  }

  lemma {:induction false} ReferencesExact(inputs: seq<(string, Blob)>, k: nat)
    requires k <= |inputs| && TaskDefinition("", inputs).Valid()
    ensures forall name :: name in References(inputs, k) ==> (name, BlobId(References(inputs, k)[name])) in inputs
    ensures forall l :: 0 <= l < k && inputs[l].1.BlobId? ==> inputs[l].0 in References(inputs, k)
    ensures forall l :: 0 <= l < k && inputs[l].1.BlobId? ==>
              inputs[l].1.id in ReferenceIds(inputs, k) && References(inputs, k)[inputs[l].0] == inputs[l].1.id
  {
    if k > 0 {
      ReferencesExact(inputs, k - 1);
      var (last, blob) := inputs[k - 1];
      assert (last, blob) in inputs;
      forall name | name in References(inputs, k) ensures (name, BlobId(References(inputs, k)[name])) in inputs {
        if blob.BlobId? && name == last {
          assert blob == BlobId(References(inputs, k)[name]);
        } else {
          assert References(inputs, k)[name] == References(inputs, k - 1)[name];
        }
      }
    }
  }

  /** A name is filled in with the id of some raw input of that name, and keeps its reference otherwise. */
  lemma {:induction false} FilledInExact(m: map<string, string>, raws: seq<RawInput>, ids: seq<Id>, i: nat, n: nat)
    requires n <= |raws| == |ids|
    ensures var f := FilledIn(m, raws, ids, i, n);
            && (forall name :: name in f ==>
                  || (name in m && f[name] == m[name] && forall j :: 0 <= j < n ==> raws[j].task != i || raws[j].name != name)
                  || exists j :: 0 <= j < n && raws[j].task == i && raws[j].name == name && f[name] == ids[j])
            && (forall name :: name in m ==> name in f)
            && (forall j :: 0 <= j < n && raws[j].task == i ==> raws[j].name in f)
  {
    if n > 0 {
      FilledInExact(m, raws, ids, i, n - 1);
    }
  }

  lemma {:induction false} RawIdsExact(raws: seq<RawInput>, ids: seq<Id>, i: nat, n: nat)
    requires n <= |raws| == |ids|
    ensures forall j :: 0 <= j < n && raws[j].task == i ==> ids[j] in RawIds(raws, ids, i, n)
  {
    if n > 0 {
      RawIdsExact(raws, ids, i, n - 1);
    }
  }

  // ---------- nothing twice, and nothing else ----------

  /** The inputs that are raw data. */
  function RawCount(inputs: seq<(string, Blob)>, k: nat): nat
    requires k <= |inputs|
  {
    if k == 0 then 0 else RawCount(inputs, k - 1) + (if inputs[k - 1].1.RawData? then 1 else 0)
  }

  function RawTotal(defs: seq<TaskDefinition>, n: nat): nat
    requires n <= |defs|
  {
    if n == 0 then 0 else RawTotal(defs, n - 1) + RawCount(defs[n - 1].inputs, |defs[n - 1].inputs|)
  }

  /** There are as many uploads as there are raw inputs. */
  lemma {:induction false} RawInputsCounted(defs: seq<TaskDefinition>, n: nat)
    requires n <= |defs|
    ensures |RawInputs(defs, n)| == RawTotal(defs, n)
  {
    if n > 0 {
      RawInputsCounted(defs, n - 1);
      RawOfCounted(n - 1, defs[n - 1].inputs, |defs[n - 1].inputs|);
    }
  }

  lemma {:induction false} RawOfCounted(i: nat, inputs: seq<(string, Blob)>, k: nat)
    requires k <= |inputs|
    ensures |RawOf(i, inputs, k)| == RawCount(inputs, k)
  {
    if k > 0 {
      RawOfCounted(i, inputs, k - 1);
    }
  }

  lemma {:induction false} RawInputsPrefix(defs: seq<TaskDefinition>, m: nat, n: nat)
    requires m <= n <= |defs|
    ensures |RawInputs(defs, m)| <= |RawInputs(defs, n)| && RawInputs(defs, n)[..|RawInputs(defs, m)|] == RawInputs(defs, m)
  {
    if m < n {
      RawInputsPrefix(defs, m, n - 1);
    } else {
      assert RawInputs(defs, n)[..|RawInputs(defs, n)|] == RawInputs(defs, n);
    }
  }

  /** The raw inputs of task `n` stand together. */
  lemma RawStretch(defs: seq<TaskDefinition>, n: nat)
    requires n < |defs|
    ensures var first, end := |RawInputs(defs, n)|, |RawInputs(defs, n + 1)|;
            && first <= end <= |RawInputs(defs, |defs|)| && end - first == RawCount(defs[n].inputs, |defs[n].inputs|)
            && forall j :: first <= j < end ==> RawInputs(defs, |defs|)[j].task == n
  {
    var more := RawOf(n, defs[n].inputs, |defs[n].inputs|);
    RawOfSound(n, defs[n].inputs, |defs[n].inputs|);
    RawOfCounted(n, defs[n].inputs, |defs[n].inputs|);
    assert RawInputs(defs, n + 1) == RawInputs(defs, n) + more;
    RawInputsPrefix(defs, n + 1, |defs|);
    hide RawInputs, RawOf, RawCount;
    var first, all := |RawInputs(defs, n)|, RawInputs(defs, |defs|);
    forall j | first <= j < first + |more| ensures all[j].task == n {
      assert all[j] == all[..first + |more|][j] == more[j - first] && more[j - first] in more;
    }
  }

  /** The uploads of task `i` are its own raw inputs, one id for each. */
  lemma {:induction false} RawIdsCounted(defs: seq<TaskDefinition>, ids: seq<Id>, i: nat, n: nat)
    requires n <= |defs| && |ids| == |RawInputs(defs, |defs|)|
    ensures |RawInputs(defs, n)| <= |ids|
    ensures |RawIds(RawInputs(defs, |defs|), ids, i, |RawInputs(defs, n)|)|
         == if i < n then RawCount(defs[i].inputs, |defs[i].inputs|) else 0
  {
    RawInputsPrefix(defs, n, |defs|);
    if n > 0 {
      RawIdsCounted(defs, ids, i, n - 1);
      RawStretch(defs, n - 1);
      hide RawInputs, RawIds, RawCount;
      RawIdsRun(RawInputs(defs, |defs|), ids, i, n - 1, |RawInputs(defs, n - 1)|, |RawInputs(defs, n)|);
    }
  }

  /** A stretch of raw inputs that belong to one task. */
  lemma {:induction false} RawIdsRun(raws: seq<RawInput>, ids: seq<Id>, i: nat, owner: nat, first: nat, end: nat)
    requires first <= end <= |raws| == |ids| && forall j :: first <= j < end ==> raws[j].task == owner
    ensures |RawIds(raws, ids, i, end)| == |RawIds(raws, ids, i, first)| + (if i == owner then end - first else 0)
    decreases end
  {
    if first < end {
      RawIdsRun(raws, ids, i, owner, first, end - 1);
    }
  }

  lemma {:induction false} ReferenceIdsCounted(inputs: seq<(string, Blob)>, k: nat)
    requires k <= |inputs|
    ensures |ReferenceIds(inputs, k)| == k - RawCount(inputs, k)
    ensures forall d :: d in ReferenceIds(inputs, k) ==> IsReference(inputs[..k], d)
  {
    if k > 0 {
      ReferenceIdsCounted(inputs, k - 1);
      assert inputs[..k] == inputs[..k - 1] + [inputs[k - 1]];
      if inputs[k - 1].1.BlobId? {
        assert inputs[..k][k - 1].1 == BlobId(inputs[k - 1].1.id);
      }
    }
  }

  lemma {:induction false} RawIdsOwn(raws: seq<RawInput>, ids: seq<Id>, i: nat, n: nat)
    requires n <= |raws| == |ids|
    ensures forall d :: d in RawIds(raws, ids, i, n) ==> IsUpload(raws, ids, i, d)
  {
    if n > 0 {
      RawIdsOwn(raws, ids, i, n - 1);
      assert raws[n - 1].task == i ==> ids[n - 1] == ids[n - 1];
    }
  }

  ghost predicate IsUpload(raws: seq<RawInput>, ids: seq<Id>, i: nat, d: Id)
    requires |raws| == |ids|
  {
    exists j :: 0 <= j < |raws| && raws[j].task == i && ids[j] == d
  }

  ghost predicate IsReference(inputs: seq<(string, Blob)>, d: Id) {
    exists k :: 0 <= k < |inputs| && inputs[k].1 == BlobId(d)
  }

  /**
   * A task depends on its library, if that is a blob, then on the uploads of its raw inputs, then on the blobs it refers to:
   * one dependency for each, and on nothing else.
   */
  lemma DependenciesExactly(defs: seq<TaskDefinition>, options: map<string, string>, ids: seq<Id>, i: nat)
    requires |ids| == |RawInputs(defs, |defs|)| && i < |defs|
    ensures var raws, inputs := RawInputs(defs, |defs|), defs[i].inputs;
            var library := "LibraryBlobId" in options && options["LibraryBlobId"] != "";
            var deps := DepsOf(defs[i], options, raws, ids, i);
            var first := if library then 1 else 0;
            && |deps| == first + |inputs| && RawCount(inputs, |inputs|) <= |inputs|
            && (library ==> deps[0] == options["LibraryBlobId"])
            && (forall k :: first <= k < first + RawCount(inputs, |inputs|) ==> IsUpload(raws, ids, i, deps[k]))
            && (forall k :: first + RawCount(inputs, |inputs|) <= k < |deps| ==> IsReference(inputs, deps[k]))
  {
    var raws, inputs := RawInputs(defs, |defs|), defs[i].inputs;
    assert raws[..|raws|] == raws;
    RawIdsCounted(defs, ids, i, |defs|);
    RawIdsOwn(raws, ids, i, |raws|);
    ReferenceIdsCounted(inputs, |inputs|);
    assert inputs[..|inputs|] == inputs;
    hide RawInputs, RawIds, ReferenceIds, RawCount, IsUpload, IsReference;
    ThreeParts(LibraryDeps(options), RawIds(raws, ids, i, |raws|), ReferenceIds(inputs, |inputs|), raws, ids, i, inputs);
  }

  lemma ThreeParts(
    a: seq<Id>, b: seq<Id>, c: seq<Id>, raws: seq<RawInput>, ids: seq<Id>, i: nat, inputs: seq<(string, Blob)>)
    requires |raws| == |ids|
    requires (forall d :: d in b ==> IsUpload(raws, ids, i, d)) && forall d :: d in c ==> IsReference(inputs, d)
    ensures forall k :: |a| <= k < |a| + |b| ==> IsUpload(raws, ids, i, (a + b + c)[k])
    ensures forall k :: |a| + |b| <= k < |a + b + c| ==> IsReference(inputs, (a + b + c)[k])
  {
    hide IsUpload, IsReference;
    forall k | |a| <= k < |a| + |b| ensures IsUpload(raws, ids, i, (a + b + c)[k]) {
      assert (a + b + c)[k] == b[k - |a|];
    }
    forall k | |a| + |b| <= k < |a + b + c| ensures IsReference(inputs, (a + b + c)[k]) {
      assert (a + b + c)[k] == c[k - |a| - |b|];
    }
  }

  // ---------- the whole way ----------

  function Contents(raws: seq<RawInput>): (data: seq<string>)
    ensures |data| == |raws|
  {
    seq(|raws|, j requires 0 <= j < |raws| => raws[j].data)
  }

  /** The ids of the raw inputs: Submit uploads them in one go, and skips the upload when there are none. */
  ghost predicate UploadedAs(raws: seq<RawInput>, before: Server, after: Server, ids: seq<Id>, chunkMax: nat, limit: nat) {
    if raws == [] then ids == [] && before == after
    else exists s :: Reachable(Start(Request(Contents(raws), [], map[], false), before, chunkMax, limit), s)
                  && s.phase.Completed? && s.server == after && s.inputs == ids
  }

  /** The data dependencies that the agent downloads for a task, once they are all there. */
  function Downloaded(server: Server, deps: seq<Id>): map<Id, string> {
    map id | id in deps && id in server.results && server.results[id].content.Some?
        :: server.results[id].content.value
  }

  /** What input `blob` means to the client: its own data, or the content stored under its id. */
  ghost predicate Means(server: Server, blob: Blob, value: string) {
    match blob
    case RawData(data) => value == data
    case BlobId(id) => id in server.results && server.results[id].content == Some(value)
  }

  /** The server has the blobs a task refers to; otherwise the task does not start. */
  ghost predicate BlobsStored(server: Server, def: TaskDefinition, options: map<string, string>) {
    && (forall k :: 0 <= k < |def.inputs| && def.inputs[k].1.BlobId? ==>
          var id := def.inputs[k].1.id; id in server.results && server.results[id].content.Some?)
    && (forall id :: id in LibraryDeps(options) ==> id in server.results && server.results[id].content.Some?)
  }

  lemma UploadsHoldData(raws: seq<RawInput>, before: Server, after: Server, ids: seq<Id>, chunkMax: nat, limit: nat)
    requires UploadedAs(raws, before, after, ids, chunkMax, limit)
    ensures |ids| == |raws|
    ensures forall j :: 0 <= j < |raws| ==>
              ids[j] in after.results && after.results[ids[j]].content == Some(raws[j].data)
  {
    if raws != [] {
      var request := Request(Contents(raws), [], map[], false);
      var s :| Reachable(Start(request, before, chunkMax, limit), s)
               && s.phase.Completed? && s.server == after && s.inputs == ids;
      CompletedIsExact(request, before, chunkMax, limit, s);
    }
  }

  /**
   * One task: its payload names exactly the inputs of its definition, and resolving them against its
   * dependencies gives each name its meaning.
   */
  lemma ResolvedAsMeant(
    defs: seq<TaskDefinition>, options: map<string, string>, ids: seq<Id>, server: Server, i: nat)
    requires (forall d :: d in defs ==> d.Valid()) && i < |defs| && BlobsStored(server, defs[i], options)
    requires var raws := RawInputs(defs, |defs|);
             |ids| == |raws| && forall j :: 0 <= j < |raws| ==>
               ids[j] in server.results && server.results[ids[j]].content == Some(raws[j].data)
    ensures var raws := RawInputs(defs, |defs|);
            var resolved := Resolve(PayloadOf(defs[i], raws, ids, i).inputs,
                                    Downloaded(server, DepsOf(defs[i], options, raws, ids, i)));
            && (forall name :: name in resolved ==> exists k :: 0 <= k < |defs[i].inputs| && defs[i].inputs[k].0 == name)
            && (forall k :: 0 <= k < |defs[i].inputs| ==>
                  defs[i].inputs[k].0 in resolved && Means(server, defs[i].inputs[k].1, resolved[defs[i].inputs[k].0]))
  {
    var raws := RawInputs(defs, |defs|);
    var def := defs[i];
    assert def in defs;
    var refs := References(def.inputs, |def.inputs|);
    var filled := PayloadOf(def, raws, ids, i).inputs;
    RawInputsExact(defs, |defs|);
    ReferencesExact(def.inputs, |def.inputs|);
    FilledInExact(refs, raws, ids, i, |raws|);
    RawIdsExact(raws, ids, i, |raws|);
    hide RawInputs, References, FilledIn, RawIds, ReferenceIds;
    forall name | name in filled ensures exists k :: 0 <= k < |def.inputs| && def.inputs[k].0 == name {
      if name in refs && filled[name] == refs[name] {
        assert (name, BlobId(refs[name])) in def.inputs;
      } else {
        var j :| 0 <= j < |raws| && raws[j].task == i && raws[j].name == name;
        assert raws[j] in raws && (name, RawData(raws[j].data)) in def.inputs;
      }
    }
    forall k | 0 <= k < |def.inputs|
      ensures def.inputs[k].0 in filled
      ensures Means(server, def.inputs[k].1, Resolve(filled, Downloaded(server, DepsOf(def, options, raws, ids, i)))[def.inputs[k].0])
    {
      InputAsMeant(defs, options, raws, ids, server, i, k);
    }
  }

  lemma NameIsUnique(def: TaskDefinition, name: string, a: Blob, b: Blob)
    requires def.Valid() && (name, a) in def.inputs && (name, b) in def.inputs
    ensures a == b
  {
    var k :| 0 <= k < |def.inputs| && def.inputs[k] == (name, a);
    var l :| 0 <= l < |def.inputs| && def.inputs[l] == (name, b);
    assert k == l;
  }

  lemma RawIsNoReference(def: TaskDefinition, name: string, data: string)
    requires def.Valid() && (name, RawData(data)) in def.inputs
    ensures forall id :: (name, BlobId(id)) !in def.inputs
  {
    forall id ensures (name, BlobId(id)) !in def.inputs {
      if (name, BlobId(id)) in def.inputs {
        var k :| 0 <= k < |def.inputs| && def.inputs[k] == (name, RawData(data));
        var l :| 0 <= l < |def.inputs| && def.inputs[l] == (name, BlobId(id));
        assert false;
      }
    }
  }

  /** The value a payload carries for an input: the id of its upload, or the id it refers to; a dependency in both cases. */
  lemma PayloadValue(
    defs: seq<TaskDefinition>, options: map<string, string>, raws: seq<RawInput>, ids: seq<Id>, i: nat, k: nat)
    requires (forall d :: d in defs ==> d.Valid()) && i < |defs| && k < |defs[i].inputs|
    requires raws == RawInputs(defs, |defs|) && |ids| == |raws|
    ensures var filled := PayloadOf(defs[i], raws, ids, i).inputs;
            var (name, blob) := defs[i].inputs[k];
            && name in filled
            && filled[name] in DepsOf(defs[i], options, raws, ids, i)
            && match blob
               case RawData(data) => exists j :: 0 <= j < |raws| && filled[name] == ids[j] && raws[j].data == data
               case BlobId(id) => filled[name] == id
  {
    var def := defs[i];
    var (name, blob) := def.inputs[k];
    assert def in defs && (name, blob) in def.inputs;
    var refs := References(def.inputs, |def.inputs|);
    var filled := PayloadOf(def, raws, ids, i).inputs;
    RawInputsExact(defs, |defs|);
    ReferencesExact(def.inputs, |def.inputs|);
    FilledInExact(refs, raws, ids, i, |raws|);
    RawIdsExact(raws, ids, i, |raws|);
    hide RawInputs, References, FilledIn, RawIds, ReferenceIds;
    forall j | 0 <= j < |raws| && raws[j].task == i && raws[j].name == name ensures blob == RawData(raws[j].data) {
      assert raws[j] in raws;
      NameIsUnique(def, name, blob, RawData(raws[j].data));
    }
    if blob.RawData? {
      assert RawInput(i, name, blob.data) in raws;
      var j :| 0 <= j < |raws| && raws[j] == RawInput(i, name, blob.data);
      RawIsNoReference(def, name, blob.data);
    }
  }

  lemma InputAsMeant(
    defs: seq<TaskDefinition>, options: map<string, string>, raws: seq<RawInput>, ids: seq<Id>, server: Server, i: nat, k: nat)
    requires (forall d :: d in defs ==> d.Valid()) && i < |defs| && BlobsStored(server, defs[i], options)
    requires raws == RawInputs(defs, |defs|) && |ids| == |raws| && k < |defs[i].inputs|
    requires forall j :: 0 <= j < |raws| ==>
               ids[j] in server.results && server.results[ids[j]].content == Some(raws[j].data)
    ensures var filled := PayloadOf(defs[i], raws, ids, i).inputs;
            var (name, blob) := defs[i].inputs[k];
            && name in filled
            && Means(server, blob, Resolve(filled, Downloaded(server, DepsOf(defs[i], options, raws, ids, i)))[name])
  {
    PayloadValue(defs, options, raws, ids, i, k);
    hide PayloadOf, DepsOf, RawInputs;
  }

  // ---------- the theorem ----------

  /** A JSON encoding that loses nothing. */
  ghost predicate Lossless(encode: ConventionPayload -> string, decode: string -> Option<ConventionPayload>) {
    forall p :: decode(encode(p)) == Some(p)
  }

  /** What SubmitRaw is called with. */
  ghost predicate RequestFor(
    defs: seq<TaskDefinition>, options: map<string, string>, ids: seq<Id>, encode: ConventionPayload -> string, r: Request)
    requires |ids| == |RawInputs(defs, |defs|)|
  {
    var raws := RawInputs(defs, |defs|);
    && |r.payloads| == |r.dependencies| == |defs| && r.withOutputs && r.options == options
    && forall i :: 0 <= i < |defs| ==>
         && r.payloads[i] == encode(PayloadOf(defs[i], raws, ids, i))
         && r.dependencies[i] == DepsOf(defs[i], options, raws, ids, i)
  }

  /**
   * The task is on the server; its payload decodes, and resolving its inputs against its dependencies gives
   * every input of the definition its meaning, and no others; a library blob is one of the dependencies. The
   * worker gets as far as the call exactly when the options fit, and it calls the method of the options with those inputs.
   */
  ghost predicate AsMeant(
    server: Server, def: TaskDefinition, options: map<string, string>, decode: string -> Option<ConventionPayload>, id: Id) {
    && id in server.tasks
    && var task := server.tasks[id];
       && task.options == options
       && task.payload in server.results && server.results[task.payload].content.Some?
       && var payload := decode(server.results[task.payload].content.value);
          var deps := Downloaded(server, task.dependencies);
          && payload.Some? && payload.value.methodName == def.methodName && payload.value.outputs == map[]
          && var resolved := Resolve(payload.value.inputs, deps);
             && (forall name :: name in resolved ==> exists k :: 0 <= k < |def.inputs| && def.inputs[k].0 == name)
             && (forall k :: 0 <= k < |def.inputs| ==>
                   def.inputs[k].0 in resolved && Means(server, def.inputs[k].1, resolved[def.inputs[k].0]))
             && (Get(options, KEY_LIBRARY_BLOB_ID) != "" ==> options[KEY_LIBRARY_BLOB_ID] in deps)
             && var prepared := Prepare(task.options, deps, payload);
                && (prepared.Success? <==> OptionsFit(options))
                && (prepared.Success? ==>
                      && prepared.value.inputs == resolved && prepared.value.methodName == options[KEY_SYMBOL]
                      && LibraryFits(server, options, prepared.value))
  }

  /** The options of a convention task: the right version, a method, and a library by path or by blob. */
  predicate OptionsFit(options: map<string, string>) {
    && "ConventionVersion" in options && options["ConventionVersion"] == "v1"
    && "Symbol" in options && options["Symbol"] != ""
    && (("LibraryBlobId" in options && options["LibraryBlobId"] != "")
        || ("LibraryPath" in options && options["LibraryPath"] != ""))
  }

  /** The library is the content of the blob, if there is one, and the file at the path else. */
  predicate LibraryFits(server: Server, options: map<string, string>, prepared: Prepared) {
    var blob := Get(options, KEY_LIBRARY_BLOB_ID);
    if blob == "" then prepared.libraryPath == Get(options, KEY_LIBRARY_PATH) && prepared.file.None?
    else && blob in server.results && prepared.file.Some? && server.results[blob].content == prepared.file
         && prepared.libraryPath == "/tmp/armonik-lib-" + blob + ".so"
  }

  lemma PreparedExactly(server: Server, options: map<string, string>, dependencies: seq<Id>, payload: ConventionPayload)
    requires Get(options, KEY_LIBRARY_BLOB_ID) != "" ==>
               options[KEY_LIBRARY_BLOB_ID] in Downloaded(server, dependencies)
    ensures var prepared := Prepare(options, Downloaded(server, dependencies), Some(payload));
            && (prepared.Success? <==> OptionsFit(options))
            && (prepared.Success? ==>
                  && prepared.value.inputs == Resolve(payload.inputs, Downloaded(server, dependencies))
                  && prepared.value.methodName == options[KEY_SYMBOL] && LibraryFits(server, options, prepared.value))
  {
    hide Resolve;
  }

  /**
   * End to end: whatever the schedules of the two uploads, whatever other clients do in between, and
   * whatever happens to the server afterwards short of losing data, the worker that executes task `i`
   * reads a payload whose inputs resolve to what definition `i` meant, and finds the library blob.
   */
  lemma WorkerSeesWhatTheClientMeant(
    defs: seq<TaskDefinition>, options: map<string, string>,
    encode: ConventionPayload -> string, decode: string -> Option<ConventionPayload>,
    chunkMax: nat, limit: nat,
    before: Server, uploaded: Server, ids: seq<Id>, between: Server, request: Request, s: State, later: Server, i: nat)
    requires (forall d :: d in defs ==> d.Valid()) && Lossless(encode, decode)
    requires UploadedAs(RawInputs(defs, |defs|), before, uploaded, ids, chunkMax, limit)
    requires Keeps(uploaded, between, {})
    requires |ids| == |RawInputs(defs, |defs|)| && RequestFor(defs, options, ids, encode, request)
    requires Reachable(Start(request, between, chunkMax, limit), s) && s.phase.Completed?
    requires Keeps(s.server, later, {})
    requires i < |defs| && BlobsStored(later, defs[i], options)
    ensures |s.tasks| == |defs| && AsMeant(later, defs[i], options, decode, s.tasks[i])
  {
    var raws := RawInputs(defs, |defs|);
    UploadsHoldData(raws, before, uploaded, ids, chunkMax, limit);
    TaskIsStored(defs, options, ids, encode, chunkMax, limit, between, request, s, later, i);
    hide Reachable, Start, RawInputs, UploadedAs, RequestFor, Keeps;
    forall j | 0 <= j < |raws|
      ensures ids[j] in later.results && later.results[ids[j]].content == Some(raws[j].data)
    {
      KeptData(uploaded, between, ids[j]);
      KeptData(between, s.server, ids[j]);
      KeptData(s.server, later, ids[j]);
    }
    hide AsMeant, PayloadOf, DepsOf, Lossless, BlobsStored;
    StoredIsAsMeant(defs, options, encode, decode, ids, later, i, s.tasks[i]);
  }

  lemma KeptData(a: Server, b: Server, id: Id)
    requires Keeps(a, b, {}) && id in a.results && a.results[id].content.Some?
    ensures id in b.results && b.results[id] == a.results[id]
  {
  }

  /** A task that is stored with what was built for definition `i` is what its client meant. */
  lemma StoredIsAsMeant(
    defs: seq<TaskDefinition>, options: map<string, string>,
    encode: ConventionPayload -> string, decode: string -> Option<ConventionPayload>,
    ids: seq<Id>, server: Server, i: nat, id: Id)
    requires (forall d :: d in defs ==> d.Valid()) && Lossless(encode, decode)
    requires i < |defs| && BlobsStored(server, defs[i], options)
    requires var raws := RawInputs(defs, |defs|);
             |ids| == |raws| && forall j :: 0 <= j < |raws| ==>
               ids[j] in server.results && server.results[ids[j]].content == Some(raws[j].data)
    requires id in server.tasks
    requires var raws := RawInputs(defs, |defs|);
             var task := server.tasks[id];
             && task.options == options && task.dependencies == DepsOf(defs[i], options, raws, ids, i)
             && task.payload in server.results
             && server.results[task.payload].content == Some(encode(PayloadOf(defs[i], raws, ids, i)))
    ensures AsMeant(server, defs[i], options, decode, id)
  {
    var raws := RawInputs(defs, |defs|);
    ResolvedAsMeant(defs, options, ids, server, i);
    hide RawInputs, PayloadOf, Means, Resolve;
    assert decode(encode(PayloadOf(defs[i], raws, ids, i))) == Some(PayloadOf(defs[i], raws, ids, i));
    if Get(options, KEY_LIBRARY_BLOB_ID) != "" {
      assert options[KEY_LIBRARY_BLOB_ID] in LibraryDeps(options);
    }
    PreparedExactly(server, options, server.tasks[id].dependencies, PayloadOf(defs[i], raws, ids, i));
    hide Prepare, LibraryFits, OptionsFit;
  }

  /** Task `i` is on the server with the payload and the dependencies built for it, and so it stays. */
  lemma TaskIsStored(
    defs: seq<TaskDefinition>, options: map<string, string>, ids: seq<Id>, encode: ConventionPayload -> string,
    chunkMax: nat, limit: nat, between: Server, request: Request, s: State, later: Server, i: nat)
    requires |ids| == |RawInputs(defs, |defs|)| && RequestFor(defs, options, ids, encode, request) && i < |defs|
    requires Reachable(Start(request, between, chunkMax, limit), s) && s.phase.Completed? && Keeps(s.server, later, {})
    ensures Keeps(between, s.server, {})
    ensures |s.tasks| == |defs| && s.tasks[i] in later.tasks
    ensures var raws := RawInputs(defs, |defs|);
            var task := later.tasks[s.tasks[i]];
            && task.options == options && task.dependencies == DepsOf(defs[i], options, raws, ids, i)
            && task.payload in later.results
            && later.results[task.payload].content == Some(encode(PayloadOf(defs[i], raws, ids, i)))
  {
    CompletedIsExact(request, between, chunkMax, limit, s);
    KeptByRun(request, between, chunkMax, limit, s);
    hide Reachable, Start, RawInputs, PayloadOf, DepsOf;
    var task := TaskRequest(s, i);
    assert s.tasks[i] in s.server.tasks && s.server.tasks[s.tasks[i]] == task;
    assert task.payload == s.inputs[i] && task.payload in s.server.results;
  }

  lemma KeptByRun(request: Request, server: Server, chunkMax: nat, limit: nat, s: State)
    requires Reachable(Start(request, server, chunkMax, limit), s)
    ensures Keeps(server, s.server, {})
  {
    var start := Start(request, server, chunkMax, limit);
    var steps :| IsRun(start, steps) && After(start, steps) == s;
    IssuedRun(server, start, steps);
  }

  /**
   * The method a worker calls is the Symbol option, not the method name of the definition; the payload
   * carries that name, and nothing reads it. The two agree exactly when the client set them alike.
   */
  lemma MethodIsTheSymbol(
    def: TaskDefinition, options: map<string, string>, raws: seq<RawInput>, ids: seq<Id>, i: nat, deps: map<Id, string>)
    requires |raws| == |ids|
    ensures var prepared := Prepare(options, deps, Some(PayloadOf(def, raws, ids, i)));
            && (prepared.Success? ==> (prepared.value.methodName == def.methodName <==> Get(options, KEY_SYMBOL) == def.methodName))
            && (prepared.Success? <==>
                  && Get(options, KEY_CONVENTION_VERSION) == CONVENTION_VERSION && KEY_CONVENTION_VERSION in options
                  && Get(options, KEY_SYMBOL) != ""
                  && if Get(options, KEY_LIBRARY_BLOB_ID) == "" then Get(options, KEY_LIBRARY_PATH) != ""
                     else options[KEY_LIBRARY_BLOB_ID] in deps)
  {
  }

  /** Two names the client may well set apart. */
  lemma MethodNameIgnored()
    ensures exists def: TaskDefinition, options: map<string, string> ::
              var prepared := Prepare(options, map[], Some(PayloadOf(def, [], [], 0)));
              prepared.Success? && prepared.value.methodName != def.methodName
  {
    var def := TaskDefinition("b", []);
    var lib := DynamicLibrary("/lib.so", "a", "");
    var options := WithLibrary(map[], lib);
    LibraryRoundTripExactly(map[], lib);
    MethodIsTheSymbol(def, options, [], [], 0, map[]);
    assert Prepare(options, map[], Some(PayloadOf(def, [], [], 0))).value.methodName == "a";
  }
}
