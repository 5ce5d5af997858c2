/**
 * The convention path: a client submits task definitions, whose inputs are raw data or references to
 * blobs, and a worker resolves the inputs of a task against the data it was given.
 */
module TaskDefinitions {
  import opened Prelude
  import opened Options

  datatype Blob = RawData(data: string) | BlobId(id: Id)

  /** The inputs are a map from names, listed in the order of the map. */
  datatype TaskDefinition = TaskDefinition(methodName: string, inputs: seq<(string, Blob)>) {
    predicate Valid() {
      forall k, l :: 0 <= k < l < |inputs| ==> inputs[k].0 != inputs[l].0
    }
  }

  datatype ConventionPayload = ConventionPayload(
    methodName: string,
    inputs: map<string, string>,
    outputs: map<string, string>)

  /** A raw input, to be uploaded under its index in the list of all raw inputs. */
  datatype RawInput = RawInput(task: nat, name: string, data: string)

  // ---------- client: specification ----------

  /** The raw inputs among the first `k` inputs of task `i`. */
  function RawOf(i: nat, inputs: seq<(string, Blob)>, k: nat): seq<RawInput>
    requires k <= |inputs|
  {
    if k == 0 then []
    else
      var (name, blob) := inputs[k - 1];
      RawOf(i, inputs, k - 1) + (if blob.RawData? then [RawInput(i, name, blob.data)] else [])
  }

  function RawInputs(defs: seq<TaskDefinition>, n: nat): seq<RawInput>
    requires n <= |defs|
  {
    if n == 0 then [] else RawInputs(defs, n - 1) + RawOf(n - 1, defs[n - 1].inputs, |defs[n - 1].inputs|)
  }

  /** The references among the first `k` inputs, by name. */
  function References(inputs: seq<(string, Blob)>, k: nat): map<string, string>
    requires k <= |inputs|
  {
    if k == 0 then map[]
    else
      var (name, blob) := inputs[k - 1];
      var m := References(inputs, k - 1);
      if blob.BlobId? then m[name := blob.id] else m
  }

  /** The inputs of task `i` once the ids of the first `n` raw inputs are filled in. */
  function FilledIn(m: map<string, string>, raws: seq<RawInput>, ids: seq<Id>, i: nat, n: nat): map<string, string>
    requires n <= |raws| == |ids|
  {
    if n == 0 then m
    else
      var before := FilledIn(m, raws, ids, i, n - 1);
      if raws[n - 1].task == i then before[raws[n - 1].name := ids[n - 1]] else before
  }

  function PayloadOf(def: TaskDefinition, raws: seq<RawInput>, ids: seq<Id>, i: nat): ConventionPayload
    requires |raws| == |ids|
  {
    ConventionPayload(def.methodName, FilledIn(References(def.inputs, |def.inputs|), raws, ids, i, |raws|), map[])
  }

  function LibraryDeps(options: map<string, string>): seq<Id> {
    if Get(options, KEY_LIBRARY_BLOB_ID) == "" then [] else [options[KEY_LIBRARY_BLOB_ID]]
  }

  function RawIds(raws: seq<RawInput>, ids: seq<Id>, i: nat, n: nat): seq<Id>
    requires n <= |raws| == |ids|
  {
    if n == 0 then [] else RawIds(raws, ids, i, n - 1) + (if raws[n - 1].task == i then [ids[n - 1]] else [])
  }

  function ReferenceIds(inputs: seq<(string, Blob)>, k: nat): seq<Id>
    requires k <= |inputs|
  {
    if k == 0 then []
    else ReferenceIds(inputs, k - 1) + (if inputs[k - 1].1.BlobId? then [inputs[k - 1].1.id] else [])
  }

  function DepsOf(def: TaskDefinition, options: map<string, string>, raws: seq<RawInput>, ids: seq<Id>, i: nat): seq<Id>
    requires |raws| == |ids|
  {
    LibraryDeps(options) + RawIds(raws, ids, i, |raws|) + ReferenceIds(def.inputs, |def.inputs|)
  }

  // ---------- client: the loops of Submit ----------

  /** Flattens the raw inputs of all tasks. */
  method CollectRawInputs(defs: seq<TaskDefinition>) returns (raws: seq<RawInput>)
    ensures raws == RawInputs(defs, |defs|)
  {
    raws := [];
    for i := 0 to |defs|
      invariant raws == RawInputs(defs, i)
    {
      ghost var before := raws;
      var inputs := defs[i].inputs;
      for k := 0 to |inputs|
        invariant raws == before + RawOf(i, inputs, k)
      {
        var (name, blob) := inputs[k];
        if blob.RawData? {
          raws := raws + [RawInput(i, name, blob.data)];
        }
      }
    }
  }

  /** Builds the payloads: references first, then the ids of the uploaded raw inputs. */
  method BuildPayloads(defs: seq<TaskDefinition>, raws: seq<RawInput>, ids: seq<Id>)
    returns (payloads: array<ConventionPayload>)
    requires |raws| == |ids| && forall r :: r in raws ==> r.task < |defs|
    ensures fresh(payloads) && payloads.Length == |defs|
    ensures forall i :: 0 <= i < |defs| ==> payloads[i] == PayloadOf(defs[i], raws, ids, i)
  {
    payloads := new ConventionPayload[|defs|](_ => ConventionPayload("", map[], map[]));
    for i := 0 to |defs|
      invariant forall t :: 0 <= t < i ==>
        payloads[t] == ConventionPayload(defs[t].methodName, References(defs[t].inputs, |defs[t].inputs|), map[])
    {
      var inputs := defs[i].inputs;
      payloads[i] := ConventionPayload(defs[i].methodName, map[], map[]);
      label Row:
      for k := 0 to |inputs|
        invariant forall t :: 0 <= t < i ==> payloads[t] == old@Row(payloads[t])
        invariant payloads[i] == ConventionPayload(defs[i].methodName, References(inputs, k), map[])
      {
        var (name, blob) := inputs[k];
        if blob.BlobId? {
          payloads[i] := payloads[i].(inputs := payloads[i].inputs[name := blob.id]);
        }
      }
    }
    for j := 0 to |raws|
      invariant forall t :: 0 <= t < |defs| ==>
        payloads[t] == ConventionPayload(defs[t].methodName,
                                         FilledIn(References(defs[t].inputs, |defs[t].inputs|), raws, ids, t, j), map[])
    {
      var i := raws[j].task;
      assert raws[j] in raws;
      payloads[i] := payloads[i].(inputs := payloads[i].inputs[raws[j].name := ids[j]]);
    }
  }

  /** Lists the dependencies of every task: the library, the raw inputs, the references. */
  method BuildDependencies(defs: seq<TaskDefinition>, options: map<string, string>, raws: seq<RawInput>, ids: seq<Id>)
    returns (deps: array<seq<Id>>)
    requires |raws| == |ids| && forall r :: r in raws ==> r.task < |defs|
    ensures fresh(deps) && deps.Length == |defs|
    ensures forall i :: 0 <= i < |defs| ==> deps[i] == DepsOf(defs[i], options, raws, ids, i)
  {
    var libraryDeps: seq<Id> := [];
    if KEY_LIBRARY_BLOB_ID in options && options[KEY_LIBRARY_BLOB_ID] != "" {
      libraryDeps := [options[KEY_LIBRARY_BLOB_ID]];
    }
    deps := new seq<Id>[|defs|](_ => libraryDeps);
    for j := 0 to |raws|
      invariant forall t :: 0 <= t < |defs| ==> deps[t] == LibraryDeps(options) + RawIds(raws, ids, t, j)
    {
      assert raws[j] in raws;
      deps[raws[j].task] := deps[raws[j].task] + [ids[j]];
    }
    for i := 0 to |defs|
      invariant forall t :: i <= t < |defs| ==> deps[t] == LibraryDeps(options) + RawIds(raws, ids, t, |raws|)
      invariant forall t :: 0 <= t < i ==> deps[t] == DepsOf(defs[t], options, raws, ids, t)
    {
      AddReferences(deps, i, defs[i].inputs);
    }
  }

  /** Appends the references of one task to its row. */
  method AddReferences(deps: array<seq<Id>>, i: nat, inputs: seq<(string, Blob)>)
    requires i < deps.Length
    modifies deps
    ensures forall t :: 0 <= t < deps.Length && t != i ==> deps[t] == old(deps[t])
    ensures deps[i] == old(deps[i]) + ReferenceIds(inputs, |inputs|)
  {
    for k := 0 to |inputs|
      invariant forall t :: 0 <= t < deps.Length && t != i ==> deps[t] == old(deps[t])
      invariant deps[i] == old(deps[i]) + ReferenceIds(inputs, k)
    {
      if inputs[k].1.BlobId? {
        deps[i] := deps[i] + [inputs[k].1.id];
      }
    }
  }

  // ---------- worker ----------

  datatype WorkerError =
    | BadOptions(error: OptionsError)
    | UnsupportedVersion(version: string)
    | BlobNotFound(id: Id)
    | BadPayload
    | NoMethodName

  /** A convention task, ready for the application manager; `file` is the library content to write to its path. */
  datatype Prepared = Prepared(libraryPath: string, file: Option<string>, methodName: string,
                               inputs: map<string, string>, outputs: map<string, string>)

  /** A value that is a data dependency stands for the content of that dependency, any other for itself. */
  function Resolve(inputs: map<string, string>, deps: map<Id, string>): map<string, string> {
    map name | name in inputs :: if inputs[name] in deps then deps[inputs[name]] else inputs[name]
  }

  method ResolveInputs(inputs: map<string, string>, deps: map<Id, string>) returns (resolved: map<string, string>)
    ensures resolved == Resolve(inputs, deps)
  {
    resolved := map[];
    var todo := inputs.Keys;
    while todo != {}
      invariant todo <= inputs.Keys
      invariant resolved.Keys == inputs.Keys - todo
      invariant forall name :: name in resolved ==> resolved[name] == Resolve(inputs, deps)[name]
      decreases |todo|
    {
      var name :| name in todo;
      var value := inputs[name];
      resolved := resolved[name := if value in deps then deps[value] else value];
      todo := todo - {name};
    }
  }

  function LibraryFile(id: Id): string {
    "/tmp/armonik-lib-" + id + ".so"
  }

  /** Execute of a convention task, up to the call of the application manager. */
  function Prepare(
    options: map<string, string>, deps: map<Id, string>, payload: Option<ConventionPayload>): Result<Prepared, WorkerError>
  {
    if GetConventionVersion(options).Failure? then Failure(BadOptions(MissingConventionVersion))
    else if GetConventionVersion(options).value != CONVENTION_VERSION then
      Failure(UnsupportedVersion(GetConventionVersion(options).value))
    else if GetDynamicLibrary(options).Failure? then Failure(BadOptions(MissingLibraryPath))
    else
      var lib := GetDynamicLibrary(options).value;
      if lib.libraryBlobId != "" && lib.libraryBlobId !in deps then Failure(BlobNotFound(lib.libraryBlobId))
      else if payload.None? then Failure(BadPayload)
      else if lib.symbol == "" then Failure(NoMethodName)
      else
        var inputs := Resolve(payload.value.inputs, deps);
        if lib.libraryBlobId == "" then
          Success(Prepared(lib.libraryPath, None, lib.symbol, inputs, payload.value.outputs))
        else
          Success(Prepared(LibraryFile(lib.libraryBlobId), Some(deps[lib.libraryBlobId]), lib.symbol,
                           inputs, payload.value.outputs))
  }
}
