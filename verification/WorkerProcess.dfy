/**
 * The worker process: it takes one task after the other, prepares it, writes the library of a convention task to a file if
 * it came as a blob, and drives the application manager.
 */
module WorkerProcess {
  import opened Prelude
  import opened Options
  import opened TaskDefinitions
  import PayloadCodec
  import L = WorkerLifecycle
  import LP = LifecycleProofs

  /** What the worker is given with a task; `deps` are its data dependencies, downloaded. */
  datatype Incoming = Incoming(
    options: map<string, string>,
    deps: map<Id, string>,
    payload: string,
    appId: L.AppId,
    space: string,
    service: string,
    session: string)

  type Decoder = string -> Option<ConventionPayload>

  // ---------- what a task comes to ----------

  function LibraryBlob(t: Incoming): string {
    Get(t.options, KEY_LIBRARY_BLOB_ID)
  }

  /** The files after the task is prepared: its blob is written, even if it then turns out to have no method. */
  function Written(files: map<string, string>, t: Incoming): map<string, string> {
    if GetConventionVersion(t.options) == Success(CONVENTION_VERSION) && LibraryBlob(t) != "" && LibraryBlob(t) in t.deps
    then files[LibraryFile(LibraryBlob(t)) := t.deps[LibraryBlob(t)]]
    else files
  }

  /** The task for the manager. */
  function Understood(t: Incoming, decode: Decoder): Result<L.Task, WorkerError> {
    if KEY_CONVENTION_VERSION in t.options then
      var prepared :- Prepare(t.options, t.deps, decode(t.payload));
      Success(L.Convention(prepared.libraryPath, t.space, t.service, t.session))
    else if PayloadCodec.Decode(t.payload).Failure? then Failure(BadPayload)
    else Success(L.Legacy(t.appId, t.space, t.service, t.session))
  }

  /** What the method is called with: named inputs, or the arguments of a legacy payload. */
  datatype Arguments =
    | Named(methodName: string, inputs: map<string, string>, outputs: map<string, string>)
    | Serialized(methodName: string, arguments: string)

  function ArgumentsOf(t: Incoming, decode: Decoder): Arguments
    requires Understood(t, decode).Success?
  {
    if KEY_CONVENTION_VERSION in t.options then
      var prepared := Prepare(t.options, t.deps, decode(t.payload)).value;
      Named(prepared.methodName, prepared.inputs, prepared.outputs)
    else
      var payload := PayloadCodec.Decode(t.payload).value;
      Serialized(payload.methodName, payload.arguments)
  }

  /** `images` are the contents of the loaded libraries, as they were when they were loaded. */
  datatype Worker = Worker(app: L.App, files: map<string, string>, images: map<L.Handle, Option<string>>)

  function NewWorker(basePath: string, files: map<string, string>): Worker {
    Worker(L.NewApp(basePath), files, map[])
  }

  function Content(files: map<string, string>, file: string): Option<string> {
    if file in files then Some(files[file]) else None
  }

  /** A library that is loaded is what its file holds by then. */
  function Imaged(images: map<L.Handle, Option<string>>, events: seq<L.Event>, files: map<string, string>):
    map<L.Handle, Option<string>>
  {
    if events == [] then images
    else
      var before, e := Imaged(images, events[..|events| - 1], files), events[|events| - 1];
      if e.Load? then before[e.lib := Content(files, e.file)] else before
  }

  /** Executed on behalf of one task, by a process that has done `w` so far; true when its method is called. */
  function Worked(w: Worker, t: Incoming, decode: Decoder, opening: L.Opening): (Worker, bool) {
    var files := Written(w.files, t);
    match Understood(t, decode)
    case Failure(_) => (w.(files := files), false)
    case Success(task) =>
      LP.ExecutedExtends(w.app, task, opening);
      var (b, ok) := L.Executed(w.app, task, opening);
      (Worker(b, files, Imaged(w.images, b.rt.trace[|w.app.rt.trace|..], files)), ok)
  }

  // ---------- the class ----------

  class DynamicWorker {
    const manager: L.ApplicationManager
    var files: map<string, string>
    ghost var images: map<L.Handle, Option<string>>

    ghost function View(): Worker
      reads this, manager, manager.serviceManager, manager.foreign
    {
      Worker(manager.View(), files, images)
    }

    constructor (basePath: string, files: map<string, string>)
      ensures View() == NewWorker(basePath, files)
      ensures fresh(manager) && fresh(manager.serviceManager) && fresh(manager.foreign)
    {
      manager := new L.ApplicationManager(basePath);
      this.files, images := files, map[];
    }

    /** The branch for tasks that follow the convention, up to the manager. */
    method PrepareTask(t: Incoming, decode: Decoder) returns (prepared: Result<Prepared, WorkerError>)
      modifies this`files
      ensures prepared == Prepare(t.options, t.deps, decode(t.payload))
      ensures files == Written(old(files), t)
    {
      var version := GetConventionVersion(t.options);
      if version.Failure? {
        return Failure(BadOptions(MissingConventionVersion));
      }
      if version.value != CONVENTION_VERSION {
        return Failure(UnsupportedVersion(version.value));
      }
      var lib := GetDynamicLibrary(t.options);
      if lib.Failure? {
        return Failure(BadOptions(MissingLibraryPath));
      }
      var path, file := lib.value.libraryPath, None;
      if lib.value.libraryBlobId != "" {
        if lib.value.libraryBlobId !in t.deps {
          return Failure(BlobNotFound(lib.value.libraryBlobId));
        }
        path, file := LibraryFile(lib.value.libraryBlobId), Some(t.deps[lib.value.libraryBlobId]);
        files := files[path := file.value];
      }
      var payload := decode(t.payload);
      if payload.None? {
        return Failure(BadPayload);
      }
      if lib.value.symbol == "" {
        return Failure(NoMethodName);
      }
      var resolved := ResolveInputs(payload.value.inputs, t.deps);
      prepared := Success(Prepared(path, file, lib.value.symbol, resolved, payload.value.outputs));
    }

    /** Runs one task; the arguments are those of the call, if there is one. */
    method Execute(t: Incoming, decode: Decoder, opening: L.Opening) returns (called: Option<Arguments>)
      modifies this, manager, manager.serviceManager, manager.foreign
      ensures (View(), called.Some?) == Worked(old(View()), t, decode, opening)
      ensures called.Some? ==> Understood(t, decode).Success? && called.value == ArgumentsOf(t, decode)
    {
      ghost var before := manager.View();
      var task, arguments;
      if KEY_CONVENTION_VERSION in t.options {
        var prepared := PrepareTask(t, decode);
        if prepared.Failure? {
          return None;
        }
        task := L.Convention(prepared.value.libraryPath, t.space, t.service, t.session);
        arguments := Named(prepared.value.methodName, prepared.value.inputs, prepared.value.outputs);
      } else {
        var payload := PayloadCodec.Deserialize(t.payload);
        if payload.Failure? {
          return None;
        }
        task := L.Legacy(t.appId, t.space, t.service, t.session);
        arguments := Serialized(payload.value.methodName, payload.value.arguments);
      }
      assert Understood(t, decode) == Success(task) && files == Written(old(files), t);
      assert ArgumentsOf(t, decode) == arguments;
      LP.ExecutedExtends(before, task, opening);
      var ok := manager.Execute(task, opening);
      images := Imaged(images, manager.View().rt.trace[|before.rt.trace|..], files);
      called := if ok then Some(arguments) else None;
      hide Understood, Written, Imaged, L.Executed;
    }
  }

  // ---------- which libraries are loaded ----------

  /** The libraries loaded in a trace, with their files. */
  function Loads(trace: seq<L.Event>): seq<(L.Handle, string)> {
    if trace == [] then []
    else
      var e := trace[|trace| - 1];
      Loads(trace[..|trace| - 1]) + (if e.Load? then [(e.lib, e.file)] else [])
  }

  lemma {:induction false} LoadsConcat(a: seq<L.Event>, b: seq<L.Event>)
    ensures Loads(a + b) == Loads(a) + Loads(b)
  {
    if b == [] {
      assert a + b == a;
    } else {
      LoadsConcat(a, b[..|b| - 1]);
      assert (a + b)[..|a + b| - 1] == a + b[..|b| - 1];
    }
  }

  /** The same libraries, and no fewer handles. */
  ghost predicate LoadsNone(a: L.Runtime, b: L.Runtime) {
    Loads(b.trace) == Loads(a.trace) && b.next >= a.next
  }

  lemma DidLoads(rt: L.Runtime, e: L.Event)
    requires !e.Load?
    ensures LoadsNone(rt, L.Did(rt, e)) && LoadsNone(rt, L.Made(rt, e))
  {
    assert (rt.trace + [e])[..|rt.trace|] == rt.trace;
  }

  lemma LeftLoads(m: L.Manager, rt: L.Runtime)
    ensures LoadsNone(rt, L.Left(m, rt)) && L.Left(m, rt).next == rt.next
  {
    DidLoads(rt, L.Leave(m.pointers, m.service, m.context));
    hide Loads;
  }

  lemma ClearedLoads(m: L.Manager, rt: L.Runtime)
    ensures LoadsNone(rt, L.Cleared(m, rt).1) && L.Cleared(m, rt).1.next == rt.next
  {
    LeftLoads(m, rt);
    DidLoads(L.Left(m, rt), L.Destroy(m.pointers, m.service));
    hide Loads, L.Left;
  }

  lemma SessionCalledLoads(a: L.App, sessionId: string)
    ensures LoadsNone(a.rt, L.SessionCalled(a, sessionId).0.rt)
  {
    var m := a.manager;
    var (n, rt) := L.SessionUsed(m, a.rt, sessionId);
    LeftLoads(m, a.rt);
    DidLoads(L.Left(m, a.rt), L.Enter(m.pointers, m.service, L.Left(m, a.rt).next, sessionId));
    DidLoads(rt, L.Call(n.pointers, n.service, n.context));
    hide Loads, L.Left;
  }

  lemma ServiceUsedLoads(a: L.App, id: L.ServiceId)
    ensures LoadsNone(a.rt, L.ServiceUsed(a, id).rt)
  {
    DidLoads(a.rt, L.Create(a.pointers, a.rt.next, id.space, id.name));
    ClearedLoads(a.manager, L.NewManager(a.rt, a.pointers, id).1);
    hide Loads, L.Cleared;
  }

  lemma ReplacedLoads(a: L.App, file: string)
    ensures var b := L.LibraryReplaced(a, file);
            Loads(b.rt.trace) == Loads(a.rt.trace) + [(a.rt.next, file)] && b.rt.next == a.rt.next + 1
  {
    var load := L.Load(a.rt.next, file);
    assert (a.rt.trace + [load])[..|a.rt.trace|] == a.rt.trace;
    DidLoads(L.Made(a.rt, load), L.Unload(a.library));
  }

  /** A task loads the file it asks for, unless it finds its library or there is none; and no other. */
  lemma ExecutedLoads(a: L.App, t: L.Task, opening: L.Opening, file: string)
    requires LP.AsksFor(t, a.basePath, file)
    ensures var b := L.Executed(a, t, opening).0;
            && Loads(b.rt.trace) == Loads(a.rt.trace)
                                  + (if LP.Hit(a, t) || opening.NotFound? then [] else [(a.rt.next, file)])
            && (if LP.Hit(a, t) || opening.NotFound? then b.rt.next >= a.rt.next else b.rt.next > a.rt.next)
  {
    if t.Convention? {
      ConventionLoads(a, t, opening);
    } else {
      LP.FileIsAskedFor(t, a.basePath);
      LegacyLoads(a, t, opening);
    }
    hide Loads, L.Executed;
  }

  lemma LibraryUsedLoads(a: L.App, path: string, space: string, name: string, opening: L.Opening)
    requires !(path == a.libraryPath && name == a.libraryService)
    ensures var b := L.LibraryUsed(a, path, space, name, opening).0;
            && Loads(b.rt.trace) == Loads(a.rt.trace) + (if opening.NotFound? then [] else [(a.rt.next, path)])
            && b.rt.next >= a.rt.next + (if opening.NotFound? then 0 else 1)
  {
    var cleared := L.ServiceCleared(a).(currentId := L.NO_APP);
    ClearedLoads(a.manager, a.rt);
    hide Loads, L.Cleared, L.LibraryReplaced, L.NewManager;
    if opening.NotFound? {
      assert Loads(a.rt.trace) + [] == Loads(a.rt.trace);
    } else {
      var fetched := L.LibraryReplaced(cleared, path);
      ReplacedLoads(cleared, path);
      CreatedLoads(fetched.rt, fetched.library, L.ServiceId(L.AppId(path, ""), name, space));
    }
  }

  lemma CreatedLoads(rt: L.Runtime, pointers: L.Handle, id: L.ServiceId)
    ensures LoadsNone(rt, L.NewManager(rt, pointers, id).1)
  {
    DidLoads(rt, L.Create(pointers, rt.next, id.space, id.name));
    hide Loads;
  }

  lemma ConventionLoads(a: L.App, t: L.Task, opening: L.Opening)
    requires t.Convention?
    ensures var b := L.Executed(a, t, opening).0;
            && Loads(b.rt.trace) == Loads(a.rt.trace)
                                  + (if LP.Hit(a, t) || opening.NotFound? then [] else [(a.rt.next, t.path)])
            && (if LP.Hit(a, t) || opening.NotFound? then b.rt.next >= a.rt.next else b.rt.next > a.rt.next)
  {
    SessionCalledLoads(L.LibraryUsed(a, t.path, t.space, t.service, opening).0, t.session);
    if LP.Hit(a, t) {
      assert L.LibraryUsed(a, t.path, t.space, t.service, opening) == (a, true);
    } else {
      LibraryUsedLoads(a, t.path, t.space, t.service, opening);
    }
    hide Loads, L.LibraryUsed, L.SessionCalled;
  }

  lemma LegacyLoads(a: L.App, t: L.Task, opening: L.Opening)
    requires t.Legacy?
    ensures var b, file := L.Executed(a, t, opening).0, L.FileName(a.basePath, t.appId);
            && Loads(b.rt.trace) == Loads(a.rt.trace)
                                  + (if LP.Hit(a, t) || opening.NotFound? then [] else [(a.rt.next, file)])
            && (if LP.Hit(a, t) || opening.NotFound? then b.rt.next >= a.rt.next else b.rt.next > a.rt.next)
  {
    var (b, ok) := L.ApplicationUsed(a, t.appId, opening);
    var id := L.ServiceId(t.appId, t.service, t.space);
    ServiceUsedLoads(b, id);
    SessionCalledLoads(L.ServiceUsed(b, id), t.session);
    if !LP.Hit(a, t) {
      var cleared := L.ServiceCleared(a).(libraryPath := "");
      ClearedLoads(a.manager, a.rt);
      ReplacedLoads(cleared, L.FileName(a.basePath, t.appId));
    }
    hide Loads, L.Cleared, L.LibraryReplaced, L.SessionCalled, L.ServiceUsed, L.FileName;
  }

  lemma {:induction false} ImagedByLoads(images: map<L.Handle, Option<string>>, events: seq<L.Event>, files: map<string, string>)
    ensures Loads(events) == [] ==> Imaged(images, events, files) == images
    ensures |Loads(events)| == 1 ==>
              Imaged(images, events, files) == images[Loads(events)[0].0 := Content(files, Loads(events)[0].1)]
  {
    if events != [] {
      ImagedByLoads(images, events[..|events| - 1], files);
    }
  }

  lemma WorkedParts(w: Worker, t: Incoming, decode: Decoder, opening: L.Opening)
    ensures var v := Worked(w, t, decode, opening).0;
            && v.files == Written(w.files, t)
            && if Understood(t, decode).Failure? then v.app == w.app && v.images == w.images
               else
                 var b := L.Executed(w.app, Understood(t, decode).value, opening).0;
                 && v.app == b && |w.app.rt.trace| <= |b.rt.trace| && b.rt.trace[..|w.app.rt.trace|] == w.app.rt.trace
                 && v.images == Imaged(w.images, b.rt.trace[|w.app.rt.trace|..], v.files)
  {
    if Understood(t, decode).Success? {
      LP.ExecutedExtends(w.app, Understood(t, decode).value, opening);
    }
    hide L.Executed, Understood, Written, Imaged;
  }

  /** What one task makes of the loaded libraries. */
  lemma WorkedLoads(w: Worker, t: Incoming, decode: Decoder, opening: L.Opening, file: string)
    requires Understood(t, decode).Success? && LP.AsksFor(Understood(t, decode).value, w.app.basePath, file)
    ensures var task, v := Understood(t, decode).value, Worked(w, t, decode, opening).0;
            && v.app.rt.next >= w.app.rt.next
            && if LP.Hit(w.app, task) || opening.NotFound? then Loads(v.app.rt.trace) == Loads(w.app.rt.trace) && v.images == w.images
               else
                 && Loads(v.app.rt.trace) == Loads(w.app.rt.trace) + [(w.app.rt.next, file)] && v.app.rt.next > w.app.rt.next
                 && v.images == w.images[w.app.rt.next := Content(v.files, file)]
  {
    hide Worked, Loads, Imaged, L.Executed, Written, Understood, LP.AsksFor, LP.Hit;
    var task := Understood(t, decode).value;
    var a, v := w.app, Worked(w, t, decode, opening).0;
    WorkedParts(w, t, decode, opening);
    ExecutedLoads(a, task, opening, file);
    var events := v.app.rt.trace[|a.rt.trace|..];
    assert v.app.rt.trace == a.rt.trace + events;
    LoadsConcat(a.rt.trace, events);
    ImagedByLoads(w.images, events, v.files);
    SameTail(Loads(a.rt.trace), Loads(events), if LP.Hit(a, task) || opening.NotFound? then [] else [(a.rt.next, file)]);
  }

  lemma SameTail(front: seq<(L.Handle, string)>, a: seq<(L.Handle, string)>, b: seq<(L.Handle, string)>)
    requires front + a == front + b
    ensures a == b
  {
    assert a == (front + a)[|front|..] == (front + b)[|front|..] == b;
  }

  // ---------- libraries that come as blobs ----------

  /** Different blobs have different files. */
  lemma LibraryFilesDiffer(a: Id, b: Id)
    ensures LibraryFile(a) == LibraryFile(b) <==> a == b
    ensures LibraryFile(a) == "/tmp/armonik-lib-" + a + ".so" != ""
  {
    var n := |"/tmp/armonik-lib-"|;
    if LibraryFile(a) == LibraryFile(b) {
      assert |LibraryFile(a)| == n + |a| + 3 && |LibraryFile(b)| == n + |b| + 3;
      assert a == LibraryFile(a)[n..n + |a|] && b == LibraryFile(b)[n..n + |b|];
    }
  }

  /** A convention task that has its library as a blob. */
  predicate HasBlob(t: Incoming) {
    "ConventionVersion" in t.options && "LibraryBlobId" in t.options && t.options["LibraryBlobId"] != ""
  }

  /** Such a task is prepared with the file of its own blob, and with the content of that blob in it. */
  lemma BlobIsWritten(files: map<string, string>, t: Incoming, decode: Decoder)
    requires HasBlob(t) && Understood(t, decode).Success?
    ensures var id := t.options["LibraryBlobId"];
            var file := "/tmp/armonik-lib-" + id + ".so";
            && Understood(t, decode).value == L.Convention(file, t.space, t.service, t.session)
            && id in t.deps && file in Written(files, t) && Written(files, t)[file] == t.deps[id]
  {
  }

  /** No other file is touched, and none at all by a task without a blob or with one that it does not depend on. */
  lemma WrittenExactly(files: map<string, string>, t: Incoming)
    ensures var written := HasBlob(t) && t.options["ConventionVersion"] == "v1" && t.options["LibraryBlobId"] in t.deps;
            Written(files, t)
            == if written then files["/tmp/armonik-lib-" + t.options["LibraryBlobId"] + ".so" := t.deps[t.options["LibraryBlobId"]]]
               else files
  {
  }

  /** No other task asks for a file of that kind. */
  ghost predicate OwnFiles(t: Incoming, decode: Decoder, basePath: string) {
    Understood(t, decode).Success? && !HasBlob(t) ==>
      forall id :: !LP.AsksFor(Understood(t, decode).value, basePath, LibraryFile(id))
  }

  /** Whatever was loaded from the file of a blob is that blob. */
  ghost predicate Fit(
    loads: seq<(L.Handle, string)>, next: nat, images: map<L.Handle, Option<string>>, contents: map<Id, string>) {
    && (forall x :: x in loads ==> x.0 < next)
    && (forall x, id :: x in loads && x.1 == LibraryFile(id) ==>
          x.0 in images && id in contents && images[x.0] == Some(contents[id]))
  }

  ghost predicate ImagesOk(w: Worker, contents: map<Id, string>) {
    Fit(Loads(w.app.rt.trace), w.app.rt.next, w.images, contents)
  }

  lemma FitOneMore(
    loads: seq<(L.Handle, string)>, next: nat, images: map<L.Handle, Option<string>>, contents: map<Id, string>,
    file: string, content: Option<string>, after: nat)
    requires Fit(loads, next, images, contents) && after > next
    requires forall id :: LibraryFile(id) == file ==> id in contents && content == Some(contents[id])
    ensures Fit(loads + [(next, file)], after, images[next := content], contents)
  {
    hide LibraryFile;
  }

  ghost predicate Agrees(t: Incoming, contents: map<Id, string>) {
    forall id :: id in t.deps ==> id in contents && contents[id] == t.deps[id]
  }

  lemma AsksForOne(t: L.Task, basePath: string) returns (file: string)
    ensures LP.AsksFor(t, basePath, file)
    ensures forall other :: LP.AsksFor(t, basePath, other) ==> other == file
  {
    file := if t.Convention? then t.path else L.FileName(basePath, t.appId);
    if t.Legacy? {
      LP.FileIsAskedFor(t, basePath);
    }
  }

  /** What a task leaves in the file it asks for. */
  lemma FileContent(w: Worker, t: Incoming, decode: Decoder, contents: map<Id, string>, file: string, id: Id)
    requires Understood(t, decode).Success? && Agrees(t, contents) && OwnFiles(t, decode, w.app.basePath)
    requires LP.AsksFor(Understood(t, decode).value, w.app.basePath, file) && LibraryFile(id) == file
    ensures id in contents && Content(Written(w.files, t), file) == Some(contents[id])
  {
    if HasBlob(t) {
      BlobIsWritten(w.files, t, decode);
      LibraryFilesDiffer(id, t.options["LibraryBlobId"]);
    }
    hide Written, Understood, LibraryFile;
  }

  lemma FitLater(
    loads: seq<(L.Handle, string)>, next: nat, images: map<L.Handle, Option<string>>, contents: map<Id, string>, after: nat)
    requires Fit(loads, next, images, contents) && after >= next
    ensures Fit(loads, after, images, contents)
  {
    hide LibraryFile;
  }

  lemma WorkedImages(w: Worker, t: Incoming, decode: Decoder, opening: L.Opening, contents: map<Id, string>)
    requires ImagesOk(w, contents) && Agrees(t, contents) && OwnFiles(t, decode, w.app.basePath)
    ensures ImagesOk(Worked(w, t, decode, opening).0, contents)
  {
    hide Worked, Understood, Written, Loads, LP.Hit, LP.AsksFor, LibraryFile, OwnFiles, Content, Fit, Agrees, L.Executed, Imaged;
    var v := Worked(w, t, decode, opening).0;
    WorkedParts(w, t, decode, opening);
    if Understood(t, decode).Success? {
      var task := Understood(t, decode).value;
      var file := AsksForOne(task, w.app.basePath);
      WorkedLoads(w, t, decode, opening, file);
      if LP.Hit(w.app, task) || opening.NotFound? {
        FitLater(Loads(w.app.rt.trace), w.app.rt.next, w.images, contents, v.app.rt.next);
      } else {
        forall id | LibraryFile(id) == file ensures id in contents && Content(v.files, file) == Some(contents[id]) {
          FileContent(w, t, decode, contents, file, id);
        }
        FitOneMore(Loads(w.app.rt.trace), w.app.rt.next, w.images, contents, file, Content(v.files, file), v.app.rt.next);
      }
    }
  }

  // ---------- every sequence of tasks ----------

  type Log = seq<(Incoming, L.Opening)>

  function Process(w: Worker, log: Log, decode: Decoder): Worker {
    if log == [] then w
    else Worked(Process(w, log[..|log| - 1], decode), log[|log| - 1].0, decode, log[|log| - 1].1).0
  }

  /** The scheduler leaves no id empty that the task needs. */
  predicate Identifies(t: Incoming) {
    t.session != "" && (t.appId.name != "" || "ConventionVersion" in t.options)
  }

  ghost predicate Identified(log: Log) {
    forall k :: 0 <= k < |log| ==> Identifies(log[k].0)
  }

  /** No task that is understood meets a stale cache. */
  ghost predicate NeverStale(w: Worker, log: Log, decode: Decoder) {
    forall k :: 0 <= k < |log| && Understood(log[k].0, decode).Success? ==>
      !LP.Stale(Process(w, log[..k], decode).app, Understood(log[k].0, decode).value)
  }

  lemma UnderstoodIsValid(t: Incoming, decode: Decoder)
    requires Identifies(t) && Understood(t, decode).Success?
    ensures Understood(t, decode).value.Valid()
  {
  }

  lemma FrontIsFresh(w: Worker, log: Log, decode: Decoder, k: nat)
    requires Identified(log) && NeverStale(w, log, decode) && k <= |log|
    ensures Identified(log[..k]) && NeverStale(w, log[..k], decode)
  {
    hide Understood, LP.Stale, Process;
    assert forall j :: 0 <= j < k ==> log[..k][..j] == log[..j] && log[..k][j] == log[j];
  }

  lemma {:induction false} ProcessIsGood(w: Worker, log: Log, decode: Decoder)
    requires LP.Good(w.app) && Identified(log) && NeverStale(w, log, decode)
    ensures LP.Good(Process(w, log, decode).app) && Process(w, log, decode).app.basePath == w.app.basePath
  {
    hide Understood, LP.Stale, LP.Good, Worked;
    if log != [] {
      var n := |log| - 1;
      FrontIsFresh(w, log, decode, n);
      ProcessIsGood(w, log[..n], decode);
      WorkedIsGood(Process(w, log[..n], decode), log[n].0, decode, log[n].1);
    }
  }

  lemma WorkedIsGood(w: Worker, t: Incoming, decode: Decoder, opening: L.Opening)
    requires LP.Good(w.app) && Identifies(t)
    requires Understood(t, decode).Success? ==> !LP.Stale(w.app, Understood(t, decode).value)
    ensures var (v, ok) := Worked(w, t, decode, opening);
            && LP.Good(v.app) && v.app.basePath == w.app.basePath
            && (Understood(t, decode).Failure? ==> !ok && v.app == w.app)
            && (Understood(t, decode).Success? ==> LP.Right(w.app, Understood(t, decode).value, v.app, ok, opening))
  {
    if Understood(t, decode).Success? {
      UnderstoodIsValid(t, decode);
      LP.ExecutedIsRight(w.app, Understood(t, decode).value, opening);
    }
    hide LP.Good, L.Executed, Understood;
  }

  /** What a process has done before its `k`-th task. */
  lemma ProcessPrefix(w: Worker, log: Log, decode: Decoder, k: nat)
    requires LP.Good(w.app) && Identified(log) && NeverStale(w, log, decode) && k < |log|
    ensures var u := Process(w, log[..k], decode);
            && LP.Good(u.app) && u.app.basePath == w.app.basePath
            && Worked(u, log[k].0, decode, log[k].1).0 == Process(w, log[..k + 1], decode)
  {
    assert log[..k + 1][..k] == log[..k] && log[..k + 1][k] == log[k];
    hide Understood, LP.Stale, LP.Good, Worked, NeverStale;
    FrontIsFresh(w, log, decode, k);
    ProcessIsGood(w, log[..k], decode);
  }

  /** When a task gets as far as the manager. */
  predicate Understandable(t: Incoming, decode: Decoder) {
    if "ConventionVersion" in t.options then
      && t.options["ConventionVersion"] == "v1"
      && "Symbol" in t.options && t.options["Symbol"] != "" && decode(t.payload).Some?
      && if HasBlob(t) then t.options["LibraryBlobId"] in t.deps
         else "LibraryPath" in t.options && t.options["LibraryPath"] != ""
    else PayloadCodec.Decode(t.payload).Success?
  }

  lemma UnderstoodExactly(t: Incoming, decode: Decoder)
    ensures Understood(t, decode).Success? <==> Understandable(t, decode)
  {
  }

  /** Why any other task is refused. */
  lemma RefusedFor(t: Incoming, decode: Decoder)
    requires !Understandable(t, decode)
    ensures Understood(t, decode) ==
              if "ConventionVersion" !in t.options then Failure(BadPayload)
              else if t.options["ConventionVersion"] != "v1" then Failure(UnsupportedVersion(t.options["ConventionVersion"]))
              else if !HasBlob(t) && ("LibraryPath" !in t.options || t.options["LibraryPath"] == "")
              then Failure(BadOptions(MissingLibraryPath))
              else if HasBlob(t) && t.options["LibraryBlobId"] !in t.deps then Failure(BlobNotFound(t.options["LibraryBlobId"]))
              else if decode(t.payload).None? then Failure(BadPayload)
              else Failure(NoMethodName)
  {
  }

  /** The method is that of the options and not that of the payload, and inputs that are dependencies stand for their contents. */
  lemma ArgumentsExactly(t: Incoming, decode: Decoder)
    requires Understood(t, decode).Success?
    ensures "ConventionVersion" in t.options ==>
              && "Symbol" in t.options && decode(t.payload).Some?
              && var payload, a := decode(t.payload).value, ArgumentsOf(t, decode);
                 && a.Named? && a.methodName == t.options["Symbol"] && a.outputs == payload.outputs
                 && a.inputs.Keys == payload.inputs.Keys
                 && forall name :: name in a.inputs ==>
                      var value := payload.inputs[name]; a.inputs[name] == if value in t.deps then t.deps[value] else value
    ensures "ConventionVersion" !in t.options ==>
              && PayloadCodec.Decode(t.payload).Success?
              && var payload := PayloadCodec.Decode(t.payload).value;
                 ArgumentsOf(t, decode) == Serialized(payload.methodName, payload.arguments)
  {
  }

  /** The library that a task is to be called on: that of its blob, that at its path, or that of its application. */
  ghost predicate Library(t: Incoming, basePath: string, file: string) {
    if HasBlob(t) then file == "/tmp/armonik-lib-" + t.options["LibraryBlobId"] + ".so"
    else if "ConventionVersion" in t.options then "LibraryPath" in t.options && file == t.options["LibraryPath"]
    else if t.appId.version == "" then file == basePath + "/" + t.appId.name
    else file == basePath + "/" + t.appId.name + "." + t.appId.version
  }

  /** The trace ends with a call to a live service of the name asked for, of the right library, in the session asked for. */
  ghost predicate CalledFor(t: Incoming, basePath: string, trace: seq<L.Event>) {
    && trace != [] && trace[|trace| - 1].Call? && LP.Replay(trace).Some?
    && var world, call := LP.Replay(trace).value, trace[|trace| - 1];
       && LP.Usable(world, call.lib, call.service)
       && Library(t, basePath, world.loaded[call.lib])
       && world.services[call.service].name == t.service
       && world.services[call.service].open == Some((call.session, t.session))
  }

  lemma ServedIsCalled(t: Incoming, decode: Decoder, basePath: string, trace: seq<L.Event>)
    requires Understood(t, decode).Success? && LP.Serves(trace, Understood(t, decode).value, basePath)
    ensures CalledFor(t, basePath, trace)
  {
    hide LP.Replay, LP.Usable;
  }

  /**
   * Over every sequence of tasks in which none meets a stale cache: a task is called if and only if it is understandable and
   * its library is in place or can be loaded; the call then reaches a live service of the right library and name, in the
   * session asked for; and a library that came as a blob is in the file it was loaded from.
   */
  lemma CalledOnItsFile(basePath: string, files: map<string, string>, log: Log, decode: Decoder, k: nat)
    requires Identified(log) && NeverStale(NewWorker(basePath, files), log, decode) && k < |log|
    ensures var u := Process(NewWorker(basePath, files), log[..k], decode);
            var (t, opening) := log[k];
            var (v, ok) := Worked(u, t, decode, opening);
            && v == Process(NewWorker(basePath, files), log[..k + 1], decode)
            && (Understandable(t, decode) <==> Understood(t, decode).Success?)
            && (ok <==> Understandable(t, decode) && (LP.Hit(u.app, Understood(t, decode).value) || opening.Opened?))
            && (ok ==> CalledFor(t, if basePath == "" then "/data" else basePath, v.app.rt.trace))
            && (ok && HasBlob(t) ==>
                  var id := t.options["LibraryBlobId"];
                  var file := "/tmp/armonik-lib-" + id + ".so";
                  id in t.deps && file in v.files && v.files[file] == t.deps[id])
  {
    var w := NewWorker(basePath, files);
    LP.NewIsGood(basePath);
    ProcessPrefix(w, log, decode, k);
    var u := Process(w, log[..k], decode);
    var (t, opening) := log[k];
    WorkedIsGood(u, t, decode, opening);
    UnderstoodExactly(t, decode);
    var (v, ok) := Worked(u, t, decode, opening);
    assert v.files == Written(u.files, t);
    hide Worked, Process, Understood, LP.Good, LP.Hit, LP.Serves, CalledFor, Understandable;
    if ok {
      ServedIsCalled(t, decode, u.app.basePath, v.app.rt.trace);
      if HasBlob(t) {
        BlobIsWritten(u.files, t, decode);
      }
    }
    hide Written;
  }

  lemma {:induction false} ProcessImages(w: Worker, log: Log, decode: Decoder, contents: map<Id, string>)
    requires ImagesOk(w, contents)
    requires forall k :: 0 <= k < |log| ==> Agrees(log[k].0, contents) && OwnFiles(log[k].0, decode, w.app.basePath)
    ensures ImagesOk(Process(w, log, decode), contents) && Process(w, log, decode).app.basePath == w.app.basePath
  {
    hide ImagesOk, Agrees, OwnFiles, Worked;
    if log != [] {
      var n := |log| - 1;
      assert forall k :: 0 <= k < n ==> log[..n][k] == log[k];
      ProcessImages(w, log[..n], decode, contents);
      WorkedImages(Process(w, log[..n], decode), log[n].0, decode, log[n].1, contents);
      WorkedBase(Process(w, log[..n], decode), log[n].0, decode, log[n].1);
    }
  }

  lemma WorkedBase(w: Worker, t: Incoming, decode: Decoder, opening: L.Opening)
    ensures Worked(w, t, decode, opening).0.app.basePath == w.app.basePath
  {
    WorkedParts(w, t, decode, opening);
    if Understood(t, decode).Success? {
      LP.BaseKept(w.app, Understood(t, decode).value, opening);
    }
    hide Worked, L.Executed, Understood, Written, Imaged;
  }

  /** The files of the libraries that are loaded are those they were loaded from. */
  lemma {:induction false} LoadedWasLoad(trace: seq<L.Event>)
    ensures LP.Replay(trace).Some? ==>
              forall h :: h in LP.Replay(trace).value.loaded ==> (h, LP.Replay(trace).value.loaded[h]) in Loads(trace)
  {
    if trace != [] && LP.Replay(trace).Some? {
      LoadedWasLoad(trace[..|trace| - 1]);
    }
  }

  /**
   * And the library that a task with a blob is called on is that blob, as it was when the library was loaded, as long as the
   * content of a blob does not change and no task without a blob asks for the file of one.
   */
  lemma CalledOnItsBlob(
    basePath: string, files: map<string, string>, log: Log, decode: Decoder, k: nat, contents: map<Id, string>)
    requires Identified(log) && NeverStale(NewWorker(basePath, files), log, decode) && k < |log|
    requires forall i :: 0 <= i < |log| ==>
               Agrees(log[i].0, contents) && OwnFiles(log[i].0, decode, if basePath == "" then "/data" else basePath)
    ensures var u := Process(NewWorker(basePath, files), log[..k], decode);
            var (t, opening) := log[k];
            var (v, ok) := Worked(u, t, decode, opening);
            ok && HasBlob(t) ==>
              && v.app.rt.trace != [] && v.app.rt.trace[|v.app.rt.trace| - 1].Call?
              && var lib := v.app.rt.trace[|v.app.rt.trace| - 1].lib;
                 t.options["LibraryBlobId"] in t.deps && lib in v.images && v.images[lib] == Some(t.deps[t.options["LibraryBlobId"]])
  {
    var (t, opening) := log[k];
    CalledOnItsFile(basePath, files, log, decode, k);
    ImagesInRun(basePath, files, log, decode, k + 1, contents);
    hide ImagesOk, OwnFiles, Agrees, Worked, Process, Understood, Understandable, LP.Hit, CalledFor, Identified, NeverStale;
    var (v, ok) := Worked(Process(NewWorker(basePath, files), log[..k], decode), t, decode, opening);
    if ok && HasBlob(t) {
      ImageOfCall(v, t, if basePath == "" then "/data" else basePath, contents);
    }
  }

  lemma ImagesInRun(
    basePath: string, files: map<string, string>, log: Log, decode: Decoder, k: nat, contents: map<Id, string>)
    requires k <= |log|
    requires forall i :: 0 <= i < |log| ==>
               Agrees(log[i].0, contents) && OwnFiles(log[i].0, decode, if basePath == "" then "/data" else basePath)
    ensures ImagesOk(Process(NewWorker(basePath, files), log[..k], decode), contents)
  {
    assert ImagesOk(NewWorker(basePath, files), contents);
    hide ImagesOk, OwnFiles, Agrees, Process;
    assert forall i :: 0 <= i < k ==> log[..k][i] == log[i];
    ProcessImages(NewWorker(basePath, files), log[..k], decode, contents);
  }

  lemma ImageOfCall(v: Worker, t: Incoming, basePath: string, contents: map<Id, string>)
    requires HasBlob(t) && CalledFor(t, basePath, v.app.rt.trace) && ImagesOk(v, contents)
    requires t.options["LibraryBlobId"] in t.deps && Agrees(t, contents)
    ensures var lib := v.app.rt.trace[|v.app.rt.trace| - 1].lib;
            lib in v.images && v.images[lib] == Some(t.deps[t.options["LibraryBlobId"]])
  {
    LoadedWasLoad(v.app.rt.trace);
    LibraryFilesDiffer(t.options["LibraryBlobId"], "");
    hide Loads, LP.Replay, LibraryFile;
    var lib := v.app.rt.trace[|v.app.rt.trace| - 1].lib;
    var file := LP.Replay(v.app.rt.trace).value.loaded[lib];
    assert (lib, file) in Loads(v.app.rt.trace) && (lib, file).1 == LibraryFile(t.options["LibraryBlobId"]);
  }

  // ---------- a path that is also the file of a blob ----------

  function Plain(options: map<string, string>, deps: map<Id, string>): Incoming {
    Incoming(options, deps, "", L.NO_APP, "", "s", "1")
  }

  lemma FirstUnderstood(decode: Decoder, file: string)
    requires decode("").Some? && file != ""
    ensures var t := Plain(map["ConventionVersion" := "v1", "Symbol" := "m", "LibraryPath" := file], map[]);
            && Understood(t, decode) == Success(L.Convention(file, "", "s", "1"))
            && forall files :: Written(files, t) == files
  {
  }

  lemma SecondUnderstood(decode: Decoder, file: string)
    requires decode("").Some? && file == "/tmp/armonik-lib-" + "b" + ".so"
    ensures var t := Plain(map["ConventionVersion" := "v1", "Symbol" := "m", "LibraryBlobId" := "b"], map["b" := "new"]);
            && Understood(t, decode) == Success(L.Convention(file, "", "s", "1"))
            && forall files :: Written(files, t) == files[file := "new"]
  {
  }

  lemma FirstExecuted(a: L.App, t: L.Task)
    requires a == L.NewApp("") && t.Convention? && t.path != "" && t.session == "1"
    ensures var b := L.Executed(a, t, L.Opened).0;
            && a.rt.next == 1 && a.libraryPath == ""
            && b.libraryPath == t.path && b.libraryService == t.service
            && b.manager.pointers == 1 && b.manager.service == 2 && b.manager.context == 3 && b.manager.session == t.session
  {
  }

  /**
   * A task may name the file of a blob as its path. What lies there is loaded, and a later task with that blob finds it in
   * the cache: it is called on the old content, although its own blob has been written over it.
   */
  lemma AliasedLibrary(decode: Decoder, app: L.App)
    requires decode("").Some? && app == L.NewApp("")
    ensures var file := "/tmp/armonik-lib-b.so";
            var first := Plain(map["ConventionVersion" := "v1", "Symbol" := "m", "LibraryPath" := file], map[]);
            var second := Plain(map["ConventionVersion" := "v1", "Symbol" := "m", "LibraryBlobId" := "b"], map["b" := "new"]);
            var u := Worked(Worker(app, map[file := "old"], map[]), first, decode, L.Opened).0;
            var (v, ok) := Worked(u, second, decode, L.Opened);
            && ok && v.app.rt.trace != [] && v.app.rt.trace[|v.app.rt.trace| - 1] == L.Call(1, 2, 3)
            && v.files[file] == "new" && 1 in v.images && v.images[1] == Some("old")
  {
    var file := "/tmp/armonik-lib-b.so";
    var first := Plain(map["ConventionVersion" := "v1", "Symbol" := "m", "LibraryPath" := file], map[]);
    var second := Plain(map["ConventionVersion" := "v1", "Symbol" := "m", "LibraryBlobId" := "b"], map["b" := "new"]);
    var w := Worker(app, map[file := "old"], map[]);
    var task := L.Convention(file, "", "s", "1");
    assert "/tmp/armonik-lib-" + "b" + ".so" == file;
    FirstUnderstood(decode, file);
    SecondUnderstood(decode, file);
    WorkedLoads(w, first, decode, L.Opened, file);
    WorkedParts(w, first, decode, L.Opened);
    FirstExecuted(app, task);
    hide Worked, Understood, Written, Loads, Imaged, L.Executed, LibraryFile, L.NewApp;
    var u := Worked(w, first, decode, L.Opened).0;
    WorkedLoads(u, second, decode, L.Opened, file);
    WorkedParts(u, second, decode, L.Opened);
    LP.HitEvents(u.app, task, L.Opened);
  }
}
