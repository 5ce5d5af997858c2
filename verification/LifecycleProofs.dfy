/** When the calls into foreign code are in order, judged by the trace alone, over every sequence of tasks. */
module LifecycleProofs {
  import opened Prelude
  import opened WorkerLifecycle

  // ---------- the judge ----------

  /** A live service: its library, what it was created for, and its open session. */
  datatype Service = Service(lib: Handle, space: string, name: string, open: Option<(Handle, string)>)

  /** What a trace has left: the files of the loaded libraries, the live services, and all handles ever made. */
  datatype World = World(loaded: map<Handle, string>, services: map<Handle, Service>, used: set<Handle>)

  const NEW_WORLD := World(map[], map[], {})

  /** Foreign code may be called through `lib` on behalf of `service`. */
  predicate Usable(w: World, lib: Handle, service: Handle) {
    service in w.services && w.services[service].lib == lib && lib in w.loaded
  }

  /** Whether an event is in order, and the world after it. */
  function Judge(w: World, e: Event): Option<World> {
    match e
    case Load(lib, file) =>
      if lib in w.used then None else Some(w.(loaded := w.loaded[lib := file], used := w.used + {lib}))
    case Unload(lib) =>
      if lib !in w.loaded || exists s :: s in w.services && w.services[s].lib == lib then None
      else Some(w.(loaded := w.loaded - {lib}))
    case Create(lib, service, space, name) =>
      if lib !in w.loaded || service in w.used then None
      else Some(w.(services := w.services[service := Service(lib, space, name, None)], used := w.used + {service}))
    case Destroy(lib, service) =>
      if !Usable(w, lib, service) || w.services[service].open.Some? then None
      else Some(w.(services := w.services - {service}))
    case Enter(lib, service, session, sessionId) =>
      if !Usable(w, lib, service) || w.services[service].open.Some? || session in w.used then None
      else Some(w.(services := w.services[service := w.services[service].(open := Some((session, sessionId)))],
                   used := w.used + {session}))
    case Leave(lib, service, session) =>
      if !Usable(w, lib, service) || w.services[service].open.None? || w.services[service].open.value.0 != session then None
      else Some(w.(services := w.services[service := w.services[service].(open := None)]))
    case Call(lib, service, session) =>
      if !Usable(w, lib, service) || w.services[service].open.None? || w.services[service].open.value.0 != session then None
      else Some(w)
  }

  function Replay(trace: seq<Event>): Option<World> {
    if trace == [] then Some(NEW_WORLD)
    else
      var before := Replay(trace[..|trace| - 1]);
      if before.None? then None else Judge(before.value, trace[|trace| - 1])
  }

  lemma ReplaySnoc(trace: seq<Event>, e: Event)
    ensures Replay(trace + [e]) == if Replay(trace).None? then None else Judge(Replay(trace).value, e)
  {
    assert (trace + [e])[..|trace|] == trace;
  }

  // ---------- the state and its world ----------

  function OpenSession(m: Manager): Option<(Handle, string)> {
    if m.session == "" then None else Some((m.context, m.session))
  }

  function ServiceOf(m: Manager): Service {
    Service(m.pointers, m.serviceId.space, m.serviceId.name, OpenSession(m))
  }

  /** The trace is in order, and the manager's service and library are all that is alive. */
  ghost predicate Tracks(a: App, w: World) {
    && Replay(a.rt.trace) == Some(w)
    && (forall h :: h in w.used ==> 0 < h < a.rt.next) && a.rt.next > 0
    && a.pointers < a.rt.next
    && w.loaded.Keys == (if a.library == 0 then {} else {a.library})
    && (if a.manager.serviceId.Empty()
        then a.manager.session == "" && w.services == map[]
        else a.library == a.pointers == a.manager.pointers != 0
             && w.services == map[a.manager.service := ServiceOf(a.manager)])
  }

  /** What the cached ids stand for, as long as they stand for anything. */
  ghost predicate Caches(a: App, w: World) {
    && (a.libraryPath != "" ==> a.currentId == NO_APP)
    && (a.currentId.Empty() ==> a.currentId == NO_APP)
    && (!a.currentId.Empty() && a.library == a.pointers != 0 ==>
          a.library in w.loaded && w.loaded[a.library] == FileName(a.basePath, a.currentId))
    && (!a.currentId.Empty() ==> a.pointers != 0)
    && (!a.manager.serviceId.Empty() && a.libraryPath != "" ==>
          && a.library in w.loaded && w.loaded[a.library] == a.libraryPath
          && a.manager.serviceId.name == a.libraryService)
  }

  ghost predicate Good(a: App) {
    exists w :: Tracks(a, w) && Caches(a, w)
  }

  /**
   * The caches promise something that is gone: after a failed load the path of the library is kept
   * although its service was destroyed, or the id of the application although its functions were unloaded.
   */
  predicate Stale(a: App, t: Task) {
    match t
    case Convention(path, _, service, _) =>
      path == a.libraryPath && service == a.libraryService && a.manager.serviceId.Empty()
    case Legacy(appId, _, _, _) => appId == a.currentId && a.library != a.pointers
  }

  // ---------- single operations ----------

  ghost predicate Living(w: World) {
    (forall s :: s in w.services ==> s in w.used) && (forall l :: l in w.loaded ==> l in w.used)
  }

  lemma {:induction false} LivingAreUsed(trace: seq<Event>)
    ensures Replay(trace).Some? ==> Living(Replay(trace).value)
  {
    hide Judge;
    if trace != [] {
      LivingAreUsed(trace[..|trace| - 1]);
      if Replay(trace[..|trace| - 1]).Some? {
        JudgedLiving(Replay(trace[..|trace| - 1]).value, trace[|trace| - 1]);
      }
    }
  }

  lemma JudgedLiving(w: World, e: Event)
    requires Living(w)
    ensures Judge(w, e).Some? ==> Living(Judge(w, e).value)
  {
  }

  lemma LeftTracks(a: App, w: World)
    requires Tracks(a, w) && !a.manager.serviceId.Empty()
    ensures var m := a.manager;
            var w' := w.(services := map[m.service := ServiceOf(m).(open := None)]);
            Replay(Left(m, a.rt).trace) == Some(w') && Left(m, a.rt).next == a.rt.next
  {
    var m := a.manager;
    if m.session == "" {
      assert w == w.(services := map[m.service := ServiceOf(m).(open := None)]);
    } else {
      ReplaySnoc(a.rt.trace, Leave(m.pointers, m.service, m.context));
      assert w.services[m.service := ServiceOf(m).(open := None)] == map[m.service := ServiceOf(m).(open := None)];
    }
  }

  lemma ClearedTracks(a: App, w: World)
    requires Tracks(a, w)
    ensures Tracks(ServiceCleared(a), w.(services := map[])) && ServiceCleared(a).manager.serviceId.Empty()
  {
    var m := a.manager;
    if !m.serviceId.Empty() {
      LeftTracks(a, w);
      ReplaySnoc(Left(m, a.rt).trace, Destroy(m.pointers, m.service));
      assert map[m.service := ServiceOf(m).(open := None)] - {m.service} == map[];
    }
  }

  lemma ReplacedTracks(a: App, w: World, file: string)
    requires Tracks(a, w) && a.manager.serviceId.Empty()
    ensures var b := LibraryReplaced(a, file);
            && Tracks(b, World(map[b.library := file], map[], w.used + {b.library}))
            && b.library == a.rt.next
  {
    var lib := a.rt.next;
    var loaded := Made(a.rt, Load(lib, file));
    ReplaySnoc(a.rt.trace, Load(lib, file));
    if a.library == 0 {
      assert w.loaded == map[];
      assert w.loaded[lib := file] == map[lib := file];
    } else {
      ReplaySnoc(loaded.trace, Unload(a.library));
      LivingAreUsed(a.rt.trace);
      assert a.library in w.loaded && lib != a.library;
      assert w.loaded[lib := file] - {a.library} == map[lib := file];
    }
  }

  lemma CreatedReplay(a: App, w: World, id: ServiceId)
    requires Tracks(a, w) && a.library == a.pointers != 0
    ensures var (m, rt) := NewManager(a.rt, a.pointers, id);
            && Replay(rt.trace) == Some(w.(services := w.services[m.service := ServiceOf(m)], used := w.used + {m.service}))
            && m.service !in w.services && m.service == a.rt.next && rt.next == a.rt.next + 1
  {
    ReplaySnoc(a.rt.trace, Create(a.pointers, a.rt.next, id.space, id.name));
    LivingAreUsed(a.rt.trace);
  }

  /** Clearing a manager leaves the other service alone. */
  lemma FormerDestroyed(former: Manager, rt: Runtime, w: World, other: Handle, service: Service)
    requires Replay(rt.trace) == Some(w) && former.pointers in w.loaded && former.service != other
    requires w.services == map[former.service := ServiceOf(former), other := service] && !former.serviceId.Empty()
    ensures Replay(Cleared(former, rt).1.trace) == Some(w.(services := map[other := service]))
  {
    var left := w.(services := w.services[former.service := ServiceOf(former).(open := None)]);
    if former.session != "" {
      ReplaySnoc(rt.trace, Leave(former.pointers, former.service, former.context));
    } else {
      assert left == w;
    }
    assert Replay(Left(former, rt).trace) == Some(left);
    ReplaySnoc(Left(former, rt).trace, Destroy(former.pointers, former.service));
    assert left.services - {former.service} == map[other := service];
  }

  lemma ServiceUsedTracks(a: App, w: World, id: ServiceId)
    requires Tracks(a, w) && a.library == a.pointers != 0 && !id.Empty()
    ensures var b := ServiceUsed(a, id);
            && b.manager.serviceId == id && b == a.(manager := b.manager, rt := b.rt)
            && exists w' :: Tracks(b, w') && w'.loaded == w.loaded
  {
    if id == a.manager.serviceId {
      assert Tracks(ServiceUsed(a, id), w);
    } else {
      CreatedReplay(a, w, id);
      var (m, rt) := NewManager(a.rt, a.pointers, id);
      var created := w.(services := w.services[m.service := ServiceOf(m)], used := w.used + {m.service});
      var final := created.(services := map[m.service := ServiceOf(m)]);
      if a.manager.serviceId.Empty() {
        assert created == final;
      } else {
        assert created.services == map[a.manager.service := ServiceOf(a.manager), m.service := ServiceOf(m)];
        FormerDestroyed(a.manager, rt, created, m.service, ServiceOf(m));
      }
      assert Tracks(ServiceUsed(a, id), final);
    }
  }

  /**
   * A service is created before the one it replaces is left and destroyed, and in between both are alive. The header of
   * the service manager tells it the other way round.
   */
  lemma CreatedBeforeDestroyed(a: App, w: World, id: ServiceId)
    requires Tracks(a, w) && a.library == a.pointers != 0
    requires !a.manager.serviceId.Empty() && id != a.manager.serviceId
    ensures var m := a.manager;
            var created := a.rt.trace + [Create(a.pointers, a.rt.next, id.space, id.name)];
            && ServiceUsed(a, id).rt.trace
               == created + (if m.session == "" then [] else [Leave(m.pointers, m.service, m.context)])
                + [Destroy(m.pointers, m.service)]
            && Replay(created).Some? && Replay(created).value.services.Keys == {m.service, a.rt.next}
            && m.service != a.rt.next
  {
    CreatedReplay(a, w, id);
  }

  /** The call is made on the service of the manager, in the session asked for. */
  lemma SessionCalledTracks(a: App, w: World, sessionId: string)
    requires Tracks(a, w) && !a.manager.serviceId.Empty() && sessionId != ""
    ensures var (b, ok) := SessionCalled(a, sessionId);
            && ok && b == a.(manager := b.manager, rt := b.rt) && b.manager.serviceId == a.manager.serviceId
            && b.manager.service == a.manager.service && b.manager.session == sessionId
            && b.rt.trace != [] && b.rt.trace[|b.rt.trace| - 1] == Call(b.manager.pointers, b.manager.service, b.manager.context)
            && exists w' :: Tracks(b, w') && w'.loaded == w.loaded
  {
    var m := a.manager;
    var (n, rt) := SessionUsed(m, a.rt, sessionId);
    var final := w;
    if sessionId != m.session {
      LeftTracks(a, w);
      var left := Left(m, a.rt);
      ReplaySnoc(left.trace, Enter(m.pointers, m.service, left.next, sessionId));
      final := World(w.loaded, map[m.service := ServiceOf(n)], w.used + {left.next});
      assert map[m.service := ServiceOf(m).(open := None)][m.service := ServiceOf(n)] == map[m.service := ServiceOf(n)];
    }
    assert Replay(rt.trace) == Some(final);
    ReplaySnoc(rt.trace, Call(n.pointers, n.service, n.context));
    assert Tracks(SessionCalled(a, sessionId).0, final);
  }

  // ---------- one task ----------

  /** The task finds its library and, for the convention, its service in the caches. */
  predicate Hit(a: App, t: Task) {
    match t
    case Convention(path, _, service, _) => path == a.libraryPath && service == a.libraryService
    case Legacy(appId, _, _, _) => appId == a.currentId
  }

  /** A hit takes the service as it is, whatever namespace the task asks for. */
  predicate SpaceMatches(a: App, t: Task) {
    t.Legacy? || !Hit(a, t) || t.space == a.manager.serviceId.space
  }

  /** The file that a task asks for: its path, or that of its application, with a version if there is one. */
  ghost predicate AsksFor(t: Task, basePath: string, file: string) {
    match t
    case Convention(path, _, _, _) => file == path
    case Legacy(appId, _, _, _) =>
      && (appId.version == "" ==> file == basePath + "/" + appId.name)
      && (appId.version != "" ==> file == basePath + "/" + appId.name + "." + appId.version)
  }

  /** The trace ends with a call to a live service of the library and name asked for, in the session asked for. */
  ghost predicate Serves(trace: seq<Event>, t: Task, basePath: string) {
    && trace != [] && trace[|trace| - 1].Call? && Replay(trace).Some?
    && var w, call := Replay(trace).value, trace[|trace| - 1];
    && Usable(w, call.lib, call.service)
    && AsksFor(t, basePath, w.loaded[call.lib])
    && w.services[call.service].name == t.service
    && w.services[call.service].open == Some((call.session, t.session))
  }

  /** The namespace of the service that was called. */
  ghost function SpaceServed(trace: seq<Event>, t: Task, basePath: string): string
    requires Serves(trace, t, basePath)
  {
    Replay(trace).value.services[trace[|trace| - 1].service].space
  }

  ghost predicate Right(a: App, t: Task, b: App, ok: bool, opening: Opening) {
    && Good(b) && b.basePath == a.basePath
    && ok == (Hit(a, t) || opening.Opened?)
    && (ok ==> && Serves(b.rt.trace, t, a.basePath)
               && (SpaceServed(b.rt.trace, t, a.basePath) == t.space <==> SpaceMatches(a, t)))
  }

  lemma Ready(a: App, w: World, t: Task)
    requires Tracks(a, w) && Caches(a, w) && t.Valid()
    requires !a.manager.serviceId.Empty() && a.manager.serviceId.name == t.service
    requires a.library in w.loaded && AsksFor(t, a.basePath, w.loaded[a.library])
    ensures var (b, ok) := SessionCalled(a, t.session);
            && ok && Good(b) && b.basePath == a.basePath && Serves(b.rt.trace, t, a.basePath)
            && SpaceServed(b.rt.trace, t, a.basePath) == a.manager.serviceId.space
  {
    SessionCalledTracks(a, w, t.session);
    var (b, _) := SessionCalled(a, t.session);
    var w' :| Tracks(b, w') && w'.loaded == w.loaded;
    assert Caches(b, w');
  }

  lemma ConventionRight(a: App, t: Task, opening: Opening)
    requires Good(a) && t.Valid() && t.Convention? && !Stale(a, t)
    ensures var (b, ok) := Executed(a, t, opening); Right(a, t, b, ok, opening)
  {
    hide Serves, SpaceServed;
    var w :| Tracks(a, w) && Caches(a, w);
    if Hit(a, t) {
      Ready(a, w, t);
    } else {
      var cleared := ServiceCleared(a).(currentId := NO_APP);
      ConventionMissed(a, w, t);
      if opening.Opened? {
        hide Good;
        var fetched := LibraryReplaced(cleared, t.path);
        var ready := fetched.(pointers := fetched.library, libraryPath := t.path, libraryService := t.service);
        var w1 := World(map[fetched.library := t.path], map[], w.used + {fetched.library});
        ConventionCreated(ready, w1, t);
      }
    }
  }

  lemma ConventionMissed(a: App, w: World, t: Task)
    requires Tracks(a, w) && Caches(a, w) && t.Valid() && t.Convention?
    ensures var cleared := ServiceCleared(a).(currentId := NO_APP);
            var fetched := LibraryReplaced(cleared, t.path);
            && Good(cleared) && Good(fetched) && fetched.manager.serviceId.Empty()
            && Tracks(fetched, World(map[fetched.library := t.path], map[], w.used + {fetched.library}))
  {
    ClearedTracks(a, w);
    var cleared := ServiceCleared(a).(currentId := NO_APP);
    var w0 := w.(services := map[]);
    assert Tracks(cleared, w0) && Caches(cleared, w0);
    ReplacedTracks(cleared, w0, t.path);
    var fetched := LibraryReplaced(cleared, t.path);
    var w1 := World(map[fetched.library := t.path], map[], w.used + {fetched.library});
    assert Tracks(fetched, w1) && Caches(fetched, w1);
  }

  lemma ConventionCreated(a: App, w: World, t: Task)
    requires Tracks(a, w) && t.Valid() && t.Convention? && a.manager.serviceId.Empty()
    requires a.library == a.pointers != 0 && a.libraryPath == t.path && a.libraryService == t.service && a.currentId == NO_APP
    requires w.loaded == map[a.library := t.path]
    ensures var id := ServiceId(AppId(t.path, ""), t.service, t.space);
            var (m, rt) := NewManager(a.rt, a.pointers, id);
            var (b, ok) := SessionCalled(a.(manager := m, rt := rt), t.session);
            && ok && Good(b) && b.basePath == a.basePath && Serves(b.rt.trace, t, a.basePath)
            && SpaceServed(b.rt.trace, t, a.basePath) == t.space
  {
    hide Serves, SpaceServed;
    var id := ServiceId(AppId(t.path, ""), t.service, t.space);
    var (m, rt) := NewManager(a.rt, a.pointers, id);
    CreatedReplay(a, w, id);
    var w' := w.(services := w.services[m.service := ServiceOf(m)], used := w.used + {m.service});
    var b := a.(manager := m, rt := rt);
    assert Tracks(b, w') && Caches(b, w');
    Ready(b, w', t);
  }

  lemma FileIsAskedFor(t: Task, basePath: string)
    requires t.Legacy?
    ensures AsksFor(t, basePath, FileName(basePath, t.appId))
  {
    var file := basePath + "/" + t.appId.name;
    if t.appId.version == "" {
      assert FileName(basePath, t.appId) == file + "" == file;
    } else {
      assert file + ("." + t.appId.version) == file + "." + t.appId.version;
    }
  }

  lemma LegacyRight(a: App, t: Task, opening: Opening)
    requires Good(a) && t.Valid() && t.Legacy? && !Stale(a, t)
    ensures var (b, ok) := Executed(a, t, opening); Right(a, t, b, ok, opening)
  {
    hide Serves, SpaceServed;
    var w :| Tracks(a, w) && Caches(a, w);
    var file := FileName(a.basePath, t.appId);
    if Hit(a, t) {
      LegacyServed(a, w, t);
    } else {
      ClearedTracks(a, w);
      var cleared := ServiceCleared(a).(libraryPath := "");
      var w0 := w.(services := map[]);
      assert Tracks(cleared, w0) && Caches(cleared, w0);
      if !opening.NotFound? {
        ReplacedTracks(cleared, w0, file);
        var fetched := LibraryReplaced(cleared, file);
        var w1 := World(map[fetched.library := file], map[], w.used + {fetched.library});
        assert Tracks(fetched, w1) && Caches(fetched, w1);
        if opening.Opened? {
          LegacyServed(fetched.(pointers := fetched.library, currentId := t.appId), w1, t);
        }
      }
    }
  }

  lemma LegacyServed(a: App, w: World, t: Task)
    requires Tracks(a, w) && Caches(a, w) && t.Valid() && t.Legacy? && a.currentId == t.appId
    requires a.library == a.pointers != 0
    ensures var id := ServiceId(t.appId, t.service, t.space);
            var (b, ok) := SessionCalled(ServiceUsed(a, id), t.session);
            && ok && Good(b) && b.basePath == a.basePath && Serves(b.rt.trace, t, a.basePath)
            && SpaceServed(b.rt.trace, t, a.basePath) == t.space
  {
    hide Serves, SpaceServed;
    var id := ServiceId(t.appId, t.service, t.space);
    ServiceUsedTracks(a, w, id);
    var b := ServiceUsed(a, id);
    var w' :| Tracks(b, w') && w'.loaded == w.loaded;
    assert Caches(b, w');
    FileIsAskedFor(t, a.basePath);
    hide AsksFor;
    Ready(b, w', t);
  }

  /**
   * A task that meets no stale cache keeps the trace in order; if its library is there, the call reaches a live
   * service of that library and name in the task's own session. The namespace is the task's own
   * unless the task hits a service of another namespace.
   */
  lemma ExecutedIsRight(a: App, t: Task, opening: Opening)
    requires Good(a) && t.Valid() && !Stale(a, t)
    ensures var (b, ok) := Executed(a, t, opening); Right(a, t, b, ok, opening)
  {
    if t.Convention? {
      ConventionRight(a, t, opening);
    } else {
      LegacyRight(a, t, opening);
    }
  }

  // ---------- stale caches ----------

  ghost predicate Extends(longer: seq<Event>, shorter: seq<Event>) {
    |shorter| <= |longer| && longer[..|shorter|] == shorter
  }

  /** Once out of order, a trace stays so. */
  lemma {:induction false} DisorderStays(longer: seq<Event>, shorter: seq<Event>)
    requires Extends(longer, shorter) && Replay(shorter).None?
    ensures Replay(longer).None?
    decreases |longer|
  {
    if |shorter| < |longer| {
      var before := longer[..|longer| - 1];
      assert before[..|shorter|] == shorter;
      DisorderStays(before, shorter);
    } else {
      assert longer == shorter;
    }
  }

  lemma ExtendsTransitive(c: seq<Event>, b: seq<Event>, a: seq<Event>)
    requires Extends(c, b) && Extends(b, a)
    ensures Extends(c, a)
  {
    assert c[..|a|] == c[..|b|][..|a|];
  }

  lemma LibraryUsedExtends(a: App, path: string, space: string, service: string, opening: Opening)
    ensures Extends(LibraryUsed(a, path, space, service, opening).0.rt.trace, a.rt.trace)
  {
  }

  lemma ApplicationUsedExtends(a: App, id: AppId, opening: Opening)
    ensures Extends(ApplicationUsed(a, id, opening).0.rt.trace, a.rt.trace)
  {
  }

  lemma ServiceUsedExtends(a: App, id: ServiceId)
    ensures Extends(ServiceUsed(a, id).rt.trace, a.rt.trace)
  {
  }

  lemma SessionCalledExtends(a: App, sessionId: string)
    ensures Extends(SessionCalled(a, sessionId).0.rt.trace, a.rt.trace)
  {
  }

  lemma ExecutedExtends(a: App, t: Task, opening: Opening)
    ensures Extends(Executed(a, t, opening).0.rt.trace, a.rt.trace)
  {
    hide SessionCalled, LibraryUsed, ApplicationUsed, ServiceUsed, Extends;
    match t
    case Convention(path, space, service, session) =>
      var b := LibraryUsed(a, path, space, service, opening).0;
      LibraryUsedExtends(a, path, space, service, opening);
      SessionCalledExtends(b, session);
      if LibraryUsed(a, path, space, service, opening).1 {
        ExtendsTransitive(SessionCalled(b, session).0.rt.trace, b.rt.trace, a.rt.trace);
      }
    case Legacy(appId, space, service, session) =>
      var b := ApplicationUsed(a, appId, opening).0;
      ApplicationUsedExtends(a, appId, opening);
      if ApplicationUsed(a, appId, opening).1 {
        var d := ServiceUsed(b, ServiceId(appId, service, space));
        ServiceUsedExtends(b, ServiceId(appId, service, space));
        SessionCalledExtends(d, session);
        ExtendsTransitive(d.rt.trace, b.rt.trace, a.rt.trace);
        ExtendsTransitive(SessionCalled(d, session).0.rt.trace, d.rt.trace, a.rt.trace);
      }
  }

  /** The session is entered on a service that is gone. */
  lemma StaleConvention(a: App, w: World, t: Task, opening: Opening)
    requires Tracks(a, w) && Caches(a, w) && t.Valid() && Stale(a, t) && t.Convention?
    ensures Replay(Executed(a, t, opening).0.rt.trace).None?
  {
    var b := Executed(a, t, opening).0;
    var enter := Enter(a.manager.pointers, a.manager.service, a.rt.next, t.session);
    ReplaySnoc(a.rt.trace, enter);
    assert Extends(b.rt.trace, a.rt.trace + [enter]);
    DisorderStays(b.rt.trace, a.rt.trace + [enter]);
  }

  /** The service is created with a library that is gone. */
  lemma StaleLegacy(a: App, w: World, t: Task, opening: Opening)
    requires Tracks(a, w) && Caches(a, w) && t.Valid() && Stale(a, t) && t.Legacy?
    ensures Replay(Executed(a, t, opening).0.rt.trace).None?
  {
    CreatesFirst(a, t, opening);
    StaleCreate(a, w, t);
    hide Executed, Tracks, Caches, Stale, Replay, Extends;
    DisorderStays(Executed(a, t, opening).0.rt.trace, a.rt.trace + [Create(a.pointers, a.rt.next, t.space, t.service)]);
  }

  lemma StaleCreate(a: App, w: World, t: Task)
    requires Tracks(a, w) && Caches(a, w) && Stale(a, t) && t.Legacy?
    ensures Replay(a.rt.trace + [Create(a.pointers, a.rt.next, t.space, t.service)]).None?
  {
    ReplaySnoc(a.rt.trace, Create(a.pointers, a.rt.next, t.space, t.service));
    assert a.pointers !in w.loaded;
  }

  lemma CreatesFirst(a: App, t: Task, opening: Opening)
    requires t.Legacy? && t.appId == a.currentId && ServiceId(t.appId, t.service, t.space) != a.manager.serviceId
    ensures Extends(Executed(a, t, opening).0.rt.trace,
                    a.rt.trace + [Create(a.pointers, a.rt.next, t.space, t.service)])
  {
    var id := ServiceId(t.appId, t.service, t.space);
    var d := ServiceUsed(a, id);
    assert Extends(d.rt.trace, a.rt.trace + [Create(a.pointers, a.rt.next, t.space, t.service)]);
    SessionCalledExtends(d, t.session);
    hide ServiceUsed, SessionCalled;
    ExtendsTransitive(SessionCalled(d, t.session).0.rt.trace, d.rt.trace,
                      a.rt.trace + [Create(a.pointers, a.rt.next, t.space, t.service)]);
    hide Extends;
  }

  lemma StaleIsDisorder(a: App, t: Task, opening: Opening)
    requires Good(a) && t.Valid() && Stale(a, t)
    ensures Replay(Executed(a, t, opening).0.rt.trace).None?
  {
    var w :| Tracks(a, w) && Caches(a, w);
    if t.Convention? {
      StaleConvention(a, w, t, opening);
    } else {
      StaleLegacy(a, w, t, opening);
    }
    hide Executed;
  }

  // ---------- the calls that a task leads to ----------

  /** What there is to do before another library or another service can take over. */
  function Closing(m: Manager): seq<Event> {
    if m.serviceId.appId.name == "" then []
    else if m.session == "" then [Destroy(m.pointers, m.service)]
    else [Leave(m.pointers, m.service, m.context), Destroy(m.pointers, m.service)]
  }

  lemma ClearedEvents(m: Manager, rt: Runtime)
    ensures Cleared(m, rt).1 == rt.(trace := rt.trace + Closing(m))
    ensures Cleared(m, rt).0 == if Closing(m) == [] then m else m.(serviceId := NO_SERVICE, session := "")
  {
    if m.serviceId.Empty() {
      assert rt.trace + [] == rt.trace;
    } else if m.session != "" {
      assert rt.trace + [Leave(m.pointers, m.service, m.context)] + [Destroy(m.pointers, m.service)] == rt.trace + Closing(m);
    }
  }

  /** In its own session a call is all there is; another session is left first, and the new one is entered. */
  lemma SessionEvents(a: App, sessionId: string)
    requires sessionId != ""
    ensures var m, (b, ok) := a.manager, SessionCalled(a, sessionId);
            && ok && b == a.(manager := b.manager, rt := b.rt)
            && if m.session == sessionId then b.manager == m && b.rt == a.rt.(trace := a.rt.trace + [Call(m.pointers, m.service, m.context)])
               else
                 && b.manager == m.(session := sessionId, context := a.rt.next) && b.rt.next == a.rt.next + 1
                 && b.rt.trace == a.rt.trace + (if m.session == "" then [] else [Leave(m.pointers, m.service, m.context)])
                                + [Enter(m.pointers, m.service, a.rt.next, sessionId), Call(m.pointers, m.service, a.rt.next)]
  {
    var m := a.manager;
    if m.session != sessionId {
      var left := if m.session == "" then [] else [Leave(m.pointers, m.service, m.context)];
      var enter, call := Enter(m.pointers, m.service, a.rt.next, sessionId), Call(m.pointers, m.service, a.rt.next);
      assert a.rt.trace + [] == a.rt.trace;
      assert a.rt.trace + left + [enter] + [call] == a.rt.trace + left + [enter, call];
    }
  }

  /** A task that finds everything in place adds its call, and what its session needs, and nothing else. */
  lemma HitEvents(a: App, t: Task, opening: Opening)
    requires t.Valid() && Hit(a, t) && (t.Legacy? ==> a.manager.serviceId == ServiceId(t.appId, t.service, t.space))
    ensures Executed(a, t, opening) == SessionCalled(a, t.session)
    ensures a.manager.session == t.session ==>
              && Executed(a, t, opening).1
              && Executed(a, t, opening).0.rt.trace
                 == a.rt.trace + [Call(a.manager.pointers, a.manager.service, a.manager.context)]
  {
    SessionEvents(a, t.session);
  }

  /**
   * Any other task closes what is open, loads its library before it drops the one held so far, creates its service, enters
   * its session and calls.
   */
  lemma MissEvents(a: App, t: Task, file: string)
    requires t.Valid() && !Hit(a, t) && AsksFor(t, a.basePath, file)
    ensures var n := a.rt.next;
            Executed(a, t, Opened).0.rt.trace
            == a.rt.trace + Closing(a.manager) + [Load(n, file)] + (if a.library == 0 then [] else [Unload(a.library)])
             + [Create(n, n + 1, t.space, t.service), Enter(n, n + 1, n + 2, t.session), Call(n, n + 1, n + 2)]
  {
    if t.Convention? {
      ConventionEvents(a, t);
    } else {
      FileIsAskedFor(t, a.basePath);
      LegacyEvents(a, t);
    }
    hide Executed, Closing;
  }

  /** When the library is not there, or is not one, what was open is closed all the same. */
  lemma FailedEvents(a: App, t: Task, file: string)
    requires t.Valid() && !Hit(a, t) && AsksFor(t, a.basePath, file)
    ensures Executed(a, t, NotFound).0.rt == a.rt.(trace := a.rt.trace + Closing(a.manager))
    ensures Executed(a, t, NoSymbols).0.rt.trace
         == a.rt.trace + Closing(a.manager) + [Load(a.rt.next, file)] + (if a.library == 0 then [] else [Unload(a.library)])
    ensures !Executed(a, t, NotFound).1 && !Executed(a, t, NoSymbols).1
  {
    ClearedEvents(a.manager, a.rt);
    if t.Legacy? {
      FileIsAskedFor(t, a.basePath);
    }
    hide Closing, AsksFor;
    ReplacedEvents(ServiceCleared(a), file);
  }

  lemma ReplacedEvents(a: App, file: string)
    ensures var b, n := LibraryReplaced(a, file), a.rt.next;
            && b == a.(library := n, rt := b.rt) && b.rt.next == n + 1
            && b.rt.trace == a.rt.trace + [Load(n, file)] + (if a.library == 0 then [] else [Unload(a.library)])
  {
    assert a.rt.trace + [Load(a.rt.next, file)] + [] == a.rt.trace + [Load(a.rt.next, file)];
  }

  /** A service that was just created. */
  lemma CreatedEvents(a: App, b: App, id: ServiceId, sessionId: string)
    requires sessionId != "" && (b.manager, b.rt) == NewManager(a.rt, a.pointers, id)
    ensures var n := a.rt.next;
            SessionCalled(b, sessionId).0.rt.trace
            == a.rt.trace + [Create(a.pointers, n, id.space, id.name), Enter(a.pointers, n, n + 1, sessionId),
                             Call(a.pointers, n, n + 1)]
  {
    SessionEvents(b, sessionId);
    var n := a.rt.next;
    var create, rest := Create(a.pointers, n, id.space, id.name), [Enter(a.pointers, n, n + 1, sessionId), Call(a.pointers, n, n + 1)];
    assert a.rt.trace + [create] + [] + rest == a.rt.trace + ([create] + rest);
  }

  lemma ConventionEvents(a: App, t: Task)
    requires t.Valid() && t.Convention? && !Hit(a, t)
    ensures var n := a.rt.next;
            Executed(a, t, Opened).0.rt.trace
            == a.rt.trace + Closing(a.manager) + [Load(n, t.path)] + (if a.library == 0 then [] else [Unload(a.library)])
             + [Create(n, n + 1, t.space, t.service), Enter(n, n + 1, n + 2, t.session), Call(n, n + 1, n + 2)]
  {
    hide SessionCalled, Closing;
    var cleared := ServiceCleared(a).(currentId := NO_APP);
    ClearedEvents(a.manager, a.rt);
    ReplacedEvents(cleared, t.path);
    var fetched := LibraryReplaced(cleared, t.path);
    var ready := fetched.(pointers := fetched.library, libraryPath := t.path, libraryService := t.service);
    var id := ServiceId(AppId(t.path, ""), t.service, t.space);
    var (m, rt) := NewManager(ready.rt, ready.pointers, id);
    CreatedEvents(ready, ready.(manager := m, rt := rt), id, t.session);
  }

  lemma LegacyEvents(a: App, t: Task)
    requires t.Valid() && t.Legacy? && !Hit(a, t)
    ensures var n, file := a.rt.next, FileName(a.basePath, t.appId);
            Executed(a, t, Opened).0.rt.trace
            == a.rt.trace + Closing(a.manager) + [Load(n, file)] + (if a.library == 0 then [] else [Unload(a.library)])
             + [Create(n, n + 1, t.space, t.service), Enter(n, n + 1, n + 2, t.session), Call(n, n + 1, n + 2)]
  {
    hide SessionCalled;
    var file := FileName(a.basePath, t.appId);
    var cleared := ServiceCleared(a).(libraryPath := "");
    ClearedEvents(a.manager, a.rt);
    ReplacedEvents(cleared, file);
    var fetched := LibraryReplaced(cleared, file);
    var ready := fetched.(pointers := fetched.library, currentId := t.appId);
    var id := ServiceId(t.appId, t.service, t.space);
    assert ready.manager.serviceId.Empty() && id != ready.manager.serviceId;
    var (m, rt) := NewManager(ready.rt, ready.pointers, id);
    CreatedEvents(ready, ready.(manager := m, rt := rt), id, t.session);
    hide Closing, FileName;
    assert ServiceUsed(ready, id) == ready.(manager := m, rt := rt);
  }

  // ---------- every sequence of tasks ----------

  type Attempt = (Task, Opening)

  ghost predicate AllValid(log: seq<Attempt>) {
    forall k :: 0 <= k < |log| ==> log[k].0.Valid()
  }

  function Run(a: App, log: seq<Attempt>): App {
    if log == [] then a
    else Executed(Run(a, log[..|log| - 1]), log[|log| - 1].0, log[|log| - 1].1).0
  }

  /** No task of the log meets a stale cache. */
  ghost predicate NeverStale(a: App, log: seq<Attempt>) {
    forall k :: 0 <= k < |log| ==> !Stale(Run(a, log[..k]), log[k].0)
  }

  lemma NewIsGood(basePath: string)
    ensures Good(NewApp(basePath))
  {
    assert Tracks(NewApp(basePath), NEW_WORLD) && Caches(NewApp(basePath), NEW_WORLD);
  }

  lemma {:induction false} RunIsGood(a: App, log: seq<Attempt>)
    requires Good(a) && AllValid(log)
    ensures NeverStale(a, log) ==> Good(Run(a, log))
    ensures !NeverStale(a, log) ==> Replay(Run(a, log).rt.trace).None?
  {
    hide Good, Stale, Right, Executed, Replay;
    if log != [] {
      var n := |log| - 1;
      var before := log[..n];
      RunIsGood(a, before);
      StaleSomewhere(a, log);
      var (t, opening) := log[n];
      if !NeverStale(a, before) {
        ExecutedExtends(Run(a, before), t, opening);
        DisorderStays(Run(a, log).rt.trace, Run(a, before).rt.trace);
      } else if Stale(Run(a, before), t) {
        StaleIsDisorder(Run(a, before), t, opening);
      } else {
        ExecutedIsRight(Run(a, before), t, opening);
        GoodOfRight(Run(a, before), t, opening);
      }
      hide NeverStale;
    }
  }

  lemma StaleSomewhere(a: App, log: seq<Attempt>)
    requires log != []
    ensures var n := |log| - 1; NeverStale(a, log) <==> NeverStale(a, log[..n]) && !Stale(Run(a, log[..n]), log[n].0)
  {
    hide Stale, Run;
    var n := |log| - 1;
    assert forall k :: 0 <= k < n ==> log[..k] == log[..n][..k] && log[..n][k] == log[k];
  }

  lemma GoodOfRight(a: App, t: Task, opening: Opening)
    requires var (b, ok) := Executed(a, t, opening); Right(a, t, b, ok, opening)
    ensures Good(Executed(a, t, opening).0)
  {
  }

  /**
   * Over every sequence of tasks, with any of their libraries failing to load: all calls into foreign code
   * are in order if and only if no task met a stale cache, and then at most one library and
   * one service are left.
   */
  lemma InOrderExactly(basePath: string, log: seq<Attempt>)
    requires AllValid(log)
    ensures var end := Replay(Run(NewApp(basePath), log).rt.trace);
            && (end.Some? <==> NeverStale(NewApp(basePath), log))
            && (end.Some? ==> |end.value.services| <= 1 && |end.value.loaded| <= 1)
  {
    NewIsGood(basePath);
    RunIsGood(NewApp(basePath), log);
    if NeverStale(NewApp(basePath), log) {
      var a := Run(NewApp(basePath), log);
      var w :| Tracks(a, w) && Caches(a, w);
      AtMostOne(w.loaded.Keys, a.library);
      assert |w.loaded| == |w.loaded.Keys|;
    }
  }

  lemma AtMostOne(s: set<Handle>, h: Handle)
    requires s <= {h}
    ensures |s| <= 1
  {
    assert s == {} || s == {h};
  }

  lemma BaseKept(a: App, t: Task, opening: Opening)
    ensures Executed(a, t, opening).0.basePath == a.basePath
  {
  }

  lemma {:induction false} RunKeepsBase(a: App, log: seq<Attempt>)
    ensures Run(a, log).basePath == a.basePath
  {
    hide Executed;
    if log != [] {
      RunKeepsBase(a, log[..|log| - 1]);
      BaseKept(Run(a, log[..|log| - 1]), log[|log| - 1].0, log[|log| - 1].1);
    }
  }

  /** Every call of a log, when nothing was stale. Legacy libraries are looked for where the configuration says, or in /data. */
  lemma EveryCallIsRight(basePath: string, log: seq<Attempt>, k: nat)
    requires AllValid(log) && k < |log| && NeverStale(NewApp(basePath), log)
    ensures var a := Run(NewApp(basePath), log[..k]);
            var (b, ok) := Executed(a, log[k].0, log[k].1);
            && b == Run(NewApp(basePath), log[..k + 1]) && Right(a, log[k].0, b, ok, log[k].1)
            && a.basePath == if basePath == "" then "/data" else basePath
  {
    RunKeepsBase(NewApp(basePath), log[..k]);
    NewIsGood(basePath);
    var before := log[..k];
    assert log[..k + 1][..k] == before;
    assert forall j :: 0 <= j < k ==> before[..j] == log[..j];
    RunIsGood(NewApp(basePath), before);
    ExecutedIsRight(Run(NewApp(basePath), before), log[k].0, log[k].1);
  }

  // ---------- when caches cannot be stale ----------

  ghost predicate Clean(a: App) {
    (a.libraryPath != "" ==> !a.manager.serviceId.Empty()) && (!a.currentId.Empty() ==> a.library == a.pointers)
  }

  /** Failures that do no harm: a legacy library that is not found at all. */
  predicate Harmless(attempt: Attempt) {
    attempt.1.Opened? || (attempt.0.Legacy? && attempt.1.NotFound?)
  }

  lemma {:induction false} RunIsClean(a: App, log: seq<Attempt>)
    requires Clean(a) && AllValid(log) && forall k :: 0 <= k < |log| ==> Harmless(log[k])
    ensures Clean(Run(a, log))
  {
    hide Clean, Harmless, Executed;
    if log != [] {
      RunIsClean(a, log[..|log| - 1]);
      CleanStep(Run(a, log[..|log| - 1]), log[|log| - 1]);
    }
  }

  lemma CleanStep(a: App, attempt: Attempt)
    requires Clean(a) && attempt.0.Valid() && Harmless(attempt)
    ensures Clean(Executed(a, attempt.0, attempt.1).0)
  {
  }

  /** As long as libraries load, or legacy ones are not found at all, everything is in order. */
  lemma SuccessfulRunsAreInOrder(basePath: string, log: seq<Attempt>)
    requires AllValid(log) && forall k :: 0 <= k < |log| ==> Harmless(log[k])
    ensures NeverStale(NewApp(basePath), log)
    ensures Replay(Run(NewApp(basePath), log).rt.trace).Some?
  {
    forall k | 0 <= k < |log| ensures !Stale(Run(NewApp(basePath), log[..k]), log[k].0) {
      assert forall j :: 0 <= j < k ==> log[..k][j] == log[j];
      RunIsClean(NewApp(basePath), log[..k]);
    }
    InOrderExactly(basePath, log);
  }

  // ---------- counterexamples ----------

  /** After a library that was not found, the path of the one before it is kept without its service. */
  lemma StalePath()
    ensures var a, b := Convention("a", "", "s", "1"), Convention("b", "", "s", "1");
            Replay(Run(NewApp(""), [(a, Opened), (b, NotFound), (a, Opened)]).rt.trace).None?
  {
    var a, b := Convention("a", "", "s", "1"), Convention("b", "", "s", "1");
    var log: seq<Attempt> := [(a, Opened), (b, NotFound), (a, Opened)];
    var first := Executed(NewApp(""), a, Opened).0;
    assert log[..1][..0] == [] && log[..1][0] == (a, Opened);
    assert Run(NewApp(""), log[..1]) == first;
    assert log[..2][..1] == log[..1] && log[..2][1] == (b, NotFound);
    assert Run(NewApp(""), log[..2]) == Executed(first, b, NotFound).0;
    assert Stale(Run(NewApp(""), log[..2]), log[2].0);
    InOrderExactly("", log);
  }

  /** Two tasks that differ in namespace only share the first one's service. */
  lemma NamespaceKept()
    ensures var a, b := Convention("a", "x", "s", "1"), Convention("a", "y", "s", "1");
            var trace := Run(NewApp(""), [(a, Opened), (b, Opened)]).rt.trace;
            Serves(trace, b, "/data") && SpaceServed(trace, b, "/data") == "x"
  {
    var a, b := Convention("a", "x", "s", "1"), Convention("a", "y", "s", "1");
    var log: seq<Attempt> := [(a, Opened), (b, Opened)];
    var first := Executed(NewApp(""), a, Opened).0;
    hide Judge, Replay;
    assert log[..1][..0] == [] && log[..1][0] == (a, Opened);
    assert Run(NewApp(""), log[..1]) == first;
    SuccessfulRunsAreInOrder("", log);
    EveryCallIsRight("", log, 1);
    assert log[..2] == log;
    assert Hit(first, b) && first.manager.serviceId.space == "x";
    NewIsGood("");
    ExecutedIsRight(NewApp(""), a, Opened);
    var w :| Tracks(first, w) && Caches(first, w);
    Ready(first, w, b);
  }
}
