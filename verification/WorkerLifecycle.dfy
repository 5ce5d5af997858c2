/**
 * How a worker process loads libraries, creates services, enters sessions and calls methods. The functions
 * of a loaded library are foreign code: what matters of them is the trace of calls they receive.
 */
module WorkerLifecycle {
  datatype AppId = AppId(name: string, version: string) {
    predicate Empty() {
      name == ""
    }
  }

  const NO_APP := AppId("", "")

  datatype ServiceId = ServiceId(appId: AppId, name: string, space: string) {
    predicate Empty() {
      appId.Empty()
    }
  }

  const NO_SERVICE := ServiceId(NO_APP, "", "")

  /** Handles of loaded libraries, service contexts and session contexts; 0 is the null pointer. */
  type Handle = nat

  /** A call into the dynamic linker or into the functions of a library. */
  datatype Event =
    | Load(lib: Handle, file: string)
    | Unload(lib: Handle)
    | Create(lib: Handle, service: Handle, space: string, name: string)
    | Destroy(lib: Handle, service: Handle)
    | Enter(lib: Handle, service: Handle, session: Handle, sessionId: string)
    | Leave(lib: Handle, service: Handle, session: Handle)
    | Call(lib: Handle, service: Handle, session: Handle)

  datatype Runtime = Runtime(trace: seq<Event>, next: Handle)

  function Did(rt: Runtime, e: Event): Runtime {
    rt.(trace := rt.trace + [e])
  }

  /** An event whose result is a new handle. */
  function Made(rt: Runtime, e: Event): Runtime {
    Runtime(rt.trace + [e], rt.next + 1)
  }

  // ---------- the service manager ----------

  datatype Manager = Manager(serviceId: ServiceId, session: string, service: Handle, context: Handle, pointers: Handle)

  const NO_MANAGER := Manager(NO_SERVICE, "", 0, 0, 0)

  function NewManager(rt: Runtime, pointers: Handle, id: ServiceId): (Manager, Runtime) {
    (Manager(id, "", rt.next, 0, pointers), Made(rt, Create(pointers, rt.next, id.space, id.name)))
  }

  /** The session is left if there is one. */
  function Left(m: Manager, rt: Runtime): Runtime {
    if m.session == "" then rt else Did(rt, Leave(m.pointers, m.service, m.context))
  }

  function SessionUsed(m: Manager, rt: Runtime, sessionId: string): (Manager, Runtime) {
    if sessionId == m.session then (m, rt)
    else
      var left := Left(m, rt);
      (m.(session := sessionId, context := left.next), Made(left, Enter(m.pointers, m.service, left.next, sessionId)))
  }

  function Cleared(m: Manager, rt: Runtime): (Manager, Runtime) {
    if m.serviceId.Empty() then (m, rt)
    else (m.(serviceId := NO_SERVICE, session := ""), Did(Left(m, rt), Destroy(m.pointers, m.service)))
  }

  /** The call itself; without a session it throws. */
  function Called(m: Manager, rt: Runtime): (Runtime, bool) {
    if m.session == "" then (rt, false) else (Did(rt, Call(m.pointers, m.service, m.context)), true)
  }

  // ---------- the application manager ----------

  datatype App = App(
    basePath: string,
    manager: Manager,
    currentId: AppId,
    library: Handle,
    pointers: Handle,
    libraryPath: string,
    libraryService: string,
    rt: Runtime)

  function NewApp(basePath: string): App {
    App(if basePath == "" then "/data" else basePath, NO_MANAGER, NO_APP, 0, 0, "", "", Runtime([], 1))
  }

  /** What comes of opening a library and looking up the five functions. */
  datatype Opening = NotFound | NoSymbols | Opened

  function FileName(basePath: string, id: AppId): string {
    basePath + "/" + id.name + (if id.version == "" then "" else "." + id.version)
  }

  function ServiceCleared(a: App): App {
    var (m, rt) := Cleared(a.manager, a.rt);
    a.(manager := m, rt := rt)
  }

  /** The new library is loaded before the one it replaces is unloaded. */
  function LibraryReplaced(a: App, file: string): App {
    var loaded := Made(a.rt, Load(a.rt.next, file));
    a.(library := a.rt.next, rt := if a.library == 0 then loaded else Did(loaded, Unload(a.library)))
  }

  function ApplicationUsed(a: App, id: AppId, opening: Opening): (App, bool) {
    if id == a.currentId then (a, true)
    else
      var cleared := ServiceCleared(a).(libraryPath := "");
      if opening.NotFound? then (cleared, false)
      else
        var fetched := LibraryReplaced(cleared, FileName(a.basePath, id));
        if opening.NoSymbols? then (fetched, false)
        else (fetched.(pointers := fetched.library, currentId := id), true)
  }

  /** The new service is created before the one it replaces is destroyed. */
  function ServiceUsed(a: App, id: ServiceId): App {
    if id == a.manager.serviceId then a
    else
      var (m, rt) := NewManager(a.rt, a.pointers, id);
      var (_, rt') := Cleared(a.manager, rt);
      a.(manager := m, rt := rt')
  }

  function LibraryUsed(a: App, path: string, space: string, name: string, opening: Opening): (App, bool) {
    if path == a.libraryPath && name == a.libraryService then (a, true)
    else
      var cleared := ServiceCleared(a).(currentId := NO_APP);
      if opening.NotFound? then (cleared, false)
      else
        var fetched := LibraryReplaced(cleared, path);
        if opening.NoSymbols? then (fetched, false)
        else
          var ready := fetched.(pointers := fetched.library, libraryPath := path, libraryService := name);
          var (m, rt) := NewManager(ready.rt, ready.pointers, ServiceId(AppId(path, ""), name, space));
          (ready.(manager := m, rt := rt), true)
  }

  // ---------- tasks ----------

  datatype Task =
    | Convention(path: string, space: string, service: string, session: string)
    | Legacy(appId: AppId, space: string, service: string, session: string)
  {
    /** The ids that the scheduler must not leave empty. */
    predicate Valid() {
      session != "" && if Convention? then path != "" else !appId.Empty()
    }
  }

  function SessionCalled(a: App, sessionId: string): (App, bool) {
    var (m, rt) := SessionUsed(a.manager, a.rt, sessionId);
    var (rt', ok) := Called(m, rt);
    (a.(manager := m, rt := rt'), ok)
  }

  /** The part of Execute that drives the managers; false when it throws before the call. */
  function Executed(a: App, t: Task, opening: Opening): (App, bool) {
    match t
    case Convention(path, space, service, session) =>
      var (b, ok) := LibraryUsed(a, path, space, service, opening);
      if ok then SessionCalled(b, session) else (b, false)
    case Legacy(appId, space, service, session) =>
      var (b, ok) := ApplicationUsed(a, appId, opening);
      if ok then SessionCalled(ServiceUsed(b, ServiceId(appId, service, space)), session) else (b, false)
  }

  // ---------- the classes ----------

  /** The foreign code, as seen by its callers. */
  class Foreign {
    var trace: seq<Event>
    var next: Handle

    function View(): Runtime
      reads this
    {
      Runtime(trace, next)
    }

    constructor ()
      ensures View() == Runtime([], 1)
    {
      trace, next := [], 1;
    }

    method Do(e: Event)
      modifies this
      ensures View() == Did(old(View()), e)
    {
      trace := trace + [e];
    }

    method Make(e: Event) returns (handle: Handle)
      modifies this
      ensures View() == Made(old(View()), e) && handle == old(next)
    {
      handle := next;
      trace, next := trace + [e], next + 1;
    }
  }

  class ServiceManager {
    var serviceId: ServiceId
    var currentSession: string
    var serviceContext: Handle
    var sessionContext: Handle
    var functionPointers: Handle

    function View(): Manager
      reads this
    {
      Manager(serviceId, currentSession, serviceContext, sessionContext, functionPointers)
    }

    constructor ()
      ensures View() == NO_MANAGER
    {
      serviceId, currentSession, serviceContext, sessionContext, functionPointers := NO_SERVICE, "", 0, 0, 0;
    }

    constructor For(foreign: Foreign, pointers: Handle, id: ServiceId)
      modifies foreign
      ensures (View(), foreign.View()) == NewManager(old(foreign.View()), pointers, id)
    {
      serviceId, currentSession, functionPointers, sessionContext := id, "", pointers, 0;
      new;
      serviceContext := foreign.Make(Create(pointers, foreign.next, id.space, id.name));
    }

    method UseSession(foreign: Foreign, sessionId: string)
      modifies this, foreign
      ensures (View(), foreign.View()) == SessionUsed(old(View()), old(foreign.View()), sessionId)
    {
      if sessionId != currentSession {
        if currentSession != "" {
          foreign.Do(Leave(functionPointers, serviceContext, sessionContext));
        }
        currentSession := sessionId;
        sessionContext := foreign.Make(Enter(functionPointers, serviceContext, foreign.next, sessionId));
      }
    }

    method Execute(foreign: Foreign) returns (ok: bool)
      modifies foreign
      ensures (foreign.View(), ok) == Called(View(), old(foreign.View()))
    {
      if currentSession == "" {
        return false;
      }
      foreign.Do(Call(functionPointers, serviceContext, sessionContext));
      ok := true;
    }

    /** Also the destructor. */
    method Clear(foreign: Foreign)
      modifies this, foreign
      ensures (View(), foreign.View()) == Cleared(old(View()), old(foreign.View()))
    {
      if serviceId.Empty() {
        return;
      }
      if currentSession != "" {
        foreign.Do(Leave(functionPointers, serviceContext, sessionContext));
        currentSession := "";
      }
      foreign.Do(Destroy(functionPointers, serviceContext));
      serviceId := NO_SERVICE;
    }

    /** Move assignment: the two managers trade places. */
    method Swap(other: ServiceManager)
      modifies this, other
      ensures View() == old(other.View()) && other.View() == old(View())
    {
      serviceId, other.serviceId := other.serviceId, serviceId;
      currentSession, other.currentSession := other.currentSession, currentSession;
      serviceContext, other.serviceContext := other.serviceContext, serviceContext;
      sessionContext, other.sessionContext := other.sessionContext, sessionContext;
      functionPointers, other.functionPointers := other.functionPointers, functionPointers;
    }
  }

  class ApplicationManager {
    const foreign: Foreign
    const serviceManager: ServiceManager
    const applicationsBasePath: string
    var currentId: AppId
    var currentLibrary: Handle
    var functionPointers: Handle
    var currentLibraryPath: string
    var currentLibraryServiceName: string

    function View(): App
      reads this, serviceManager, foreign
    {
      App(applicationsBasePath, serviceManager.View(), currentId, currentLibrary, functionPointers,
          currentLibraryPath, currentLibraryServiceName, foreign.View())
    }

    constructor (basePath: string)
      ensures View() == NewApp(basePath) && fresh(foreign) && fresh(serviceManager)
    {
      foreign := new Foreign();
      serviceManager := new ServiceManager();
      applicationsBasePath := if basePath == "" then "/data" else basePath;
      currentId, currentLibrary, functionPointers := NO_APP, 0, 0;
      currentLibraryPath, currentLibraryServiceName := "", "";
    }

    /** Opens a library and drops the one held so far. */
    method ReplaceLibrary(file: string)
      modifies this, foreign
      ensures View() == LibraryReplaced(old(View()), file)
    {
      var replaced := currentLibrary;
      currentLibrary := foreign.Make(Load(foreign.next, file));
      if replaced != 0 {
        foreign.Do(Unload(replaced));
      }
    }

    method UseApplication(appId: AppId, opening: Opening) returns (ok: bool)
      modifies this, serviceManager, foreign
      ensures (View(), ok) == ApplicationUsed(old(View()), appId, opening)
    {
      if appId == currentId {
        return true;
      }
      serviceManager.Clear(foreign);
      currentLibraryPath := "";
      if opening.NotFound? {
        return false;
      }
      ReplaceLibrary(FileName(applicationsBasePath, appId));
      if opening.NoSymbols? {
        return false;
      }
      functionPointers := currentLibrary;
      currentId := appId;
      ok := true;
    }

    method UseService(id: ServiceId)
      modifies serviceManager, foreign
      ensures View() == ServiceUsed(old(View()), id)
    {
      if id != serviceManager.serviceId {
        var created := new ServiceManager.For(foreign, functionPointers, id);
        serviceManager.Swap(created);
        created.Clear(foreign);
      }
    }

    method UseLibrary(path: string, space: string, name: string, opening: Opening) returns (ok: bool)
      modifies this, serviceManager, foreign
      ensures (View(), ok) == LibraryUsed(old(View()), path, space, name, opening)
    {
      if path == currentLibraryPath && name == currentLibraryServiceName {
        return true;
      }
      serviceManager.Clear(foreign);
      currentId := NO_APP;
      if opening.NotFound? {
        return false;
      }
      ReplaceLibrary(path);
      if opening.NoSymbols? {
        return false;
      }
      functionPointers := currentLibrary;
      currentLibraryPath, currentLibraryServiceName := path, name;
      var created := new ServiceManager.For(foreign, functionPointers, ServiceId(AppId(path, ""), name, space));
      serviceManager.Swap(created);
      created.Clear(foreign);
      ok := true;
    }

    method Execute(t: Task, opening: Opening) returns (ok: bool)
      modifies this, serviceManager, foreign
      ensures (View(), ok) == Executed(old(View()), t, opening)
    {
      match t
      case Convention(path, space, service, session) =>
        ok := UseLibrary(path, space, service, opening);
        if ok {
          serviceManager.UseSession(foreign, session);
          ok := serviceManager.Execute(foreign);
        }
      case Legacy(appId, space, service, session) =>
        ok := UseApplication(appId, opening);
        if ok {
          UseService(ServiceId(appId, service, space));
          serviceManager.UseSession(foreign, session);
          ok := serviceManager.Execute(foreign);
        }
    }
  }
}
