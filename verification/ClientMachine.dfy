/**
 * A client process as a whole: any number of submissions, each with all interleavings of its own functions, and the waits,
 * cleanups and drops of the session, on one server that other processes use as well.
 */
module ClientMachine {
  import opened SessionMaps
  import S = Submission
  import W = ResultWaiting

  /** A call of SubmitRaw: what it was called with and on which server, where it is, and whether it has recorded. */
  datatype Call = Call(
    request: S.Request,
    chunkMax: nat,
    limit: nat,
    handler: Handler,
    began: S.Server,
    state: S.State,
    recorded: bool)
  {
    function Start(): S.State {
      S.Start(request, began, chunkMax, limit)
    }

    /** The end of SubmitRaw, as a step of the session. */
    function Recording(): W.Step {
      W.Record(state.outputs, state.tasks, handler)
    }
  }

  datatype World = World(server: S.Server, session: W.State, calls: map<nat, Call>)

  function Init(server: S.Server): World {
    World(server, W.START, map[])
  }

  datatype Step =
    | Begin(call: nat, request: S.Request, chunkMax: nat, limit: nat, handler: Handler)
    | Move(call: nat, step: S.Step)
    | Record(call: nat)            // under the mutex of the maps, when the last barrier is passed
    | InSession(action: W.Step)    // the steps of waits, cleanups and drops
    | Others(server: S.Server)     // other processes

  /** What one request does to the server leaves the results of the other calls alone. */
  ghost predicate SparesOthers(w: World, server: S.Server, call: nat) {
    forall other :: other in w.calls && other != call ==> S.Keeps(w.server, server, w.calls[other].state.issued)
  }

  /** SubmitRaw has come to the loop that records. */
  predicate AtRecording(w: World, call: nat) {
    call in w.calls && w.calls[call].state.phase.Completed? && w.calls[call].request.withOutputs && !w.calls[call].recorded
  }

  ghost predicate Enabled(w: World, step: Step) {
    match step
    case Begin(c, request, _, _, _) => c !in w.calls && request.Valid()
    case Move(c, step) =>
      && c in w.calls && !step.Others? && S.Enabled(w.calls[c].state, step)
      && SparesOthers(w, S.Next(w.calls[c].state, step).server, c)
    case Record(c) => AtRecording(w, c) && W.Enabled(w.session, w.calls[c].Recording())
    case InSession(action) => !action.Record? && W.Enabled(w.session, action)
    case Others(server) => forall c :: c in w.calls ==> S.Keeps(w.server, server, w.calls[c].state.issued)
  }

  /** All calls see the same server. */
  function Seen(calls: map<nat, Call>, server: S.Server): map<nat, Call> {
    map c | c in calls :: calls[c].(state := calls[c].state.(server := server))
  }

  function Next(w: World, step: Step): World
    requires Enabled(w, step)
  {
    match step
    case Begin(c, request, chunkMax, limit, handler) =>
      w.(calls := w.calls[c := Call(request, chunkMax, limit, handler, w.server,
                                    S.Start(request, w.server, chunkMax, limit), false)])
    case Move(c, step) =>
      var moved := S.Next(w.calls[c].state, step);
      w.(server := moved.server, calls := Seen(w.calls, moved.server)[c := w.calls[c].(state := moved)])
    case Record(c) =>
      w.(session := W.Next(w.session, w.calls[c].Recording()), calls := w.calls[c := w.calls[c].(recorded := true)])
    case InSession(action) => w.(session := W.Next(w.session, action))
    case Others(server) => w.(server := server, calls := Seen(w.calls, server))
  }

  ghost predicate IsRun(w: World, steps: seq<Step>)
    decreases |steps|
  {
    steps == [] || (Enabled(w, steps[0]) && IsRun(Next(w, steps[0]), steps[1..]))
  }

  ghost function After(w: World, steps: seq<Step>): World
    requires IsRun(w, steps)
    decreases |steps|
  {
    if steps == [] then w else After(Next(w, steps[0]), steps[1..])
  }

  ghost predicate Reachable(server: S.Server, w: World) {
    exists steps :: IsRun(Init(server), steps) && After(Init(server), steps) == w
  }
}
