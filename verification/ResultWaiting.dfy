/**
 * All interleavings of the clients of one session: submissions that record their results, waits with their rounds of
 * concurrent listing requests and deliveries, cleanups of tasks and drops of the session. What lets a wait past its two
 * barriers is its join set alone.
 */
module ResultWaiting {
  import opened Prelude
  import opened SessionMaps
  import J = JoinSets

  /** What a submission recorded for a result. */
  datatype Entry = Entry(task: Id, handler: Handler)

  /** A delivery between its critical section and its end. */
  datatype Extract = Extract(status: Status, round: nat, handler: Handler, task: Id)

  /** A delivery that is over. */
  datatype Report = Report(extract: Extract, outcome: Outcome)

  /** In `Unwinding` a barrier has thrown, and the destructor of the join set has yet to return. */
  datatype Phase = Listing | Delivering | Unwinding | Returned | Thrown

  /** A function that asks the server about some results; `Closed` has returned or thrown, `Gone` is destroyed. */
  datatype Ask = Open(ids: set<Id>) | Closed | Gone

  /**
   * The spawned functions and their join set: what is still to be asked in this round, the requests and what they have
   * heard, and the deliveries that are over but not destroyed. `failed` tells that a request threw.
   */
  datatype Gate = Gate(
    join: J.Join,
    unasked: set<Id>,
    asks: seq<Ask>,
    heard: map<Id, Status>,
    ending: set<Id>,
    failed: bool)

  /** A call of WaitResults; `past` says that its deadline had passed when the last round ended. */
  datatype Waiter = Waiter(
    initial: set<Id>,
    any: bool,
    breakOnError: bool,
    pending: set<Id>,
    due: map<Id, Status>,
    running: map<Id, Extract>,
    done: map<Id, Report>,
    listings: seq<map<Id, Status>>,
    hasError: bool,
    escaped: bool,
    past: bool,
    phase: Phase,
    gate: Gate)

  /** The thread that waits, as its join set knows it. */
  const CLIENT: nat := 0

  /** `taken` says which wait got the handler of a result; `removed` are results cleaned up or dropped. */
  datatype State = State(
    maps: Maps,
    recorded: map<Id, Entry>,
    taken: map<Id, nat>,
    removed: set<Id>,
    waiters: map<nat, Waiter>,
    calls: seq<Callback>)

  const START := State(NO_MAPS, map[], map[], {}, map[], [])

  datatype Step =
    | Record(results: seq<Id>, tasks: seq<Id>, handler: Handler)
    | Cleanup(cleaned: seq<Id>)
    | Drop
    | Wait(waiter: nat, of: set<Id>, any: bool, breakOnError: bool)
    | Ask(waiter: nat, ids: set<Id>)                          // a listing request is spawned
    | Answer(waiter: nat, ask: nat, answer: map<Id, Status>)
    | AskFails(waiter: nat, ask: nat)                         // it throws, which is recorded
    | EndAsk(waiter: nat, ask: nat)                           // the destructor of its task
    | PassListing(waiter: nat)                                // one pass of the first Wait; if it returns, the sweep
    | Take(waiter: nat, result: Id)                           // the critical section of a delivery
    | Finish(waiter: nat, result: Id, outcome: Outcome)
    | EndDelivery(waiter: nat, result: Id)                    // the destructor of its task
    | EndRound(waiter: nat, past: bool)                       // one pass of the second Wait; if it returns, the tests
    | Unwind(waiter: nat)                                     // one pass of the destructor of the join set

  /** The server issues new ids. */
  ghost predicate Fresh(recorded: map<Id, Entry>, results: seq<Id>, tasks: seq<Id>) {
    && |results| == |tasks|
    && (forall k :: 0 <= k < |results| ==> results[k] !in recorded)
    && (forall j, k :: 0 <= j < k < |results| ==> results[j] != results[k] && tasks[j] != tasks[k])
    && (forall k, r :: 0 <= k < |tasks| && r in recorded ==> recorded[r].task != tasks[k])
  }

  ghost predicate Enabled(s: State, step: Step) {
    match step
    case Record(results, tasks, _) => Fresh(s.recorded, results, tasks)
    case Cleanup(_) => true
    case Drop => true
    case Wait(c, _, _, _) => c !in s.waiters
    case Ask(c, ids) =>
      c in s.waiters && s.waiters[c].phase.Listing? && ids != {} && ids <= s.waiters[c].gate.unasked
    case Answer(c, k, _) => c in s.waiters && k < |s.waiters[c].gate.asks| && s.waiters[c].gate.asks[k].Open?
    case AskFails(c, k) => c in s.waiters && k < |s.waiters[c].gate.asks| && s.waiters[c].gate.asks[k].Open?
    case EndAsk(c, k) =>
      && c in s.waiters && k < |s.waiters[c].gate.asks| && s.waiters[c].gate.asks[k].Closed?
      && s.waiters[c].gate.join.count > 0
    case PassListing(c) => c in s.waiters && s.waiters[c].phase.Listing? && s.waiters[c].gate.unasked == {}
    case Take(c, r) => c in s.waiters && s.waiters[c].listings != [] && r in s.waiters[c].due
    case Finish(c, r, _) => c in s.waiters && r in s.waiters[c].running
    case EndDelivery(c, r) => c in s.waiters && r in s.waiters[c].gate.ending && s.waiters[c].gate.join.count > 0
    case EndRound(c, _) => c in s.waiters && s.waiters[c].phase.Delivering?
    case Unwind(c) => c in s.waiters && s.waiters[c].phase.Unwinding?
  }

  // ---------- the steps of a wait ----------

  /** The gate at the start of a round. */
  function NewGate(join: J.Join, pending: set<Id>): Gate {
    Gate(join, pending, [], map[], {}, false)
  }

  function NewWaiter(initial: set<Id>, any: bool, breakOnError: bool): Waiter {
    Waiter(initial, any, breakOnError, initial, map[], map[], map[], [], false, false, false,
           if initial == {} then Returned else Listing, NewGate(J.EmptyJoin(), initial))
  }

  // What a spawned listing request does to the gate.

  function Asked(g: Gate, ids: set<Id>): Gate {
    g.(join := J.Incremented(g.join), unasked := g.unasked - ids, asks := g.asks + [Open(ids)])
  }

  function Answered(g: Gate, k: nat, answer: map<Id, Status>): Gate
    requires k < |g.asks| && g.asks[k].Open?
  {
    g.(asks := g.asks[k := Closed], heard := g.heard + (map r | r in answer && r in g.asks[k].ids :: answer[r]))
  }

  function AskFailed(g: Gate, k: nat): Gate
    requires k < |g.asks|
  {
    g.(asks := g.asks[k := Closed], join := J.ErrorRecorded(g.join, k), failed := true)
  }

  function AskEnded(g: Gate, k: nat): Gate
    requires k < |g.asks| && g.join.count > 0
  {
    g.(asks := g.asks[k := Gone], join := J.Decremented(g.join))
  }

  function DeliveryEnded(g: Gate, r: Id): Gate
    requires g.join.count > 0
  {
    g.(ending := g.ending - {r}, join := J.Decremented(g.join))
  }

  /** `n` tasks more. */
  function Spawns(join: J.Join, n: nat): (j: J.Join)
    ensures j == join.(count := join.count + n)
  {
    if n == 0 then join else J.Incremented(Spawns(join, n - 1))
  }

  function Swept(w: Waiter, listing: map<Id, Status>): Waiter {
    w.(pending := (set r | r in w.pending && StatusIn(listing, r).Created?),
       due := (map r | r in w.pending && !StatusIn(listing, r).Created? :: StatusIn(listing, r)),
       listings := w.listings + [listing],
       phase := Delivering)
  }

  /** The sweep spawns a delivery for everything that is not created. */
  function Spread(w: Waiter, join: J.Join): Waiter {
    var v := Swept(w, w.gate.heard);
    v.(gate := NewGate(Spawns(join, |v.due.Keys|), {}))
  }

  /** A barrier that does not return sends the client to sleep, or throws. */
  function Held(w: Waiter, join: J.Join, throws: bool): Waiter {
    w.(gate := w.gate.(join := join), phase := if throws then Unwinding else w.phase)
  }

  /** One pass of the first barrier. */
  function ListingPassed(w: Waiter): Waiter {
    var (join, outcome) := J.Waited(w.gate.join, CLIENT, J.ForTasks);
    if outcome == Some(J.Returned) then Spread(w, join) else Held(w, join, outcome.Some?)
  }

  function TakenBy(w: Waiter, r: Id, e: Extraction): Waiter
    requires r in w.due && w.listings != []
  {
    w.(due := w.due - {r}, running := w.running[r := Extract(w.due[r], |w.listings| - 1, e.handler, e.task)])
  }

  function DeliveryOf(x: Extract, r: Id, o: Outcome): Delivery {
    Delivered(x.handler, x.task, r, x.status, o)
  }

  function FinishedBy(w: Waiter, r: Id, o: Outcome): Waiter
    requires r in w.running
  {
    var d := DeliveryOf(w.running[r], r, o);
    w.(running := w.running - {r}, done := w.done[r := Report(w.running[r], o)],
       hasError := w.hasError || d.error, escaped := w.escaped || d.escapes,
       gate := w.gate.(ending := w.gate.ending + {r},
                       join := if d.escapes then J.ErrorRecorded(w.gate.join, w.running[r].round) else w.gate.join))
  }

  /** Whether the loop is left at the end of a round although results may be pending. */
  predicate Breaks(w: Waiter) {
    (w.any && |w.pending| < |w.initial|) || (w.breakOnError && w.hasError) || w.past
  }

  function RoundEnded(w: Waiter, past: bool): Waiter {
    var v := w.(past := past);
    v.(phase := if Breaks(v) || v.pending == {} then Returned else Listing)
  }

  /** The tests at the end of a round, and the gate of the next one. */
  function Resumed(w: Waiter, past: bool, join: J.Join): Waiter {
    RoundEnded(w, past).(gate := NewGate(join, w.pending))
  }

  /** One pass of the second barrier. */
  function RoundPassed(w: Waiter, past: bool): Waiter {
    var (join, outcome) := J.Waited(w.gate.join, CLIENT, J.ForTasks);
    if outcome == Some(J.Returned) then Resumed(w, past, join) else Held(w, join, outcome.Some?)
  }

  function Unwound(w: Waiter): Waiter {
    var (join, outcome) := J.Waited(w.gate.join, CLIENT, J.ForDestruction);
    w.(gate := w.gate.(join := join), phase := if outcome.Some? then Thrown else w.phase)
  }

  /** What a submission hands over. */
  function Entries(results: seq<Id>, tasks: seq<Id>, handler: Handler): map<Id, Entry>
    requires |results| == |tasks| && forall j, k :: 0 <= j < k < |results| ==> results[j] != results[k]
  {
    map k | 0 <= k < |results| :: results[k] := Entry(tasks[k], handler)
  }

  function Next(s: State, step: Step): State
    requires Enabled(s, step)
  {
    match step
    case Record(results, tasks, handler) =>
      s.(maps := Recorded(s.maps, results, tasks, handler),
         recorded := s.recorded + Entries(results, tasks, handler))
    case Cleanup(tasks) =>
      var left := Cleaned(s.maps, tasks);
      s.(maps := left, removed := s.removed + (s.maps.handlers.Keys - left.handlers.Keys))
    case Drop => s.(maps := NO_MAPS, removed := s.removed + s.maps.handlers.Keys)
    case Wait(c, tasks, any, breakOnError) =>
      s.(waiters := s.waiters[c := NewWaiter(Snapshot(s.maps, tasks), any, breakOnError)])
    case Ask(c, ids) => WithGate(s, c, Asked(s.waiters[c].gate, ids))
    case Answer(c, k, answer) => WithGate(s, c, Answered(s.waiters[c].gate, k, answer))
    case AskFails(c, k) => WithGate(s, c, AskFailed(s.waiters[c].gate, k))
    case EndAsk(c, k) => WithGate(s, c, AskEnded(s.waiters[c].gate, k))
    case PassListing(c) => s.(waiters := s.waiters[c := ListingPassed(s.waiters[c])])
    case Take(c, r) =>
      var e := Extracted(s.maps, r);
      s.(maps := e.maps,
         taken := if r in s.maps.handlers then s.taken[r := c] else s.taken,
         waiters := s.waiters[c := TakenBy(s.waiters[c], r, e)])
    case Finish(c, r, o) =>
      s.(waiters := s.waiters[c := FinishedBy(s.waiters[c], r, o)],
         calls := s.calls + DeliveryOf(s.waiters[c].running[r], r, o).calls)
    case EndDelivery(c, r) => WithGate(s, c, DeliveryEnded(s.waiters[c].gate, r))
    case EndRound(c, past) => s.(waiters := s.waiters[c := RoundPassed(s.waiters[c], past)])
    case Unwind(c) => s.(waiters := s.waiters[c := Unwound(s.waiters[c])])
  }

  function WithGate(s: State, c: nat, gate: Gate): State
    requires c in s.waiters
  {
    s.(waiters := s.waiters[c := s.waiters[c].(gate := gate)])
  }

  ghost predicate IsRun(s: State, steps: seq<Step>)
    decreases |steps|
  {
    steps == [] || (Enabled(s, steps[0]) && IsRun(Next(s, steps[0]), steps[1..]))
  }

  ghost function After(s: State, steps: seq<Step>): State
    requires IsRun(s, steps)
    decreases |steps|
  {
    if steps == [] then s else After(Next(s, steps[0]), steps[1..])
  }

  ghost predicate Reachable(s: State) {
    exists steps :: IsRun(START, steps) && After(START, steps) == s
  }

  /** The callbacks that are about one result. */
  function About(calls: seq<Callback>, r: Id): seq<Callback> {
    if calls == [] then []
    else
      var last := calls[|calls| - 1];
      About(calls[..|calls| - 1], r) + (if last.result == r then [last] else [])
  }
}
