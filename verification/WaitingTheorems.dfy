/** What every interleaving of submissions, waits, cleanups and drops guarantees to the clients of a session. */
module WaitingTheorems {
  import opened Prelude
  import opened SessionMaps
  import opened SessionMapsProofs
  import opened ResultWaiting
  import opened WaitingGate
  import opened WaitingProofs
  import J = JoinSets

  // ---------- the maps ----------

  /**
   * Whenever the mutex is free, tasks and results are paired one to one, exactly the paired results have a
   * handler, and every result ever recorded is in the maps, was taken by one wait, or was removed.
   */
  lemma MapsStayConsistent(s: State)
    requires Reachable(s)
    ensures Consistent(s.maps)
    ensures s.recorded.Keys == s.maps.handlers.Keys + s.taken.Keys + s.removed
    ensures |s.recorded| == |s.maps.handlers| + |s.taken| + |s.removed|
    ensures forall r :: r in s.maps.handlers ==> s.recorded[r] == Entry(s.maps.tasks[r], s.maps.handlers[r])
  {
    ReachableInv(s);
    assert MapsOk(s);
    var live, taken, removed := s.maps.handlers.Keys, s.taken.Keys, s.removed;
    assert |live + taken + removed| == |live| + |taken| + |removed|;
    assert |s.recorded| == |s.recorded.Keys| && |s.maps.handlers| == |live| && |s.taken| == |taken|;
  }

  // ---------- callbacks ----------

  /** A callback goes to the handler recorded with its result, and names the task recorded with it. */
  ghost predicate Addressed(s: State, call: Callback) {
    call.result in s.recorded && s.recorded[call.result] == Entry(call.task, Some(call.handler))
  }

  lemma DueIsAnswer(s: State, r: Id)
    requires ClaimsOk(s)
    ensures Responses(Due(s, r)) <= 1
    ensures forall call :: call in Due(s, r) ==> call.result == r && Addressed(s, call)
  {
    hide Delivered, Responses;
    if Due(s, r) == [] {
      NoResponses();
    } else {
      var c := s.taken[r];
      var x, o := s.waiters[c].done[r].extract, s.waiters[c].done[r].outcome;
      assert ClaimOk(s, c, r, x);
      DeliveredExactly(x.handler, x.task, r, x.status, o);
      DeliveredAnswers(x.handler, x.task, r, x.status, o);
    }
  }

  lemma NoResponses()
    ensures Responses([]) == 0
  {
  }

  /**
   * The callbacks about a result are those of one delivery at most, that of the wait that took its handler;
   * a result is answered at most once, and its own handler is the only one to hear of it.
   */
  lemma AtMostOnce(s: State, r: Id)
    requires Reachable(s)
    ensures var calls := About(s.calls, r);
            && calls == Due(s, r) && Responses(calls) <= 1
            && forall call :: call in calls ==> call.result == r && Addressed(s, call)
  {
    ReachableInv(s);
    assert CallsOk(s) && ClaimsOk(s);
    assert About(s.calls, r) == Due(s, r);
    hide Inv, Reachable, About, Due, Responses;
    DueIsAnswer(s, r);
  }

  /**
   * Once the delivery that took a handler is over, the handler has been called exactly once precisely when the
   * result was completed, downloaded, and answered without a std::exception, or had failed and its task could
   * be looked up; and it has been answered precisely when the result was completed.
   */
  lemma CalledExactlyOnce(s: State, r: Id, c: nat)
    requires Reachable(s) && r in s.taken && s.taken[r] == c && c in s.waiters && r in s.waiters[c].done
    requires r in s.recorded && s.recorded[r].handler.Some?
    ensures var x, o := s.waiters[c].done[r].extract, s.waiters[c].done[r].outcome;
            && (|About(s.calls, r)| == 1 <==> OneCallback(x.status, s.recorded[r].task, o))
            && (Responses(About(s.calls, r)) == 1 <==> x.status.Completed? && !o.download.Odd?)
  {
    ReachableInv(s);
    assert CallsOk(s);
    var x, o := s.waiters[c].done[r].extract, s.waiters[c].done[r].outcome;
    assert ClaimOk(s, c, r, x);
    assert About(s.calls, r) == Due(s, r);
    hide Inv, About, Reachable, OneCallback;
    DeliveredExactly(x.handler, x.task, r, x.status, o);
    DeliveredAnswers(x.handler, x.task, r, x.status, o);
  }

  /** And what it hears, in order and with the reasons of errors, is what its listing and the outcome of its delivery call for. */
  lemma CalledAsTold(s: State, r: Id, c: nat)
    requires Reachable(s) && r in s.taken && s.taken[r] == c && c in s.waiters && r in s.waiters[c].done
    requires r in s.recorded && s.recorded[r].handler.Some?
    ensures Told(s.recorded[r].handler.value, s.recorded[r].task, r,
                 s.waiters[c].done[r].extract.status, s.waiters[c].done[r].outcome, About(s.calls, r))
  {
    ReachableInv(s);
    assert CallsOk(s);
    var x, o := s.waiters[c].done[r].extract, s.waiters[c].done[r].outcome;
    assert ClaimOk(s, c, r, x);
    assert About(s.calls, r) == Due(s, r);
    hide Inv, About, Reachable, Told;
    DeliveredAsTold(x.handler, x.task, r, x.status, o);
  }

  /** Nobody hears of a result before its handler is taken, nor after it was cleaned up or dropped. */
  lemma UntakenIsSilent(s: State, r: Id)
    requires Reachable(s) && r !in s.taken
    ensures About(s.calls, r) == []
  {
    ReachableInv(s);
    assert CallsOk(s);
  }

  // ---------- what a wait is for ----------

  /** A wait is for all results that have a handler, or for those of the tasks it is given. */
  lemma WaitsForAll(s: State, c: nat, tasks: set<Id>, any: bool, breakOnError: bool)
    requires Reachable(s) && Enabled(s, Wait(c, tasks, any, breakOnError))
    ensures var w := Next(s, Wait(c, tasks, any, breakOnError)).waiters[c];
            && (tasks == {} ==> w.initial == s.maps.handlers.Keys)
            && (tasks != {} ==> w.initial == set r | r in s.maps.tasks && s.maps.tasks[r] in tasks)
            && w.any == any && w.breakOnError == breakOnError
            && (w.phase.Returned? <==> w.initial == {}) && (w.phase.Listing? <==> w.initial != {})
  {
    ReachableInv(s);
    assert MapsOk(s);
    hide Inv, Reachable, WaitersOk, ClaimsOk, CallsOk;
    SnapshotIsPaired(s.maps, tasks);
    hide Snapshot;
  }

  /** It stays the same call. */
  ghost predicate SameCall(v: Waiter, w: Waiter) {
    w.initial == v.initial && w.any == v.any && w.breakOnError == v.breakOnError
  }

  lemma HeldCall(w: Waiter, join: J.Join, throws: bool)
    ensures SameCall(w, Held(w, join, throws))
  {
  }

  lemma SpreadCall(w: Waiter, join: J.Join)
    ensures SameCall(w, Spread(w, join))
  {
    hide Spawns, StatusIn;
  }

  lemma ResumedCall(w: Waiter, past: bool, join: J.Join)
    ensures SameCall(w, Resumed(w, past, join))
  {
    hide Breaks;
  }

  lemma ListingCall(w: Waiter)
    ensures SameCall(w, ListingPassed(w))
  {
    hide J.Waited, Spread, Held, SameCall;
    var (join, outcome) := J.Waited(w.gate.join, CLIENT, J.ForTasks);
    SpreadCall(w, join);
    HeldCall(w, join, outcome.Some?);
  }

  lemma RoundCall(w: Waiter, past: bool)
    ensures SameCall(w, RoundPassed(w, past))
  {
    hide J.Waited, Resumed, Held, SameCall;
    var (join, outcome) := J.Waited(w.gate.join, CLIENT, J.ForTasks);
    ResumedCall(w, past, join);
    HeldCall(w, join, outcome.Some?);
  }

  lemma UnwindCall(w: Waiter)
    ensures SameCall(w, Unwound(w))
  {
    hide J.Waited;
  }

  lemma DeliveryCall(w: Waiter, r: Id, e: Extraction, o: Outcome)
    ensures r in w.due && w.listings != [] ==> SameCall(w, TakenBy(w, r, e))
    ensures r in w.running ==> SameCall(w, FinishedBy(w, r, o))
  {
    hide DeliveryOf, J.ErrorRecorded;
  }

  lemma PassCall(s: State, step: Step)
    requires Enabled(s, step) && (step.PassListing? || step.EndRound? || step.Unwind?)
    ensures var c := step.waiter;
            && Next(s, step).waiters.Keys == s.waiters.Keys && SameCall(s.waiters[c], Next(s, step).waiters[c])
            && forall d :: d in s.waiters && d != c ==> Next(s, step).waiters[d] == s.waiters[d]
  {
    var w, c := s.waiters[step.waiter], step.waiter;
    hide SameCall, ListingPassed, RoundPassed, Unwound, Next, Enabled;
    if step.PassListing? {
      PassListingIs(s, c);
      ListingCall(w);
    } else if step.EndRound? {
      EndRoundIs(s, c, step.past);
      RoundCall(w, step.past);
    } else {
      UnwindIs(s, c);
      UnwindCall(w);
    }
  }

  lemma GateCall(s: State, step: Step, c: nat)
    requires Enabled(s, step) && AtGate(step) && c in s.waiters
    ensures c in Next(s, step).waiters && SameCall(s.waiters[c], Next(s, step).waiters[c])
  {
    hide Asked, Answered, AskFailed, AskEnded, DeliveryEnded;
  }

  lemma CallStays(s: State, step: Step, c: nat)
    requires Enabled(s, step) && c in s.waiters
    ensures c in Next(s, step).waiters && SameCall(s.waiters[c], Next(s, step).waiters[c])
  {
    if AtGate(step) {
      GateCall(s, step, c);
    } else if step.PassListing? || step.EndRound? || step.Unwind? {
      PassCall(s, step);
    } else if step.Take? {
      DeliveryCall(s.waiters[step.waiter], step.result, Extracted(s.maps, step.result), Outcome(Odd, Fine, Fine));
    } else if step.Finish? {
      DeliveryCall(s.waiters[step.waiter], step.result, Extraction(NO_MAPS, None, ""), step.outcome);
    }
    hide Recorded, Cleaned, Extracted, DeliveryOf, Snapshot, Entries, TakenBy, FinishedBy, WithGate, ListingPassed,
      RoundPassed, Unwound, NewWaiter, Fresh;
  }

  lemma {:induction false} CallRun(s: State, steps: seq<Step>, c: nat)
    requires IsRun(s, steps) && c in s.waiters
    ensures c in After(s, steps).waiters && SameCall(s.waiters[c], After(s, steps).waiters[c])
    decreases |steps|
  {
    hide Enabled, Next;
    if steps != [] {
      CallStays(s, steps[0], c);
      CallRun(Next(s, steps[0]), steps[1..], c);
    }
  }

  /**
   * A wait for everything that returns, and not because of `Any`, `BreakOnError` or its deadline, has delivered every
   * result that had a handler at its start, and no other.
   */
  lemma DrainsAll(s: State, c: nat, any: bool, breakOnError: bool, steps: seq<Step>)
    requires Reachable(s) && Enabled(s, Wait(c, {}, any, breakOnError))
    requires IsRun(Next(s, Wait(c, {}, any, breakOnError)), steps)
    ensures var t := After(Next(s, Wait(c, {}, any, breakOnError)), steps);
            && c in t.waiters
            && var w := t.waiters[c];
               w.phase.Returned? && !(any && w.done != map[]) && !(breakOnError && SawError(w)) && !w.past
               ==> w.done.Keys == s.maps.handlers.Keys
  {
    var step := Wait(c, {}, any, breakOnError);
    var t := After(Next(s, step), steps);
    WaitsForAll(s, c, {}, any, breakOnError);
    CallRun(Next(s, step), steps, c);
    ReachableOn(s, step, steps);
    hide Next, Enabled, IsRun, After, Reachable, SawError;
    if t.waiters[c].phase.Returned? {
      ReturnedForAReason(t, c);
    }
  }

  lemma ReachableOn(s: State, step: Step, steps: seq<Step>)
    requires Reachable(s) && Enabled(s, step) && IsRun(Next(s, step), steps)
    ensures Reachable(After(Next(s, step), steps))
  {
    hide Next, Enabled, IsRun, After;
    var before :| IsRun(START, before) && After(START, before) == s;
    OneBefore(s, step, steps);
    RunConcat(START, before, [step] + steps);
  }

  lemma OneBefore(s: State, step: Step, steps: seq<Step>)
    requires Enabled(s, step) && IsRun(Next(s, step), steps)
    ensures IsRun(s, [step] + steps) && After(s, [step] + steps) == After(Next(s, step), steps)
  {
    hide Next, Enabled;
    assert ([step] + steps)[1..] == steps;
  }

  lemma {:induction false} RunConcat(s: State, a: seq<Step>, b: seq<Step>)
    requires IsRun(s, a) && IsRun(After(s, a), b)
    ensures IsRun(s, a + b) && After(s, a + b) == After(After(s, a), b)
    decreases |a|
  {
    hide Enabled, Next;
    if a == [] {
      assert a + b == b;
    } else {
      RunConcat(Next(s, a[0]), a[1..], b);
      assert (a + b)[1..] == a[1..] + b;
    }
  }

  // ---------- the ways out of a wait ----------

  lemma ReachableWaiter(s: State, c: nat)
    requires Reachable(s) && c in s.waiters
    ensures WaiterOk(s.waiters[c])
  {
    hide Reachable, Inv, WaiterOk;
    ReachableInv(s);
    WaiterIn(s, c);
  }

  /**
   * The barrier behind the listing: the wait goes on to its deliveries when all requests are over and none has thrown,
   * it throws as soon as one has, and waits else.
   */
  lemma ListsExactly(s: State, c: nat)
    requires Reachable(s) && Enabled(s, PassListing(c))
    ensures var w, phase := s.waiters[c], Next(s, PassListing(c)).waiters[c].phase;
            phase == if w.gate.failed then Unwinding
                     else if forall k :: 0 <= k < |w.gate.asks| ==> w.gate.asks[k].Gone? then Delivering
                     else Listing
  {
    hide Reachable, DataOk, GateInv;
    ReachableWaiter(s, c);
    ListingPassesExactly(s.waiters[c]);
    hide J.Waited;
  }

  /** Some delivery of this round is not over, or its task object is still there. */
  predicate Unfinished(w: Waiter) {
    w.due != map[] || w.running != map[] || w.gate.ending != {}
  }

  /**
   * The barrier behind the deliveries: the wait throws as soon as an exception has escaped from one of them, it waits
   * while one of them is not over, and else returns if every result is delivered, `Any` has one delivered,
   * `BreakOnError` has seen an error, or time is up; if not it goes on.
   */
  lemma ReturnsExactly(s: State, c: nat, past: bool)
    requires Reachable(s) && Enabled(s, EndRound(c, past))
    ensures var w, phase := s.waiters[c], Next(s, EndRound(c, past)).waiters[c].phase;
            phase == if Escapes(w) then Unwinding
                     else if Unfinished(w) then Delivering
                     else if Reason(w, past) then Returned
                     else Listing
  {
    hide Reachable, Enabled, Next, WaiterOk, Escapes, Reason, Unfinished, RoundPassed;
    EndRoundIs(s, c, past);
    ReachableWaiter(s, c);
    RoundEndsExactly(s.waiters[c], past);
  }

  lemma RoundEndsExactly(w: Waiter, past: bool)
    requires WaiterOk(w) && w.phase.Delivering?
    ensures RoundPassed(w, past).phase == if Escapes(w) then Unwinding
                                          else if Unfinished(w) then Delivering
                                          else if Reason(w, past) then Returned
                                          else Listing
  {
    FlagsExactly(w);
    RoundPassesExactly(w);
    hide GateInv, Flags, Escapes, SawError, Reason, Resumed, Held, J.Waited;
    if !w.escaped && !Unfinished(w) {
      ResumesExactly(w, past, J.Waited(w.gate.join, CLIENT, J.ForTasks).0);
    }
    HeldPhase(w, J.Waited(w.gate.join, CLIENT, J.ForTasks).0);
  }

  lemma HeldPhase(w: Waiter, join: J.Join)
    ensures Held(w, join, true).phase.Unwinding? && Held(w, join, false).phase == w.phase
  {
  }

  lemma ResumesExactly(w: Waiter, past: bool, join: J.Join)
    requires DataOk(w) && !Unfinished(w)
    ensures Resumed(w, past, join).phase == if Reason(w, past) then Returned else Listing
  {
    Partition(w);
    FlagsExactly(w);
    hide Rounds, Busy, Parts, Flags, SawError;
  }

  /** The destructor lets the exception out exactly when all tasks are gone, and waits else. */
  lemma ThrowsExactly(s: State, c: nat)
    requires Reachable(s) && Enabled(s, Unwind(c))
    ensures Next(s, Unwind(c)).waiters[c].phase == if Quiet(s.waiters[c]) then Thrown else Unwinding
  {
    hide Reachable, DataOk, GateInv, Quiet;
    ReachableWaiter(s, c);
    UnwindPassesExactly(s.waiters[c]);
    hide J.Waited;
  }

  /**
   * A wait that throws does so because a request has thrown or an exception has escaped from a delivery; and however
   * it ends, nothing that it has spawned is left behind.
   */
  lemma EndsQuietly(s: State, c: nat)
    requires Reachable(s) && c in s.waiters
    ensures var w := s.waiters[c];
            && (w.phase.Thrown? ==> w.gate.failed || Escapes(w))
            && (w.phase.Returned? ==> !w.gate.failed && !Escapes(w))
            && (HasEnded(w) ==> Quiet(w) && w.gate.join.count == 0)
  {
    hide Reachable, Parts, Rounds, Busy;
    ReachableWaiter(s, c);
    QuietExactly(s.waiters[c]);
    FlagsExactly(s.waiters[c]);
    hide Tasks, Quiet, SleepersOk, Flags, Escapes;
  }

  /** An exception left one of the deliveries. */
  ghost predicate Escapes(w: Waiter) {
    exists r :: r in w.done && LetOut(w.done[r])
  }

  /** One of them noted an error. */
  ghost predicate SawError(w: Waiter) {
    exists r :: r in w.done && Noted(w.done[r])
  }

  predicate LetOut(report: Report) {
    LetsOut(report.extract.handler, report.extract.task, report.extract.status, report.outcome)
  }

  predicate Noted(report: Report) {
    NotesError(report.extract.handler, report.extract.task, report.extract.status, report.outcome)
  }

  lemma FlagsExactly(w: Waiter)
    requires Flags(w)
    ensures (w.escaped <==> Escapes(w)) && (w.hasError <==> SawError(w))
  {
    forall r | r in w.done
      ensures (DeliveryIn(w, r).escapes <==> LetOut(w.done[r])) && (DeliveryIn(w, r).error <==> Noted(w.done[r]))
    {
      var x := w.done[r].extract;
      DeliveredAsTold(x.handler, x.task, r, x.status, w.done[r].outcome);
      hide LetsOut, NotesError;
    }
    hide LetOut, Noted, DeliveryIn;
  }

  /** Why a wait may return. */
  ghost predicate Reason(w: Waiter, past: bool) {
    || w.done.Keys == w.initial
    || (w.any && w.done != map[])
    || (w.breakOnError && SawError(w))
    || past
  }

  lemma Partition(w: Waiter)
    requires Parts(w) && w.due == map[] && w.running == map[]
    ensures w.pending == {} <==> w.done.Keys == w.initial
    ensures |w.pending| < |w.initial| <==> w.done != map[]
  {
    var a, b := w.pending, w.done.Keys;
    assert a + b == w.initial && |a + b| == |a| + |b|;
    assert |w.done| == |b|;
  }

  /** A wait that has returned has drained its results, or `Any`, `BreakOnError` or the deadline told it to leave. */
  lemma ReturnedForAReason(s: State, c: nat)
    requires Reachable(s) && c in s.waiters && s.waiters[c].phase.Returned?
    ensures var w := s.waiters[c]; Reason(w, w.past)
  {
    hide Reachable, Parts, Rounds, Busy;
    ReachableWaiter(s, c);
    EndsQuietly(s, c);
    Partition(s.waiters[c]);
    FlagsExactly(s.waiters[c]);
    hide GateInv, Flags, SawError, Escapes;
  }

  /** Whatever a wait has delivered is in none of the maps any more; a drained wait leaves nothing of its results. */
  lemma DeliveredIsGone(s: State, c: nat)
    requires Reachable(s) && c in s.waiters
    ensures var w := s.waiters[c];
            && w.done.Keys !! s.maps.handlers.Keys && w.done.Keys !! s.maps.tasks.Keys
            && (forall t :: t in s.maps.results ==> s.maps.results[t] !in w.done)
            && (w.done.Keys == w.initial <==> w.pending == {} && w.due == map[] && w.running == map[])
  {
    ReachableInv(s);
    hide Reachable;
    DoneIsGone(s, c);
    ReachableWaiter(s, c);
    hide MapsOk, WaitersOk, ClaimsOk, CallsOk;
    DrainedExactly(s.waiters[c]);
  }

  lemma DoneIsGone(s: State, c: nat)
    requires MapsOk(s) && DoneClaims(s) && c in s.waiters
    ensures var done := s.waiters[c].done.Keys;
            && done !! s.maps.handlers.Keys && done !! s.maps.tasks.Keys
            && forall t :: t in s.maps.results ==> s.maps.results[t] !in done
  {
    var w := s.waiters[c];
    forall r | r in w.done ensures r !in s.maps.handlers {
      assert ClaimOk(s, c, r, w.done[r].extract);
    }
    hide DoneClaims;
    assert s.maps.handlers.Keys == s.maps.tasks.Keys;
  }

  lemma DrainedExactly(w: Waiter)
    requires WaiterOk(w)
    ensures w.done.Keys == w.initial <==> w.pending == {} && w.due == map[] && w.running == map[]
  {
    hide GateInv, Rounds, Busy, Flags, PhaseOk;
    if w.done.Keys == w.initial {
      assert w.due.Keys == {} && w.running.Keys == {};
    }
  }

  /** Every status acted on is what the server listed in that very round, after listing it as created in all before. */
  lemma StatusIsListed(s: State, c: nat, r: Id)
    requires Reachable(s) && c in s.waiters && r in s.waiters[c].done
    ensures var w := s.waiters[c];
            var x := w.done[r].extract;
            && x.round < |w.listings| && x.status == StatusIn(w.listings[x.round], r) && !x.status.Created?
            && forall k :: 0 <= k < x.round ==> StatusIn(w.listings[k], r).Created?
  {
    hide Reachable;
    ReachableWaiter(s, c);
  }

  /** A round in which the server reports none of the results as created is the last one. */
  lemma LastRound(s: State, c: nat, round: nat)
    requires Reachable(s) && c in s.waiters && round < |s.waiters[c].listings|
    requires forall r :: r in s.waiters[c].initial ==> !StatusIn(s.waiters[c].listings[round], r).Created?
    ensures |s.waiters[c].listings| == round + 1 && !s.waiters[c].phase.Listing? && s.waiters[c].pending == {}
  {
    hide Reachable;
    ReachableWaiter(s, c);
    var w := s.waiters[c];
    forall r: Id, n: nat | r in w.initial && round < n <= |w.listings| ensures !AllCreated(w, r, n) {
      assert !StatusIn(w.listings[round], r).Created?;
    }
    assert !Wanted(w, round + 1);
    assert |w.listings| == round + 1;
    assert Rounds(w) && Parts(w);
  }

  // ---------- progress ----------

  /** What a listing request still has to do: to return, and to be destroyed. */
  function AsksLeft(asks: seq<Ask>): nat {
    if asks == [] then 0
    else
      AsksLeft(asks[..|asks| - 1]) + (match asks[|asks| - 1] case Open(_) => 2 case Closed => 1 case Gone => 0)
  }

  /** What the spawned functions of a wait still have to do before its next barrier. */
  function Work(w: Waiter): nat {
    (if w.phase.Listing? then 3 * |w.gate.unasked| else 0)
    + AsksLeft(w.gate.asks) + 3 * |w.due.Keys| + 2 * |w.running.Keys| + |w.gate.ending|
  }

  lemma AsksLeftSnoc(asks: seq<Ask>, ids: set<Id>)
    ensures AsksLeft(asks + [Open(ids)]) == AsksLeft(asks) + 2
  {
    assert (asks + [Open(ids)])[..|asks|] == asks;
  }

  lemma {:induction false} AsksLeftUpdate(asks: seq<Ask>, k: nat, a: Ask)
    requires k < |asks| && !a.Open? && !asks[k].Gone? && (asks[k].Closed? ==> a.Gone?)
    ensures AsksLeft(asks[k := a]) < AsksLeft(asks)
  {
    var n := |asks| - 1;
    if k == n {
      assert asks[k := a][..n] == asks[..n];
    } else {
      AsksLeftUpdate(asks[..n], k, a);
      assert asks[k := a][..n] == asks[..n][k := a];
    }
  }

  lemma {:induction false} AsksAreOver(asks: seq<Ask>)
    ensures AsksLeft(asks) == 0 <==> forall k :: 0 <= k < |asks| ==> asks[k].Gone?
  {
    if asks != [] {
      AsksAreOver(asks[..|asks| - 1]);
    }
  }

  /** The steps of the functions that a wait spawns, and the spawning of requests. */
  predicate Helps(step: Step, c: nat) {
    (AtGate(step) || step.Take? || step.Finish?) && step.waiter == c
  }

  lemma Fewer(a: set<Id>, b: set<Id>)
    requires b != {} && b <= a
    ensures |a - b| < |a|
  {
    assert |a| == |a - b| + |b| by { assert (a - b) + b == a; }
    var x :| x in b;
    assert |b - {x}| == |b| - 1;
  }

  lemma AtMostOneMore(a: set<Id>, x: Id)
    ensures |a + {x}| <= |a| + 1
  {
  }

  lemma AskedLeavesLess(w: Waiter, ids: set<Id>)
    requires w.phase.Listing? && ids != {} && ids <= w.gate.unasked
    ensures Work(w.(gate := Asked(w.gate, ids))) < Work(w)
  {
    AsksLeftSnoc(w.gate.asks, ids);
    Fewer(w.gate.unasked, ids);
    hide AsksLeft;
  }

  /** A request gets on. */
  lemma AskLeavesLess(w: Waiter, gate: Gate, k: nat, a: Ask)
    requires k < |w.gate.asks| && !a.Open? && !w.gate.asks[k].Gone? && (w.gate.asks[k].Closed? ==> a.Gone?)
    requires gate.asks == w.gate.asks[k := a] && gate.unasked == w.gate.unasked && gate.ending == w.gate.ending
    ensures Work(w.(gate := gate)) < Work(w)
  {
    AsksLeftUpdate(w.gate.asks, k, a);
    hide AsksLeft;
  }

  lemma EndingLeavesLess(w: Waiter, r: Id)
    requires r in w.gate.ending && w.gate.join.count > 0
    ensures Work(w.(gate := DeliveryEnded(w.gate, r))) < Work(w)
  {
    Fewer(w.gate.ending, {r});
    hide AsksLeft, J.Decremented;
  }

  lemma GateLeavesLess(s: State, step: Step)
    requires Enabled(s, step) && AtGate(step)
    ensures Work(Next(s, step).waiters[step.waiter]) < Work(s.waiters[step.waiter])
  {
    var w := s.waiters[step.waiter];
    hide Work, J.Incremented, J.Decremented, J.ErrorRecorded;
    match step
    case Ask(_, ids) => AskedLeavesLess(w, ids);
    case Answer(_, k, answer) => AskLeavesLess(w, Answered(w.gate, k, answer), k, Closed);
    case AskFails(_, k) => AskLeavesLess(w, AskFailed(w.gate, k), k, Closed);
    case EndAsk(_, k) => AskLeavesLess(w, AskEnded(w.gate, k), k, Gone);
    case EndDelivery(_, r) => EndingLeavesLess(w, r);
  }

  lemma TakeLeavesLess(w: Waiter, r: Id, e: Extraction)
    requires r in w.due && w.listings != []
    ensures Work(TakenBy(w, r, e)) < Work(w)
  {
    hide AsksLeft;
    var v := TakenBy(w, r, e);
    assert v.due.Keys == w.due.Keys - {r} && v.running.Keys == w.running.Keys + {r};
    Fewer(w.due.Keys, {r});
    AtMostOneMore(w.running.Keys, r);
  }

  lemma FinishLeavesLess(w: Waiter, r: Id, o: Outcome)
    requires r in w.running
    ensures Work(FinishedBy(w, r, o)) < Work(w)
  {
    hide AsksLeft, DeliveryOf, J.ErrorRecorded;
    var v := FinishedBy(w, r, o);
    assert v.due == w.due && v.running.Keys == w.running.Keys - {r};
    Fewer(w.running.Keys, {r});
    AtMostOneMore(w.gate.ending, r);
  }

  /** Every step of a function that a wait has spawned leaves less to do before its barrier. */
  lemma StepsLeaveLess(s: State, step: Step, c: nat)
    requires Enabled(s, step) && Helps(step, c)
    ensures Work(Next(s, step).waiters[c]) < Work(s.waiters[c])
  {
    hide Work;
    match step
    case Take(_, r) =>
      TakeLeavesLess(s.waiters[c], r, Extracted(s.maps, r));
      hide Extracted, TakenBy;
    case Finish(_, r, o) =>
      FinishLeavesLess(s.waiters[c], r, o);
      hide FinishedBy, DeliveryOf;
    case _ => GateLeavesLess(s, step);
  }

  /** The pass that a client makes in its phase. */
  function PassOf(phase: Phase, c: nat): Step {
    match phase
    case Listing => PassListing(c)
    case Delivering => EndRound(c, false)
    case _ => Unwind(c)
  }

  /** It holds the lock, or has been notified. */
  predicate Awake(w: Waiter) {
    CLIENT in w.gate.join.waiters ==> w.gate.join.waiters[CLIENT].notified
  }

  /** The client may make this pass, and it takes it out of the phase it is in. */
  ghost predicate GoesThrough(s: State, pass: Step, c: nat)
    requires c in s.waiters
  {
    && Enabled(s, pass)
    && c in Next(s, pass).waiters && Next(s, pass).waiters[c].phase != s.waiters[c].phase
  }

  /**
   * A wait is never stuck: until it has ended, a function it has spawned can get on, or all have done so, and then the
   * client is awake and its next pass goes through the barrier.
   */
  lemma RoundsAreNotStuck(s: State, c: nat)
    requires Reachable(s) && c in s.waiters && !HasEnded(s.waiters[c])
    ensures var w := s.waiters[c];
            if Work(w) > 0 then exists step :: Helps(step, c) && Enabled(s, step)
            else Awake(w) && GoesThrough(s, PassOf(w.phase, c), c)
  {
    ReachableWaiter(s, c);
    hide Reachable, DataOk, GateInv, Work, GoesThrough, Awake;
    if Work(s.waiters[c]) > 0 {
      WorkCanBeDone(s, c);
    } else {
      NoWorkPasses(s, c);
    }
  }

  lemma WorkIsSome(w: Waiter)
    ensures Work(w) == 0 <==> Quiet(w) && (w.phase.Listing? ==> w.gate.unasked == {})
  {
    AsksAreOver(w.gate.asks);
    hide AsksLeft;
  }

  lemma WorkCanBeDone(s: State, c: nat)
    requires c in s.waiters && GateInv(s.waiters[c]) && !HasEnded(s.waiters[c]) && Work(s.waiters[c]) > 0
    ensures exists step :: Helps(step, c) && Enabled(s, step)
  {
    var w := s.waiters[c];
    WorkIsSome(w);
    hide Work;
    if w.phase.Listing? && w.gate.unasked != {} {
      assert Enabled(s, Ask(c, w.gate.unasked)) && Helps(Ask(c, w.gate.unasked), c);
    } else if k :| 0 <= k < |w.gate.asks| && !w.gate.asks[k].Gone? {
      AliveAsk(w, k);
      if w.gate.asks[k].Open? {
        assert Enabled(s, Answer(c, k, map[])) && Helps(Answer(c, k, map[]), c);
      } else {
        assert Enabled(s, EndAsk(c, k)) && Helps(EndAsk(c, k), c);
      }
    } else if r :| r in w.due {
      assert Enabled(s, Take(c, r)) && Helps(Take(c, r), c);
    } else if r :| r in w.running {
      var o := Outcome(Failing, Fine, Fine);
      assert Enabled(s, Finish(c, r, o)) && Helps(Finish(c, r, o), c);
    } else {
      var r :| r in w.gate.ending;
      assert Enabled(s, EndDelivery(c, r)) && Helps(EndDelivery(c, r), c);
    }
  }

  lemma NoWorkPasses(s: State, c: nat)
    requires c in s.waiters && GateInv(s.waiters[c]) && !HasEnded(s.waiters[c]) && Work(s.waiters[c]) == 0
    ensures Awake(s.waiters[c]) && GoesThrough(s, PassOf(s.waiters[c].phase, c), c)
  {
    var w := s.waiters[c];
    WorkIsSome(w);
    NoWorkIsReady(w);
    hide Work, GateInv, Awake, Quiet, ListingPassed, RoundPassed, Unwound, GoesThrough;
    if w.phase.Listing? {
      ListingGoesThrough(s, c);
    } else if w.phase.Delivering? {
      RoundGoesThrough(s, c);
    } else {
      UnwindingGoesThrough(s, c);
    }
  }

  lemma ListingGoesThrough(s: State, c: nat)
    requires c in s.waiters && s.waiters[c].phase.Listing? && s.waiters[c].gate.unasked == {}
    requires s.waiters[c].gate.join.count == 0
    ensures GoesThrough(s, PassListing(c), c)
  {
    PassListingIs(s, c);
    LeavesListing(s.waiters[c]);
    hide Next, ListingPassed;
  }

  lemma RoundGoesThrough(s: State, c: nat)
    requires c in s.waiters && s.waiters[c].phase.Delivering? && s.waiters[c].gate.join.count == 0
    ensures GoesThrough(s, EndRound(c, false), c)
  {
    EndRoundIs(s, c, false);
    LeavesRound(s.waiters[c]);
    hide Next, RoundPassed;
  }

  lemma UnwindingGoesThrough(s: State, c: nat)
    requires c in s.waiters && s.waiters[c].phase.Unwinding? && s.waiters[c].gate.join.count == 0
    ensures GoesThrough(s, Unwind(c), c)
  {
    UnwindIs(s, c);
    LeavesUnwinding(s.waiters[c]);
    hide Next, Unwound;
  }

  lemma NoWorkIsReady(w: Waiter)
    requires GateInv(w) && !HasEnded(w) && Work(w) == 0
    ensures Awake(w) && w.gate.join.count == 0
  {
    WorkIsSome(w);
    QuietExactly(w);
    hide Work, Tasks, Quiet;
  }

  lemma ReadyPasses(join: J.Join, kind: J.WaitKind)
    requires join.count == 0
    ensures J.Waited(join, CLIENT, kind).1.Some?
  {
  }

  lemma SpreadPhase(w: Waiter, join: J.Join)
    ensures Spread(w, join).phase.Delivering?
  {
    hide Spawns, StatusIn;
  }

  lemma ResumedPhase(w: Waiter, join: J.Join)
    ensures !Resumed(w, false, join).phase.Delivering?
  {
    hide Breaks;
  }

  lemma LeavesListing(w: Waiter)
    requires w.phase.Listing? && w.gate.join.count == 0
    ensures !ListingPassed(w).phase.Listing?
  {
    var (join, outcome) := J.Waited(w.gate.join, CLIENT, J.ForTasks);
    ReadyPasses(w.gate.join, J.ForTasks);
    hide J.Waited, Spread, Held;
    SpreadPhase(w, join);
    HeldPhase(w, join);
  }

  lemma LeavesRound(w: Waiter)
    requires w.phase.Delivering? && w.gate.join.count == 0
    ensures !RoundPassed(w, false).phase.Delivering?
  {
    var (join, outcome) := J.Waited(w.gate.join, CLIENT, J.ForTasks);
    ReadyPasses(w.gate.join, J.ForTasks);
    hide J.Waited, Resumed, Held;
    ResumedPhase(w, join);
    HeldPhase(w, join);
  }

  lemma LeavesUnwinding(w: Waiter)
    requires w.phase.Unwinding? && w.gate.join.count == 0
    ensures Unwound(w).phase.Thrown?
  {
    ReadyPasses(w.gate.join, J.ForDestruction);
    hide J.Waited;
  }
}
