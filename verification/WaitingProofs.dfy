/** The invariant of a session under all interleavings of its clients. */
module WaitingProofs {
  import opened Prelude
  import opened SessionMaps
  import opened SessionMapsProofs
  import opened ResultWaiting
  import opened WaitingGate
  import J = JoinSets

  // ---------- the invariant ----------

  /** Every recorded result is in the maps, was taken by one wait, or was removed: exactly one of these. */
  ghost predicate MapsOk(s: State) {
    && Consistent(s.maps)
    && s.maps.handlers.Keys + s.taken.Keys + s.removed == s.recorded.Keys
    && s.maps.handlers.Keys !! s.taken.Keys && s.maps.handlers.Keys !! s.removed && s.taken.Keys !! s.removed
    && (forall r :: r in s.maps.handlers ==> s.recorded[r] == Entry(s.maps.tasks[r], s.maps.handlers[r]))
  }

  ghost predicate AllCreated(w: Waiter, r: Id, rounds: nat)
    requires rounds <= |w.listings|
  {
    forall k :: 0 <= k < rounds ==> StatusIn(w.listings[k], r).Created?
  }

  /** The round in which a result was first listed as anything but created, and as what. */
  ghost predicate Decided(w: Waiter, r: Id, status: Status, round: int) {
    0 <= round < |w.listings| && StatusIn(w.listings[round], r) == status && !status.Created? && AllCreated(w, r, round)
  }

  function DeliveryIn(w: Waiter, r: Id): Delivery
    requires r in w.done
  {
    DeliveryOf(w.done[r].extract, r, w.done[r].outcome)
  }

  ghost predicate Parts(w: Waiter) {
    && w.pending + w.due.Keys + w.running.Keys + w.done.Keys == w.initial
    && w.pending !! w.due.Keys && w.pending !! w.running.Keys && w.pending !! w.done.Keys
    && w.due.Keys !! w.running.Keys && w.due.Keys !! w.done.Keys && w.running.Keys !! w.done.Keys
  }

  ghost predicate Rounds(w: Waiter) {
    && (forall r :: r in w.pending ==> AllCreated(w, r, |w.listings|))
    && (forall r :: r in w.due ==> Decided(w, r, w.due[r], |w.listings| - 1))
    && (forall r :: r in w.running ==> Decided(w, r, w.running[r].status, w.running[r].round))
    && (forall r :: r in w.done ==> Decided(w, r, w.done[r].extract.status, w.done[r].extract.round))
  }

  ghost predicate Flags(w: Waiter) {
    && (w.hasError <==> exists r :: r in w.done && DeliveryIn(w, r).error)
    && (w.escaped <==> exists r :: r in w.done && DeliveryIn(w, r).escapes)
  }

  ghost predicate PhaseOk(w: Waiter) {
    && (w.phase.Listing? ==> w.pending != {} && !Breaks(w))
    && (w.phase.Returned? ==> w.pending == {} || Breaks(w))
    && w.gate.ending <= w.done.Keys
  }

  /** Every round was begun for some result that all rounds before it had listed as created. */
  ghost predicate Busy(w: Waiter) {
    forall j :: 0 <= j < |w.listings| ==> Wanted(w, j)
  }

  ghost predicate Wanted(w: Waiter, round: nat)
    requires round <= |w.listings|
  {
    exists r :: r in w.initial && AllCreated(w, r, round)
  }

  /** What a wait keeps of its results. */
  ghost predicate DataOk(w: Waiter) {
    Parts(w) && Rounds(w) && Busy(w) && Flags(w) && PhaseOk(w)
  }

  ghost predicate WaiterOk(w: Waiter) {
    DataOk(w) && GateInv(w)
  }

  /** What a delivery found: its result's handler and task if it was the one to take them, and nothing otherwise. */
  ghost predicate ClaimOk(s: State, c: nat, r: Id, x: Extract) {
    && r in s.recorded && r !in s.maps.handlers
    && if r in s.taken && s.taken[r] == c then Entry(x.task, x.handler) == s.recorded[r] else x.handler.None? && x.task == ""
  }

  ghost predicate RunningClaims(s: State) {
    forall c, r :: c in s.waiters && r in s.waiters[c].running ==> ClaimOk(s, c, r, s.waiters[c].running[r])
  }

  ghost predicate DoneClaims(s: State) {
    forall c, r :: c in s.waiters && r in s.waiters[c].done ==> ClaimOk(s, c, r, s.waiters[c].done[r].extract)
  }

  /** Whoever took a result delivers it, or has delivered it. */
  ghost predicate TakersDeliver(s: State) {
    forall r :: r in s.taken ==>
      s.taken[r] in s.waiters && (r in s.waiters[s.taken[r]].running || r in s.waiters[s.taken[r]].done)
  }

  ghost predicate ClaimsOk(s: State) {
    RunningClaims(s) && DoneClaims(s) && TakersDeliver(s)
  }

  /** The callbacks that there should have been about a result. */
  function Due(s: State, r: Id): seq<Callback> {
    if r in s.taken && s.taken[r] in s.waiters && r in s.waiters[s.taken[r]].done
    then DeliveryIn(s.waiters[s.taken[r]], r).calls
    else []
  }

  ghost predicate CallsOk(s: State) {
    forall r :: About(s.calls, r) == Due(s, r)
  }

  ghost predicate WaitersOk(s: State) {
    forall c :: c in s.waiters ==> WaiterOk(s.waiters[c]) && s.waiters[c].initial <= s.recorded.Keys
  }

  ghost predicate Inv(s: State) {
    MapsOk(s) && WaitersOk(s) && ClaimsOk(s) && CallsOk(s)
  }

  // ---------- the maps ----------

  lemma FreshIsNew(s: State, results: seq<Id>, tasks: seq<Id>)
    requires MapsOk(s) && Fresh(s.recorded, results, tasks)
    ensures New(s.maps, results, tasks)
  {
    assert s.maps.handlers.Keys == s.maps.tasks.Keys;
    assert forall t :: t in s.maps.results ==>
             var r := s.maps.results[t]; r in s.maps.handlers && r in s.recorded && s.recorded[r].task == t;
    forall k | 0 <= k < |results| ensures results[k] !in s.maps.tasks && tasks[k] !in s.maps.results {
      assert results[k] !in s.recorded.Keys;
    }
  }

  lemma EntriesAt(results: seq<Id>, tasks: seq<Id>, handler: Handler)
    requires |results| == |tasks| && forall j, k :: 0 <= j < k < |results| ==> results[j] != results[k]
    ensures var entries := Entries(results, tasks, handler);
            && (forall r :: r in entries <==> r in results)
            && forall k :: 0 <= k < |results| ==> entries[results[k]] == Entry(tasks[k], handler)
  {
  }

  lemma KeysAdded(m: Maps, n: Maps, results: seq<Id>, tasks: seq<Id>, handler: Handler, more: set<Id>)
    requires |results| == |tasks| && m.handlers.Keys == m.tasks.Keys && Added(m, n, results, tasks, handler)
    requires forall r :: r in more <==> r in results
    ensures n.handlers.Keys == m.handlers.Keys + more
  {
    assert n.handlers.Keys == n.tasks.Keys;
    forall r ensures r in n.tasks.Keys <==> r in m.tasks.Keys + more {
    }
  }

  lemma ValuesAdded(m: Maps, n: Maps, results: seq<Id>, tasks: seq<Id>, handler: Handler, r: Id)
    requires |results| == |tasks| && m.handlers.Keys == m.tasks.Keys && Added(m, n, results, tasks, handler)
    ensures r in m.handlers ==> r in n.handlers && r in n.tasks && n.handlers[r] == m.handlers[r] && n.tasks[r] == m.tasks[r]
    ensures forall k :: 0 <= k < |results| && results[k] == r ==>
              r in n.handlers && r in n.tasks && n.handlers[r] == handler && n.tasks[r] == tasks[k]
  {
  }

  lemma EntriesAdded(m: Maps, n: Maps, recorded: map<Id, Entry>, results: seq<Id>, tasks: seq<Id>, handler: Handler)
    requires Fresh(recorded, results, tasks) && m.handlers.Keys == m.tasks.Keys && m.handlers.Keys <= recorded.Keys
    requires Added(m, n, results, tasks, handler) && n.handlers.Keys == n.tasks.Keys
    requires forall r :: r in m.handlers ==> recorded[r] == Entry(m.tasks[r], m.handlers[r])
    ensures var entries := Entries(results, tasks, handler);
            && n.handlers.Keys == m.handlers.Keys + entries.Keys && entries.Keys !! recorded.Keys
            && forall r :: r in n.handlers ==> (recorded + entries)[r] == Entry(n.tasks[r], n.handlers[r])
  {
    var entries := Entries(results, tasks, handler);
    EntriesAt(results, tasks, handler);
    assert entries.Keys !! recorded.Keys;
    KeysAdded(m, n, results, tasks, handler, entries.Keys);
    hide Entries, Added, Fresh;
    forall r | r in n.handlers ensures (recorded + entries)[r] == Entry(n.tasks[r], n.handlers[r]) {
      ValuesAdded(m, n, results, tasks, handler, r);
      if r in results {
        var k :| 0 <= k < |results| && results[k] == r;
        assert entries[results[k]] == Entry(tasks[k], handler);
      }
    }
  }

  lemma SharesGrow(live: set<Id>, taken: set<Id>, removed: set<Id>, all: set<Id>, more: set<Id>)
    requires live + taken + removed == all && live !! taken && live !! removed && more !! all
    ensures live + more + taken + removed == all + more && live + more !! taken && live + more !! removed
    ensures forall r :: r in all && r !in live ==> r !in live + more
  {
  }

  lemma RecordMaps(s: State, t: State, results: seq<Id>, tasks: seq<Id>, handler: Handler)
    requires MapsOk(s) && Fresh(s.recorded, results, tasks)
    requires t.maps == Recorded(s.maps, results, tasks, handler) && t.taken == s.taken && t.removed == s.removed
    requires t.recorded == s.recorded + Entries(results, tasks, handler)
    ensures MapsOk(t) && forall r :: r in s.recorded && r !in s.maps.handlers ==> r !in t.maps.handlers
  {
    FreshIsNew(s, results, tasks);
    RecordedExactly(s.maps, results, tasks, handler);
    assert s.maps.handlers.Keys == s.maps.tasks.Keys && s.maps.handlers.Keys <= s.recorded.Keys;
    assert t.maps.handlers.Keys == t.maps.tasks.Keys;
    hide Recorded, Consistent, New, Fresh, Added, Entries;
    EntriesAdded(s.maps, t.maps, s.recorded, results, tasks, handler);
    var entries := Entries(results, tasks, handler);
    SharesGrow(s.maps.handlers.Keys, s.taken.Keys, s.removed, s.recorded.Keys, entries.Keys);
    assert t.recorded.Keys == s.recorded.Keys + entries.Keys;
  }

  /** Results leave the maps and are accounted for elsewhere. */
  lemma RemoveMaps(s: State, t: State, gone: set<Id>)
    requires MapsOk(s) && gone <= s.maps.handlers.Keys && t.maps == Without(s.maps, gone)
    requires t.recorded == s.recorded
    requires (t.removed == s.removed + gone && t.taken == s.taken)
          || (t.removed == s.removed && t.taken.Keys == s.taken.Keys + gone)
    ensures MapsOk(t) && t.maps.handlers.Keys == s.maps.handlers.Keys - gone
  {
    WithoutConsistent(s.maps, gone);
    assert t.maps.handlers.Keys == s.maps.handlers.Keys - gone;
    SharesMove(s.maps.handlers.Keys, s.taken.Keys, s.removed, gone);
    hide Consistent;
  }

  lemma SharesMove(live: set<Id>, taken: set<Id>, removed: set<Id>, gone: set<Id>)
    requires live !! taken && live !! removed && taken !! removed && gone <= live
    ensures live - gone + taken + (removed + gone) == live + taken + removed == live - gone + (taken + gone) + removed
    ensures live - gone !! taken + gone && live - gone !! removed + gone && taken !! removed + gone && taken + gone !! removed
  {
  }

  lemma CleanupMaps(s: State, tasks: seq<Id>)
    requires MapsOk(s)
    ensures var t := Next(s, Cleanup(tasks));
            MapsOk(t) && t.maps.handlers.Keys <= s.maps.handlers.Keys
  {
    CleanedExactly(s.maps, tasks);
    var gone := ResultsOf(s.maps, set t | t in tasks);
    assert gone <= s.maps.handlers.Keys;
    var t := Next(s, Cleanup(tasks));
    assert s.maps.handlers.Keys - t.maps.handlers.Keys == gone;
    hide MapsOk, Cleaned;
    RemoveMaps(s, t, gone);
  }

  lemma DropMaps(s: State)
    requires MapsOk(s)
    ensures MapsOk(Next(s, Drop))
  {
  }

  lemma TakeMaps(s: State, c: nat, r: Id)
    requires MapsOk(s) && Enabled(s, Take(c, r)) && s.waiters[c].initial <= s.recorded.Keys
    ensures var t := Next(s, Take(c, r));
            MapsOk(t) && t.maps.handlers.Keys == s.maps.handlers.Keys - {r}
  {
    ExtractedExactly(s.maps, r);
    var t := Next(s, Take(c, r));
    if r in s.maps.handlers {
      RemoveMaps(s, t, {r});
    }
  }

  // ---------- a single wait ----------

  lemma NewOk(initial: set<Id>, any: bool, breakOnError: bool)
    ensures WaiterOk(NewWaiter(initial, any, breakOnError))
  {
    NewGateOk(initial, any, breakOnError);
    hide GateInv;
  }

  lemma DecidedStays(w: Waiter, v: Waiter, r: Id, status: Status, round: int)
    requires Decided(w, r, status, round) && |w.listings| <= |v.listings| && v.listings[..|w.listings|] == w.listings
    ensures Decided(v, r, status, round)
  {
    assert forall k :: 0 <= k < |w.listings| ==> v.listings[k] == v.listings[..|w.listings|][k];
  }

  lemma SweptParts(w: Waiter, listing: map<Id, Status>)
    requires Parts(w) && w.due == map[] && w.running == map[]
    ensures Parts(Swept(w, listing))
  {
    var v := Swept(w, listing);
    assert v.pending + v.due.Keys == w.pending;
  }

  lemma SweptRounds(w: Waiter, listing: map<Id, Status>)
    requires Rounds(w) && w.due == map[] && w.running == map[]
    ensures Rounds(Swept(w, listing))
  {
    var v := Swept(w, listing);
    var n := |w.listings|;
    assert v.listings[n] == listing && v.listings[..n] == w.listings;
    forall r | r in v.done ensures Decided(v, r, v.done[r].extract.status, v.done[r].extract.round) {
      DecidedStays(w, v, r, w.done[r].extract.status, w.done[r].extract.round);
    }
    forall r | r in w.pending ensures AllCreated(v, r, n) {
      assert AllCreated(w, r, n);
      assert forall k :: 0 <= k < n ==> v.listings[k] == w.listings[k];
    }
  }

  lemma SweptBusy(w: Waiter, listing: map<Id, Status>)
    requires Busy(w) && Rounds(w) && w.pending != {} && w.pending <= w.initial
    ensures Busy(Swept(w, listing))
  {
    var v := Swept(w, listing);
    var n := |w.listings|;
    assert forall k :: 0 <= k < n ==> v.listings[k] == w.listings[k];
    forall j | 0 <= j < |v.listings| ensures Wanted(v, j) {
      if j < n {
        assert Wanted(w, j);
        var r :| r in w.initial && AllCreated(w, r, j);
        assert AllCreated(v, r, j);
      } else {
        var r :| r in w.pending;
        assert AllCreated(w, r, n) && AllCreated(v, r, n);
      }
    }
  }

  lemma BusyStays(w: Waiter, v: Waiter)
    requires Busy(w) && v.listings == w.listings && v.initial == w.initial
    ensures Busy(v)
  {
    forall j | 0 <= j < |v.listings| ensures Wanted(v, j) {
      assert Wanted(w, j);
      var r :| r in w.initial && AllCreated(w, r, j);
      assert AllCreated(v, r, j);
    }
  }

  lemma PendingIsInitial(w: Waiter)
    requires Parts(w)
    ensures w.pending <= w.initial
  {
  }

  lemma SweptOk(w: Waiter, listing: map<Id, Status>)
    requires DataOk(w) && w.phase.Listing? && w.due == map[] && w.running == map[]
    ensures DataOk(Swept(w, listing))
  {
    hide Parts, Rounds, Busy, Flags;
    PendingIsInitial(w);
    SweptParts(w, listing);
    SweptBusy(w, listing);
    SweptRounds(w, listing);
    SameFlags(w, Swept(w, listing));
  }

  /** The results are where they were. */
  ghost predicate SameResults(w: Waiter, v: Waiter) {
    && v.initial == w.initial && v.any == w.any && v.breakOnError == w.breakOnError
    && v.pending == w.pending && v.due == w.due && v.running == w.running && v.done == w.done
    && v.listings == w.listings && v.hasError == w.hasError && v.escaped == w.escaped && v.past == w.past
  }

  /** The gate and the phase have changed, the results have not. */
  lemma SameData(w: Waiter, v: Waiter)
    requires DataOk(w) && SameResults(w, v) && v.gate.ending <= w.done.Keys
    requires v.phase == w.phase || v.phase.Unwinding? || v.phase.Thrown?
    ensures DataOk(v)
  {
    hide Parts, Rounds, Busy, Flags;
    SameParts(w, v);
    RoundsStay(w, v);
    BusyStays(w, v);
    SameFlags(w, v);
  }

  lemma HeldOk(w: Waiter, join: J.Join, throws: bool)
    requires DataOk(w)
    ensures DataOk(Held(w, join, throws))
  {
    EndingIsDone(w);
    hide DataOk;
    SameData(w, Held(w, join, throws));
  }

  lemma SpreadOk(w: Waiter, join: J.Join)
    requires DataOk(w) && w.phase.Listing? && w.due == map[] && w.running == map[]
    ensures DataOk(Spread(w, join))
  {
    hide DataOk, Swept;
    SweptOk(w, w.gate.heard);
    SameData(Swept(w, w.gate.heard), Spread(w, join));
  }

  lemma ListingPassedOk(w: Waiter)
    requires WaiterOk(w) && w.phase.Listing?
    ensures WaiterOk(ListingPassed(w))
  {
    ListingPassedGate(w);
    assert w.due == map[] && w.running == map[];
    hide GateInv, DataOk, Spread, Held, J.Waited;
    var (join, outcome) := J.Waited(w.gate.join, CLIENT, J.ForTasks);
    if outcome == Some(J.Returned) {
      SpreadOk(w, join);
    } else {
      HeldOk(w, join, outcome.Some?);
    }
  }

  lemma EndingIsDone(w: Waiter)
    requires DataOk(w)
    ensures w.gate.ending <= w.done.Keys
  {
  }

  lemma SameParts(w: Waiter, v: Waiter)
    requires Parts(w) && v.initial == w.initial && v.pending == w.pending
    requires v.due == w.due && v.running == w.running && v.done == w.done
    ensures Parts(v)
  {
  }

  lemma SameFlags(w: Waiter, v: Waiter)
    requires Flags(w) && v.done == w.done && v.hasError == w.hasError && v.escaped == w.escaped
    ensures Flags(v)
  {
    assert forall r :: r in w.done ==> DeliveryIn(v, r) == DeliveryIn(w, r);
    if w.hasError {
      var r :| r in w.done && DeliveryIn(w, r).error;
      assert DeliveryIn(v, r).error;
    }
    if w.escaped {
      var r :| r in w.done && DeliveryIn(w, r).escapes;
      assert DeliveryIn(v, r).escapes;
    }
  }

  lemma TakenParts(w: Waiter, r: Id, e: Extraction)
    requires Parts(w) && r in w.due && w.listings != []
    ensures Parts(TakenBy(w, r, e))
  {
    var v := TakenBy(w, r, e);
    assert v.due.Keys == w.due.Keys - {r} && v.running.Keys == w.running.Keys + {r};
  }

  lemma TakenRounds(w: Waiter, r: Id, e: Extraction)
    requires Rounds(w) && r in w.due && w.listings != []
    ensures Rounds(TakenBy(w, r, e))
  {
    SameRounds(w, TakenBy(w, r, e));
    hide Decided, AllCreated;
    assert Decided(w, r, w.due[r], |w.listings| - 1);
  }

  lemma NotRunning(w: Waiter, r: Id)
    requires Parts(w)
    ensures r in w.due ==> r in w.initial && r !in w.running && r !in w.done
    ensures r in w.running ==> r in w.initial && r !in w.done
  {
  }

  lemma TakenByOk(w: Waiter, r: Id, e: Extraction)
    requires WaiterOk(w) && r in w.due && w.listings != []
    ensures WaiterOk(TakenBy(w, r, e))
  {
    NotRunning(w, r);
    TakenGate(w, r, e);
    assert !w.phase.Listing? && !w.phase.Returned? by { DueIsAlive(w, r); }
    hide Parts, Rounds, Busy, Flags, GateInv;
    SameFlags(w, TakenBy(w, r, e));
    BusyStays(w, TakenBy(w, r, e));
    TakenParts(w, r, e);
    TakenRounds(w, r, e);
  }

  /** With a delivery left, a wait has not ended. */
  lemma DueIsAlive(w: Waiter, r: Id)
    requires GateInv(w) && (r in w.due || r in w.running)
    ensures w.phase.Delivering? || w.phase.Unwinding?
  {
    QuietExactly(w);
    hide Tasks;
  }

  /** With the same listings, the same results are decided. */
  lemma SameRounds(w: Waiter, v: Waiter)
    requires v.listings == w.listings
    ensures forall r, status, round :: Decided(w, r, status, round) ==> Decided(v, r, status, round)
    ensures forall r :: AllCreated(w, r, |w.listings|) ==> AllCreated(v, r, |v.listings|)
  {
  }

  lemma FinishedFlags(w: Waiter, r: Id, o: Outcome)
    requires Flags(w) && r in w.running && r !in w.done
    ensures Flags(FinishedBy(w, r, o))
  {
    hide Delivered;
    var v := FinishedBy(w, r, o);
    assert DeliveryIn(v, r) == DeliveryOf(w.running[r], r, o);
    assert forall q :: q in w.done ==> q != r && DeliveryIn(v, q) == DeliveryIn(w, q);
    if w.hasError {
      var q :| q in w.done && DeliveryIn(w, q).error;
      assert DeliveryIn(v, q).error;
    }
    if w.escaped {
      var q :| q in w.done && DeliveryIn(w, q).escapes;
      assert DeliveryIn(v, q).escapes;
    }
  }

  lemma FinishedParts(w: Waiter, r: Id, o: Outcome)
    requires Parts(w) && r in w.running
    ensures Parts(FinishedBy(w, r, o)) && r !in w.done
  {
    hide DeliveryOf;
    var v := FinishedBy(w, r, o);
    assert v.running.Keys == w.running.Keys - {r} && v.done.Keys == w.done.Keys + {r};
  }

  lemma FinishedRounds(w: Waiter, r: Id, o: Outcome)
    requires Rounds(w) && r in w.running
    ensures Rounds(FinishedBy(w, r, o))
  {
    SameRounds(w, FinishedBy(w, r, o));
    hide Decided, AllCreated, DeliveryOf;
  }

  lemma FinishedByOk(w: Waiter, r: Id, o: Outcome)
    requires WaiterOk(w) && r in w.running
    ensures WaiterOk(FinishedBy(w, r, o))
  {
    NotRunning(w, r);
    FinishedGate(w, r, o);
    DueIsAlive(w, r);
    hide Parts, Rounds, Busy, Flags, DeliveryOf, GateInv;
    FinishedParts(w, r, o);
    FinishedRounds(w, r, o);
    BusyStays(w, FinishedBy(w, r, o));
    FinishedFlags(w, r, o);
  }

  lemma RoundsStay(w: Waiter, v: Waiter)
    requires Rounds(w) && v.listings == w.listings && v.pending == w.pending
    requires v.due == w.due && v.running == w.running && v.done == w.done
    ensures Rounds(v)
  {
    SameRounds(w, v);
    hide Decided, AllCreated;
  }

  lemma RoundEndedOk(w: Waiter, past: bool)
    requires DataOk(w)
    ensures DataOk(RoundEnded(w, past))
  {
    hide Parts, Rounds, Busy, Flags;
    SameParts(w, RoundEnded(w, past));
    RoundsStay(w, RoundEnded(w, past));
    BusyStays(w, RoundEnded(w, past));
    SameFlags(w, RoundEnded(w, past));
  }

  lemma ResumedOk(w: Waiter, past: bool, join: J.Join)
    requires DataOk(w)
    ensures DataOk(Resumed(w, past, join))
  {
    hide DataOk;
    RoundEndedOk(w, past);
    SameData(RoundEnded(w, past), Resumed(w, past, join));
  }

  lemma RoundPassedOk(w: Waiter, past: bool)
    requires WaiterOk(w) && w.phase.Delivering?
    ensures WaiterOk(RoundPassed(w, past))
  {
    RoundPassedGate(w, past);
    hide GateInv, DataOk, Resumed, Held, J.Waited;
    var (join, outcome) := J.Waited(w.gate.join, CLIENT, J.ForTasks);
    if outcome == Some(J.Returned) {
      ResumedOk(w, past, join);
    } else {
      HeldOk(w, join, outcome.Some?);
    }
  }

  lemma UnwoundOk(w: Waiter)
    requires WaiterOk(w) && w.phase.Unwinding?
    ensures WaiterOk(Unwound(w))
  {
    UnwoundGate(w);
    EndingIsDone(w);
    hide GateInv, DataOk, J.Waited;
    SameData(w, Unwound(w));
  }

  // ---------- what deliveries claim ----------

  /** Steps that start no delivery and end none. */
  lemma SameClaims(s: State, t: State)
    requires ClaimsOk(s) && t.taken == s.taken
    requires s.waiters.Keys <= t.waiters.Keys
    requires forall c :: c in s.waiters ==> t.waiters[c].running == s.waiters[c].running && t.waiters[c].done == s.waiters[c].done
    requires forall c :: c in t.waiters && c !in s.waiters ==> t.waiters[c].running == map[] && t.waiters[c].done == map[]
    requires forall r :: r in s.recorded ==> r in t.recorded && t.recorded[r] == s.recorded[r]
    requires forall r :: r in s.recorded && r !in s.maps.handlers ==> r !in t.maps.handlers
    ensures ClaimsOk(t)
  {
    forall c, r, x | ClaimOk(s, c, r, x) ensures ClaimOk(t, c, r, x) {
    }
    hide ClaimOk;
    assert RunningClaims(t);
    assert DoneClaims(t) by { hide RunningClaims; }
  }

  /** A take of `r` by `c` leaves the claims of all other deliveries alone. */
  lemma ClaimSurvives(s: State, t: State, c: nat, r: Id, d: nat, q: Id, x: Extract)
    requires ClaimOk(s, d, q, x) && (d != c || q != r)
    requires t.recorded == s.recorded && t.maps.handlers.Keys == s.maps.handlers.Keys - {r}
    requires t.taken == if r in s.maps.handlers then s.taken[r := c] else s.taken
    ensures ClaimOk(t, d, q, x)
  {
  }

  lemma TakenClaim(s: State, t: State, c: nat, r: Id)
    requires MapsOk(s) && ClaimsOk(s) && Enabled(s, Take(c, r)) && t == Next(s, Take(c, r))
    requires r in s.recorded && r !in s.waiters[c].running && r !in s.waiters[c].done
    ensures ClaimOk(t, c, r, t.waiters[c].running[r])
  {
    ExtractedExactly(s.maps, r);
    hide Extracted, ClaimOk;
    assert r in s.taken ==> s.taken[r] != c;
    assert r in s.maps.handlers ==> s.recorded[r] == Entry(s.maps.tasks[r], s.maps.handlers[r]);
    TakenFacts(s, t, c, r);
  }

  lemma TakenFacts(s: State, t: State, c: nat, r: Id)
    requires Enabled(s, Take(c, r)) && t == Next(s, Take(c, r))
    requires r in s.recorded && (r in s.taken ==> s.taken[r] != c)
    requires Extracted(s.maps, r).maps.handlers.Keys == s.maps.handlers.Keys - {r}
    requires var e := Extracted(s.maps, r);
             if r in s.maps.handlers then Entry(e.task, e.handler) == s.recorded[r] else e.handler.None? && e.task == ""
    ensures ClaimOk(t, c, r, t.waiters[c].running[r])
  {
    hide Extracted;
  }

  /** What a take does, field by field. */
  lemma TakeIs(s: State, t: State, c: nat, r: Id)
    requires Enabled(s, Take(c, r)) && t == Next(s, Take(c, r))
    ensures c in s.waiters && t.waiters.Keys == s.waiters.Keys && t.recorded == s.recorded && t.calls == s.calls
    ensures t.taken == if r in s.maps.handlers then s.taken[r := c] else s.taken
    ensures forall d :: d in s.waiters ==>
              && t.waiters[d].done == s.waiters[d].done
              && (d != c ==> t.waiters[d].running == s.waiters[d].running)
    ensures t.waiters[c].running.Keys == s.waiters[c].running.Keys + {r}
    ensures forall q :: q in s.waiters[c].running && q != r ==> t.waiters[c].running[q] == s.waiters[c].running[q]
  {
    hide Extracted;
  }

  lemma TakeClaims(s: State, t: State, c: nat, r: Id)
    requires MapsOk(s) && ClaimsOk(s) && Enabled(s, Take(c, r)) && t == Next(s, Take(c, r))
    requires r in s.recorded && r !in s.waiters[c].running && r !in s.waiters[c].done
    requires t.maps.handlers.Keys == s.maps.handlers.Keys - {r}
    ensures ClaimsOk(t)
  {
    TakenClaim(s, t, c, r);
    TakeIs(s, t, c, r);
    hide MapsOk, ClaimOk, Next, Enabled;
    TakeRunning(s, t, c, r);
    TakeDone(s, t, c, r);
    TakeTakers(s, t, c, r);
    hide RunningClaims, DoneClaims, TakersDeliver;
  }

  lemma TakeRunning(s: State, t: State, c: nat, r: Id)
    requires RunningClaims(s) && c in s.waiters && t.waiters.Keys == s.waiters.Keys
    requires forall d :: d in s.waiters && d != c ==> t.waiters[d].running == s.waiters[d].running
    requires t.waiters[c].running.Keys == s.waiters[c].running.Keys + {r} && ClaimOk(t, c, r, t.waiters[c].running[r])
    requires forall q :: q in s.waiters[c].running && q != r ==> t.waiters[c].running[q] == s.waiters[c].running[q]
    requires t.recorded == s.recorded && t.maps.handlers.Keys == s.maps.handlers.Keys - {r}
    requires t.taken == if r in s.maps.handlers then s.taken[r := c] else s.taken
    ensures RunningClaims(t)
  {
    hide ClaimOk;
    forall d, q | d in t.waiters && q in t.waiters[d].running ensures ClaimOk(t, d, q, t.waiters[d].running[q]) {
      if d != c || q != r {
        ClaimSurvives(s, t, c, r, d, q, s.waiters[d].running[q]);
      }
    }
  }

  lemma TakeDone(s: State, t: State, c: nat, r: Id)
    requires DoneClaims(s) && c in s.waiters && r !in s.waiters[c].done && t.waiters.Keys == s.waiters.Keys
    requires forall d :: d in s.waiters ==> t.waiters[d].done == s.waiters[d].done
    requires t.recorded == s.recorded && t.maps.handlers.Keys == s.maps.handlers.Keys - {r}
    requires t.taken == if r in s.maps.handlers then s.taken[r := c] else s.taken
    ensures DoneClaims(t)
  {
    hide ClaimOk;
    forall d, q | d in t.waiters && q in t.waiters[d].done ensures ClaimOk(t, d, q, t.waiters[d].done[q].extract) {
      ClaimSurvives(s, t, c, r, d, q, s.waiters[d].done[q].extract);
    }
  }

  lemma TakeTakers(s: State, t: State, c: nat, r: Id)
    requires TakersDeliver(s) && c in s.waiters && t.waiters.Keys == s.waiters.Keys
    requires forall d :: d in s.waiters ==>
               && t.waiters[d].done == s.waiters[d].done
               && (d != c ==> t.waiters[d].running == s.waiters[d].running)
    requires t.waiters[c].running.Keys == s.waiters[c].running.Keys + {r}
    requires t.taken == if r in s.maps.handlers then s.taken[r := c] else s.taken
    ensures TakersDeliver(t)
  {
    forall q | q in t.taken
      ensures t.taken[q] in t.waiters && (q in t.waiters[t.taken[q]].running || q in t.waiters[t.taken[q]].done) {
      if q != r || r !in s.maps.handlers {
        assert q in s.taken;
      }
    }
  }

  /** What the end of a delivery does, field by field. */
  lemma FinishIs(s: State, t: State, c: nat, r: Id, o: Outcome)
    requires Enabled(s, Finish(c, r, o)) && t == Next(s, Finish(c, r, o))
    ensures c in s.waiters && r in s.waiters[c].running
    ensures t.recorded == s.recorded && t.maps == s.maps && t.taken == s.taken && t.removed == s.removed
    ensures t.waiters == s.waiters[c := FinishedBy(s.waiters[c], r, o)]
    ensures t.waiters[c].initial == s.waiters[c].initial && t.waiters[c].running == s.waiters[c].running - {r}
    ensures t.waiters[c].done == s.waiters[c].done[r := Report(s.waiters[c].running[r], o)]
  {
    hide DeliveryOf;
  }

  lemma FinishClaims(s: State, t: State, c: nat, r: Id, o: Outcome)
    requires ClaimsOk(s) && Enabled(s, Finish(c, r, o)) && t == Next(s, Finish(c, r, o))
    ensures ClaimsOk(t)
  {
    FinishIs(s, t, c, r, o);
    hide Next, Enabled, RunningClaims, DoneClaims, TakersDeliver;
    FinishRunning(s, t, c, r);
    FinishDone(s, t, c, r, o);
    FinishTakers(s, t, c, r);
  }

  lemma FinishRunning(s: State, t: State, c: nat, r: Id)
    requires RunningClaims(s) && c in s.waiters && t.waiters.Keys == s.waiters.Keys
    requires t.recorded == s.recorded && t.maps == s.maps && t.taken == s.taken
    requires forall d :: d in s.waiters && d != c ==> t.waiters[d] == s.waiters[d]
    requires t.waiters[c].running == s.waiters[c].running - {r}
    ensures RunningClaims(t)
  {
    forall d, q | d in t.waiters && q in t.waiters[d].running ensures ClaimOk(t, d, q, t.waiters[d].running[q]) {
      assert ClaimOk(s, d, q, s.waiters[d].running[q]);
    }
  }

  lemma FinishDone(s: State, t: State, c: nat, r: Id, o: Outcome)
    requires RunningClaims(s) && DoneClaims(s) && c in s.waiters && r in s.waiters[c].running
    requires t.waiters.Keys == s.waiters.Keys && t.recorded == s.recorded && t.maps == s.maps && t.taken == s.taken
    requires forall d :: d in s.waiters && d != c ==> t.waiters[d] == s.waiters[d]
    requires t.waiters[c].done == s.waiters[c].done[r := Report(s.waiters[c].running[r], o)]
    ensures DoneClaims(t)
  {
    assert ClaimOk(s, c, r, s.waiters[c].running[r]);
    hide RunningClaims;
    forall d, q | d in t.waiters && q in t.waiters[d].done ensures ClaimOk(t, d, q, t.waiters[d].done[q].extract) {
      if d != c || q != r {
        assert ClaimOk(s, d, q, s.waiters[d].done[q].extract);
      }
    }
  }

  lemma FinishTakers(s: State, t: State, c: nat, r: Id)
    requires TakersDeliver(s) && c in s.waiters && t.waiters.Keys == s.waiters.Keys && t.taken == s.taken
    requires forall d :: d in s.waiters && d != c ==> t.waiters[d] == s.waiters[d]
    requires t.waiters[c].running == s.waiters[c].running - {r} && t.waiters[c].done.Keys == s.waiters[c].done.Keys + {r}
    ensures TakersDeliver(t)
  {
  }

  // ---------- what was called ----------

  lemma {:induction false} AboutConcat(a: seq<Callback>, b: seq<Callback>, r: Id)
    ensures About(a + b, r) == About(a, r) + About(b, r)
  {
    if b == [] {
      assert a + b == a;
    } else {
      var k := |b| - 1;
      AboutConcat(a, b[..k], r);
      assert (a + b)[..|a + b| - 1] == a + b[..k];
    }
  }

  lemma {:induction false} AboutOne(calls: seq<Callback>, q: Id, r: Id)
    requires forall k :: 0 <= k < |calls| ==> calls[k].result == q
    ensures About(calls, r) == if r == q then calls else []
  {
    if calls != [] {
      AboutOne(calls[..|calls| - 1], q, r);
    }
  }

  lemma SameCalls(s: State, t: State)
    requires ClaimsOk(s) && CallsOk(s) && t.calls == s.calls && s.taken == t.taken && s.waiters.Keys <= t.waiters.Keys
    requires forall c :: c in s.waiters ==> t.waiters[c].done == s.waiters[c].done
    ensures CallsOk(t)
  {
    hide About;
    forall r ensures About(t.calls, r) == Due(t, r) {
      assert About(s.calls, r) == Due(s, r);
    }
  }

  lemma TakeCalls(s: State, t: State, c: nat, r: Id)
    requires MapsOk(s) && ClaimsOk(s) && CallsOk(s) && Enabled(s, Take(c, r)) && t == Next(s, Take(c, r))
    requires r !in s.waiters[c].done
    ensures CallsOk(t)
  {
    TakeIs(s, t, c, r);
    assert r in s.maps.handlers ==> r !in s.taken by { assert s.maps.handlers.Keys !! s.taken.Keys; }
    hide About, MapsOk, ClaimsOk, Next, Enabled;
    forall q ensures About(t.calls, q) == Due(t, q) {
      assert About(s.calls, q) == Due(s, q);
      TakenDue(s, t, c, r, q);
      hide Due;
    }
  }

  /** What is taken has not been delivered yet. */
  lemma TakenDue(s: State, t: State, c: nat, r: Id, q: Id)
    requires c in s.waiters && r !in s.waiters[c].done && t.waiters.Keys == s.waiters.Keys
    requires t.taken == s.taken || (r !in s.taken && t.taken == s.taken[r := c])
    requires forall d :: d in s.waiters ==> t.waiters[d].done == s.waiters[d].done
    ensures Due(t, q) == Due(s, q)
  {
    hide DeliveryOf;
  }

  lemma FinishCalls(s: State, t: State, c: nat, r: Id, o: Outcome)
    requires ClaimsOk(s) && CallsOk(s) && Enabled(s, Finish(c, r, o)) && t == Next(s, Finish(c, r, o))
    requires r !in s.waiters[c].done
    ensures CallsOk(t)
  {
    var x := s.waiters[c].running[r];
    var d := DeliveryOf(x, r, o);
    DeliveredExactly(x.handler, x.task, r, x.status, o);
    assert ClaimOk(s, c, r, x);
    assert !(r in s.taken && s.taken[r] == c) ==> d.calls == [];
    assert t.calls == s.calls + d.calls;
    hide About, Delivered, ClaimOk, ClaimsOk, DeliveryOf, Enabled, Next;
    forall q ensures About(t.calls, q) == Due(t, q) {
      assert About(s.calls, q) == Due(s, q);
      AboutConcat(s.calls, d.calls, q);
      AboutOne(d.calls, r, q);
      FinishedDue(s, t, c, r, o, q);
      hide Due;
    }
  }

  /** A delivery that is over adds its own callbacks to those that there should be. */
  lemma FinishedDue(s: State, t: State, c: nat, r: Id, o: Outcome, q: Id)
    requires Enabled(s, Finish(c, r, o)) && t == Next(s, Finish(c, r, o)) && r !in s.waiters[c].done
    ensures Due(t, q) == if q == r && q in s.taken && s.taken[q] == c then DeliveryOf(s.waiters[c].running[r], r, o).calls
                         else Due(s, q)
    ensures q == r && q in s.taken && s.taken[q] == c ==> Due(s, q) == []
  {
    hide DeliveryOf;
  }

  // ---------- every step ----------

  lemma WaitersGrow(s: State, t: State, c: nat)
    requires WaitersOk(s) && s.recorded == t.recorded && c in t.waiters && WaiterOk(t.waiters[c])
    requires t.waiters == s.waiters[c := t.waiters[c]] && t.waiters[c].initial <= t.recorded.Keys
    ensures WaitersOk(t)
  {
    hide WaiterOk;
  }

  /** A step of one wait that starts no delivery and ends none. */
  lemma WaiterStep(s: State, c: nat, v: Waiter)
    requires Inv(s) && WaiterOk(v) && v.initial <= s.recorded.Keys
    requires if c in s.waiters then SameDeliveries(s.waiters[c], v) else v.running == map[] && v.done == map[]
    ensures Inv(s.(waiters := s.waiters[c := v]))
  {
    hide WaiterOk, ClaimOk, Due, About, Consistent;
    var t := s.(waiters := s.waiters[c := v]);
    WaitersGrow(s, t, c);
    SameClaims(s, t);
    SameCalls(s, t);
  }

  /** A step that changes the maps alone. */
  lemma MapsStep(s: State, t: State)
    requires Inv(s) && MapsOk(t) && t == s.(maps := t.maps, removed := t.removed)
    requires t.maps.handlers.Keys <= s.maps.handlers.Keys
    ensures Inv(t)
  {
    hide WaiterOk, ClaimOk, Due, About, MapsOk;
    SameClaims(s, t);
    SameCalls(s, t);
  }

  lemma WaitStep(s: State, c: nat, tasks: set<Id>, any: bool, breakOnError: bool)
    requires Inv(s) && c !in s.waiters
    ensures Inv(Next(s, Wait(c, tasks, any, breakOnError)))
  {
    hide WaiterOk, ClaimsOk, CallsOk;
    NewOk(Snapshot(s.maps, tasks), any, breakOnError);
    SnapshotIsPaired(s.maps, tasks);
    assert s.maps.handlers.Keys <= s.recorded.Keys;
    hide MapsOk, WaitersOk, Snapshot;
    WaiterStep(s, c, NewWaiter(Snapshot(s.maps, tasks), any, breakOnError));
  }

  /** The steps of the functions that a wait has spawned, but for what happens to results. */
  predicate AtGate(step: Step) {
    step.Ask? || step.Answer? || step.AskFails? || step.EndAsk? || step.EndDelivery?
  }

  /** The gate after such a step. */
  lemma GateStep(s: State, step: Step) returns (gate: Gate)
    requires Enabled(s, step) && AtGate(step) && GateInv(s.waiters[step.waiter])
    ensures Next(s, step) == WithGate(s, step.waiter, gate) && GateInv(s.waiters[step.waiter].(gate := gate))
    ensures gate.ending <= s.waiters[step.waiter].gate.ending
  {
    var w := s.waiters[step.waiter];
    hide GateInv;
    match step
    case Ask(_, ids) =>
      gate := Asked(w.gate, ids);
      AskedOk(w, ids);
    case Answer(_, k, answer) =>
      gate := Answered(w.gate, k, answer);
      AnsweredOk(w, k, answer);
    case AskFails(_, k) =>
      gate := AskFailed(w.gate, k);
      AskFailedOk(w, k);
    case EndAsk(_, k) =>
      gate := AskEnded(w.gate, k);
      AskEndedOk(w, k);
    case EndDelivery(_, r) =>
      gate := DeliveryEnded(w.gate, r);
      DeliveryEndedOk(w, r);
  }

  lemma WaiterIn(s: State, c: nat)
    requires Inv(s) && c in s.waiters
    ensures WaiterOk(s.waiters[c]) && s.waiters[c].initial <= s.recorded.Keys
  {
    hide WaiterOk, MapsOk, ClaimsOk, CallsOk;
  }

  lemma GateKeeps(w: Waiter, gate: Gate)
    ensures var v := w.(gate := gate); SameDeliveries(w, v) && SameResults(w, v)
  {
  }

  /** A change of the gate alone. */
  lemma GateOnly(s: State, c: nat, gate: Gate)
    requires Inv(s) && c in s.waiters && GateInv(s.waiters[c].(gate := gate))
    requires gate.ending <= s.waiters[c].gate.ending
    ensures Inv(WithGate(s, c, gate))
  {
    var w := s.waiters[c];
    WaiterIn(s, c);
    EndingIsDone(w);
    GateKeeps(w, gate);
    hide Inv, DataOk, GateInv, SameDeliveries, SameResults;
    SameData(w, w.(gate := gate));
    WaiterStep(s, c, w.(gate := gate));
  }

  lemma OwnStep(s: State, step: Step)
    requires Inv(s) && Enabled(s, step) && AtGate(step)
    ensures Inv(Next(s, step))
  {
    WaiterIn(s, step.waiter);
    hide Inv, DataOk, Next, Enabled, GateInv;
    var gate := GateStep(s, step);
    GateOnly(s, step.waiter, gate);
  }

  // ---------- the barriers ----------

  lemma PassListingIs(s: State, c: nat)
    requires Enabled(s, PassListing(c))
    ensures c in s.waiters && s.waiters[c].phase.Listing?
    ensures Next(s, PassListing(c)) == s.(waiters := s.waiters[c := ListingPassed(s.waiters[c])])
  {
    hide ListingPassed;
  }

  lemma PassListingStep(s: State, c: nat)
    requires Inv(s) && Enabled(s, PassListing(c))
    ensures Inv(Next(s, PassListing(c)))
  {
    PassListingIs(s, c);
    WaiterIn(s, c);
    hide Inv, DataOk, GateInv, ListingPassed, Next, Enabled, SameDeliveries;
    ListingPassedOk(s.waiters[c]);
    ListingKeeps(s.waiters[c]);
    WaiterStep(s, c, ListingPassed(s.waiters[c]));
  }

  lemma EndRoundIs(s: State, c: nat, past: bool)
    requires Enabled(s, EndRound(c, past))
    ensures c in s.waiters && s.waiters[c].phase.Delivering?
    ensures Next(s, EndRound(c, past)) == s.(waiters := s.waiters[c := RoundPassed(s.waiters[c], past)])
  {
    hide RoundPassed;
  }

  lemma EndRoundStep(s: State, c: nat, past: bool)
    requires Inv(s) && Enabled(s, EndRound(c, past))
    ensures Inv(Next(s, EndRound(c, past)))
  {
    EndRoundIs(s, c, past);
    WaiterIn(s, c);
    hide Inv, DataOk, GateInv, RoundPassed, Next, Enabled, SameDeliveries;
    RoundPassedOk(s.waiters[c], past);
    RoundKeeps(s.waiters[c], past);
    WaiterStep(s, c, RoundPassed(s.waiters[c], past));
  }

  lemma UnwindIs(s: State, c: nat)
    requires Enabled(s, Unwind(c))
    ensures c in s.waiters && s.waiters[c].phase.Unwinding?
    ensures Next(s, Unwind(c)) == s.(waiters := s.waiters[c := Unwound(s.waiters[c])])
  {
    hide Unwound;
  }

  lemma UnwindStep(s: State, c: nat)
    requires Inv(s) && Enabled(s, Unwind(c))
    ensures Inv(Next(s, Unwind(c)))
  {
    UnwindIs(s, c);
    WaiterIn(s, c);
    hide Inv, DataOk, GateInv, Unwound, Next, Enabled, SameDeliveries;
    UnwoundOk(s.waiters[c]);
    UnwindKeeps(s.waiters[c]);
    WaiterStep(s, c, Unwound(s.waiters[c]));
  }

  // Deliveries neither start nor end at a barrier.

  lemma HeldKeeps(w: Waiter, join: J.Join, throws: bool)
    ensures SameDeliveries(w, Held(w, join, throws))
  {
  }

  lemma SpreadKeeps(w: Waiter, join: J.Join)
    ensures SameDeliveries(w, Spread(w, join))
  {
    hide Spawns, StatusIn;
  }

  lemma ResumedKeeps(w: Waiter, past: bool, join: J.Join)
    ensures SameDeliveries(w, Resumed(w, past, join))
  {
    hide Breaks;
  }

  lemma ListingKeeps(w: Waiter)
    ensures SameDeliveries(w, ListingPassed(w))
  {
    hide J.Waited, Spread, Held, SameDeliveries;
    var (join, outcome) := J.Waited(w.gate.join, CLIENT, J.ForTasks);
    SpreadKeeps(w, join);
    HeldKeeps(w, join, outcome.Some?);
  }

  lemma RoundKeeps(w: Waiter, past: bool)
    ensures SameDeliveries(w, RoundPassed(w, past))
  {
    hide J.Waited, Resumed, Held, SameDeliveries;
    var (join, outcome) := J.Waited(w.gate.join, CLIENT, J.ForTasks);
    ResumedKeeps(w, past, join);
    HeldKeeps(w, join, outcome.Some?);
  }

  lemma UnwindKeeps(w: Waiter)
    ensures SameDeliveries(w, Unwound(w))
  {
    hide J.Waited;
  }

  ghost predicate SameDeliveries(w: Waiter, v: Waiter) {
    v.running == w.running && v.done == w.done && v.initial == w.initial
  }

  lemma InvStep(s: State, step: Step)
    requires Inv(s) && Enabled(s, step)
    ensures Inv(Next(s, step))
  {
    hide MapsOk, ClaimsOk, CallsOk, WaitersOk;
    match step
    case Record(results, tasks, handler) => RecordStep(s, results, tasks, handler);
    case Cleanup(tasks) =>
      assert MapsOk(s);
      CleanupMaps(s, tasks);
      MapsStep(s, Next(s, step));
    case Drop =>
      DropMaps(s);
      MapsStep(s, Next(s, step));
    case Wait(c, tasks, any, breakOnError) => WaitStep(s, c, tasks, any, breakOnError);
    case Take(c, r) => TakeStep(s, c, r);
    case Finish(c, r, o) => FinishStep(s, c, r, o);
    case PassListing(c) => PassListingStep(s, c);
    case EndRound(c, past) => EndRoundStep(s, c, past);
    case Unwind(c) => UnwindStep(s, c);
    case _ => OwnStep(s, step);
  }

  lemma RecordStep(s: State, results: seq<Id>, tasks: seq<Id>, handler: Handler)
    requires Inv(s) && Enabled(s, Record(results, tasks, handler))
    ensures Inv(Next(s, Record(results, tasks, handler)))
  {
    hide MapsOk, ClaimsOk, CallsOk, WaitersOk, Recorded, Entries;
    var t := Next(s, Record(results, tasks, handler));
    RecordMaps(s, t, results, tasks, handler);
    RecordRest(s, t, results, tasks, handler);
  }

  lemma RecordRest(s: State, t: State, results: seq<Id>, tasks: seq<Id>, handler: Handler)
    requires WaitersOk(s) && ClaimsOk(s) && CallsOk(s) && Fresh(s.recorded, results, tasks)
    requires t.recorded == s.recorded + Entries(results, tasks, handler)
    requires t.waiters == s.waiters && t.taken == s.taken && t.calls == s.calls
    requires forall r :: r in s.recorded && r !in s.maps.handlers ==> r !in t.maps.handlers
    ensures WaitersOk(t) && ClaimsOk(t) && CallsOk(t)
  {
    hide WaitersOk, ClaimsOk, CallsOk;
    EntriesAreNew(s.recorded, results, tasks, handler);
    hide Fresh, Entries;
    RecordedMore(s, t);
    SameClaims(s, t);
    SameCalls(s, t);
  }

  lemma EntriesAreNew(recorded: map<Id, Entry>, results: seq<Id>, tasks: seq<Id>, handler: Handler)
    requires Fresh(recorded, results, tasks)
    ensures var all := recorded + Entries(results, tasks, handler); forall r :: r in recorded ==> r in all && all[r] == recorded[r]
  {
    EntriesAt(results, tasks, handler);
    hide Entries;
  }

  lemma RecordedMore(s: State, t: State)
    requires WaitersOk(s) && t.waiters == s.waiters && forall r :: r in s.recorded ==> r in t.recorded
    ensures WaitersOk(t)
  {
    hide WaiterOk;
  }

  lemma TakeStep(s: State, c: nat, r: Id)
    requires Inv(s) && Enabled(s, Take(c, r))
    ensures Inv(Next(s, Take(c, r)))
  {
    var t := Next(s, Take(c, r));
    var w := s.waiters[c];
    DoneOnce(w, r);
    hide About, Consistent, Extracted, DataOk, GateInv, ClaimOk, Due;
    TakeMaps(s, c, r);
    TakenByOk(w, r, Extracted(s.maps, r));
    WaitersGrow(s, t, c);
    TakeClaims(s, t, c, r);
    TakeCalls(s, t, c, r);
  }

  lemma SameMaps(s: State, t: State)
    requires MapsOk(s) && t.maps == s.maps && t.recorded == s.recorded && t.taken == s.taken && t.removed == s.removed
    ensures MapsOk(t)
  {
  }

  lemma FinishWaits(s: State, t: State, c: nat, r: Id, o: Outcome)
    requires WaitersOk(s) && c in s.waiters && r in s.waiters[c].running
    requires t.waiters == s.waiters[c := FinishedBy(s.waiters[c], r, o)] && t.recorded == s.recorded
    requires t.waiters[c].initial == s.waiters[c].initial
    ensures WaitersOk(t) && r !in s.waiters[c].done
  {
    hide DataOk, GateInv, FinishedBy;
    FinishedByOk(s.waiters[c], r, o);
    WaitersGrow(s, t, c);
    DoneOnce(s.waiters[c], r);
  }

  lemma DoneOnce(w: Waiter, r: Id)
    requires DataOk(w)
    ensures r in w.running ==> r !in w.done
    ensures r in w.due ==> r in w.initial && r !in w.running && r !in w.done
  {
    hide Rounds, Busy, Flags, PhaseOk;
    NotRunning(w, r);
  }

  lemma FinishStep(s: State, c: nat, r: Id, o: Outcome)
    requires Inv(s) && Enabled(s, Finish(c, r, o))
    ensures Inv(Next(s, Finish(c, r, o)))
  {
    hide MapsOk, WaitersOk, ClaimsOk, CallsOk, FinishedBy, Next, Enabled;
    var t := Next(s, Finish(c, r, o));
    FinishIs(s, t, c, r, o);
    SameMaps(s, t);
    FinishWaits(s, t, c, r, o);
    FinishClaims(s, t, c, r, o);
    FinishCalls(s, t, c, r, o);
  }

  lemma {:induction false} InvRun(s: State, steps: seq<Step>)
    requires Inv(s) && IsRun(s, steps)
    ensures Inv(After(s, steps))
    decreases |steps|
  {
    hide Inv, Enabled;
    if steps != [] {
      InvStep(s, steps[0]);
      InvRun(Next(s, steps[0]), steps[1..]);
    }
  }

  lemma StartInv()
    ensures Inv(START)
  {
  }

  lemma ReachableInv(s: State)
    requires Reachable(s)
    ensures Inv(s)
  {
    StartInv();
    var steps :| IsRun(START, steps) && After(START, steps) == s;
    hide Inv;
    InvRun(START, steps);
  }
}
