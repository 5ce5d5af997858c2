/** What the join set of a wait knows, and when it lets the wait pass. */
module WaitingGate {
  import opened Prelude
  import opened SessionMaps
  import opened ResultWaiting
  import J = JoinSets

  /** The listing requests whose task object is still there. */
  function Alive(asks: seq<Ask>): nat {
    if asks == [] then 0 else Alive(asks[..|asks| - 1]) + (if asks[|asks| - 1].Gone? then 0 else 1)
  }

  lemma AliveSnoc(asks: seq<Ask>, a: Ask)
    ensures Alive(asks + [a]) == Alive(asks) + (if a.Gone? then 0 else 1)
  {
    assert (asks + [a])[..|asks|] == asks;
  }

  lemma {:induction false} AliveUpdate(asks: seq<Ask>, k: nat, a: Ask)
    requires k < |asks|
    ensures Alive(asks[k := a]) + (if asks[k].Gone? then 0 else 1) == Alive(asks) + (if a.Gone? then 0 else 1)
  {
    var n := |asks| - 1;
    if k == n {
      assert asks[k := a][..n] == asks[..n];
    } else {
      AliveUpdate(asks[..n], k, a);
      assert asks[k := a][..n] == asks[..n][k := a];
    }
  }

  lemma {:induction false} AliveNone(asks: seq<Ask>)
    ensures Alive(asks) == 0 <==> forall k :: 0 <= k < |asks| ==> asks[k].Gone?
  {
    if asks != [] {
      AliveNone(asks[..|asks| - 1]);
    }
  }

  predicate HasEnded(w: Waiter) {
    w.phase.Returned? || w.phase.Thrown?
  }

  /** The tasks that the join set has to count. */
  function Tasks(w: Waiter): nat {
    Alive(w.gate.asks) + |w.due.Keys| + |w.running.Keys| + |w.gate.ending|
  }

  /** All task objects are gone. */
  predicate Quiet(w: Waiter) {
    (forall k :: 0 <= k < |w.gate.asks| ==> w.gate.asks[k].Gone?) && w.due == map[] && w.running == map[] && w.gate.ending == {}
  }

  lemma QuietExactly(w: Waiter)
    ensures Tasks(w) == 0 <==> Quiet(w)
  {
    AliveNone(w.gate.asks);
  }

  /** What the client waits for in each phase. */
  function KindOf(phase: Phase): J.WaitKind {
    if phase.Unwinding? then J.ForDestruction else J.ForTasks
  }

  /** A sleeping client that nobody has notified has nothing to wake up for. */
  ghost predicate SleepersOk(w: Waiter) {
    var join := w.gate.join;
    forall x :: x in join.waiters ==>
      && x == CLIENT && !HasEnded(w) && join.waiters[x].kind == KindOf(w.phase)
      && (!join.waiters[x].notified ==> !J.Ready(join, join.waiters[x].kind))
  }

  ghost predicate GateInv(w: Waiter) {
    && w.gate.join.count == Tasks(w) && SleepersOk(w)
    && (w.phase.Listing? ==>
          && (w.gate.join.exception.Some? <==> w.gate.failed) && !w.escaped
          && w.due == map[] && w.running == map[] && w.gate.ending == {})
    && (w.phase.Delivering? ==>
          (w.gate.join.exception.Some? <==> w.escaped) && !w.gate.failed && w.gate.asks == [] && w.listings != [])
    && (w.phase.Unwinding? || w.phase.Thrown? ==> w.gate.failed || w.escaped)
    && (w.phase.Returned? ==> !w.gate.failed && !w.escaped)
    && (HasEnded(w) ==> w.gate.join.count == 0)
    && (w.due != map[] || w.running != map[] ==> w.listings != [])
  }

  // ---------- the barriers ----------

  /** The first barrier returns exactly when all requests are over and none has thrown, and throws exactly when one has. */
  lemma ListingPassesExactly(w: Waiter)
    requires GateInv(w) && w.phase.Listing?
    ensures var outcome := J.Waited(w.gate.join, CLIENT, J.ForTasks).1;
            && (outcome == Some(J.Returned) <==> !w.gate.failed && forall k :: 0 <= k < |w.gate.asks| ==> w.gate.asks[k].Gone?)
            && (outcome.Some? && outcome.value.Rethrown? <==> w.gate.failed)
  {
    QuietExactly(w);
    hide Tasks;
  }

  /** The second barrier returns exactly when all deliveries are over and none let an exception out, and throws exactly when one has. */
  lemma RoundPassesExactly(w: Waiter)
    requires GateInv(w) && w.phase.Delivering?
    ensures var outcome := J.Waited(w.gate.join, CLIENT, J.ForTasks).1;
            && (outcome == Some(J.Returned) <==> !w.escaped && w.due == map[] && w.running == map[] && w.gate.ending == {})
            && (outcome.Some? && outcome.value.Rethrown? <==> w.escaped)
  {
    QuietExactly(w);
    hide Tasks;
  }

  /** The destructor of the join set returns exactly when nothing is left. */
  lemma UnwindPassesExactly(w: Waiter)
    requires GateInv(w)
    ensures J.Waited(w.gate.join, CLIENT, J.ForDestruction).1.Some? <==> Quiet(w)
  {
    QuietExactly(w);
    hide Tasks, Quiet;
  }

  // ---------- every step ----------

  lemma NewGateOk(initial: set<Id>, any: bool, breakOnError: bool)
    ensures GateInv(NewWaiter(initial, any, breakOnError))
  {
  }

  lemma AskedOk(w: Waiter, ids: set<Id>)
    requires GateInv(w) && w.phase.Listing?
    ensures GateInv(w.(gate := Asked(w.gate, ids)))
  {
    AliveSnoc(w.gate.asks, Open(ids));
    hide Alive;
  }

  /** While a request is not gone the client cannot have ended. */
  lemma AliveAsk(w: Waiter, k: nat)
    requires GateInv(w) && k < |w.gate.asks| && !w.gate.asks[k].Gone?
    ensures Alive(w.gate.asks) > 0 && (w.phase.Listing? || w.phase.Unwinding?)
  {
    AliveNone(w.gate.asks);
    hide Alive;
  }

  lemma AnsweredOk(w: Waiter, k: nat, answer: map<Id, Status>)
    requires GateInv(w) && k < |w.gate.asks| && w.gate.asks[k].Open?
    ensures GateInv(w.(gate := Answered(w.gate, k, answer)))
  {
    AliveAsk(w, k);
    AliveUpdate(w.gate.asks, k, Closed);
    hide Alive;
  }

  lemma AskFailedOk(w: Waiter, k: nat)
    requires GateInv(w) && k < |w.gate.asks| && w.gate.asks[k].Open?
    ensures GateInv(w.(gate := AskFailed(w.gate, k)))
  {
    AliveAsk(w, k);
    AliveUpdate(w.gate.asks, k, Closed);
    hide Alive;
  }

  lemma AskEndedOk(w: Waiter, k: nat)
    requires GateInv(w) && k < |w.gate.asks| && w.gate.asks[k].Closed?
    ensures w.gate.join.count > 0 && GateInv(w.(gate := AskEnded(w.gate, k)))
  {
    AliveAsk(w, k);
    AliveUpdate(w.gate.asks, k, Gone);
    hide Alive;
  }

  lemma OneLess(a: set<Id>, r: Id)
    requires r in a
    ensures |a| > 0 && |a - {r}| == |a| - 1
  {
  }

  lemma OneMore(a: set<Id>, r: Id)
    requires r !in a
    ensures |a + {r}| == |a| + 1
  {
  }

  lemma DeliveryEndedOk(w: Waiter, r: Id)
    requires GateInv(w) && r in w.gate.ending
    ensures w.gate.join.count > 0 && GateInv(w.(gate := DeliveryEnded(w.gate, r)))
  {
    OneLess(w.gate.ending, r);
    hide Alive;
  }

  lemma TakenGate(w: Waiter, r: Id, e: Extraction)
    requires GateInv(w) && r in w.due && w.listings != [] && r !in w.running
    ensures GateInv(TakenBy(w, r, e))
  {
    var v := TakenBy(w, r, e);
    OneLess(w.due.Keys, r);
    OneMore(w.running.Keys, r);
    assert v.due.Keys == w.due.Keys - {r} && v.running.Keys == w.running.Keys + {r};
    hide Alive;
  }

  lemma FinishedTasks(w: Waiter, r: Id, o: Outcome)
    requires r in w.running && r !in w.gate.ending
    ensures Tasks(FinishedBy(w, r, o)) == Tasks(w)
  {
    hide Alive, DeliveryOf, J.ErrorRecorded;
    var v := FinishedBy(w, r, o);
    OneLess(w.running.Keys, r);
    OneMore(w.gate.ending, r);
    assert v.running.Keys == w.running.Keys - {r};
  }

  lemma FinishedSleepers(w: Waiter, v: Waiter, work: nat)
    requires SleepersOk(w) && !HasEnded(w) && v.phase == w.phase
    requires v.gate.join == w.gate.join || v.gate.join == J.ErrorRecorded(w.gate.join, work)
    ensures SleepersOk(v) && v.gate.join.count == w.gate.join.count
  {
  }

  lemma FinishedGate(w: Waiter, r: Id, o: Outcome)
    requires GateInv(w) && r in w.running && r !in w.gate.ending
    ensures GateInv(FinishedBy(w, r, o))
  {
    FinishedTasks(w, r, o);
    QuietExactly(w);
    hide Tasks, DeliveryOf, SleepersOk;
    FinishedSleepers(w, FinishedBy(w, r, o), w.running[r].round);
  }

  /** The client goes (back) to sleep. */
  lemma SleepsGate(w: Waiter)
    requires GateInv(w) && !HasEnded(w) && !J.Ready(w.gate.join, KindOf(w.phase))
    ensures GateInv(Held(w, J.Waited(w.gate.join, CLIENT, KindOf(w.phase)).0, false))
  {
    hide Alive;
  }

  /** A barrier throws. */
  lemma ThrowsGate(w: Waiter)
    requires GateInv(w) && (w.phase.Listing? || w.phase.Delivering?) && w.gate.join.exception.Some?
    ensures GateInv(Held(w, J.Waited(w.gate.join, CLIENT, J.ForTasks).0, true))
  {
    hide Alive;
  }

  lemma SweptGate(w: Waiter, join: J.Join)
    requires GateInv(w) && w.phase.Listing? && !w.gate.failed && join == J.Join(0, None, map[])
    ensures GateInv(Spread(w, join))
  {
    hide StatusIn;
  }

  lemma RoundEndedGate(w: Waiter, past: bool, join: J.Join)
    requires GateInv(w) && w.phase.Delivering? && Quiet(w) && !w.escaped && join == J.Join(0, None, map[])
    ensures GateInv(Resumed(w, past, join))
  {
    hide Breaks;
  }

  /** A barrier that lets the client go leaves an empty join set. */
  lemma PassesEmpty(w: Waiter)
    requires GateInv(w) && (w.phase.Listing? || w.phase.Delivering?)
    requires J.Ready(w.gate.join, J.ForTasks) && w.gate.join.exception.None?
    ensures J.Waited(w.gate.join, CLIENT, J.ForTasks) == (J.Join(0, None, map[]), Some(J.Returned)) && Quiet(w)
  {
    QuietExactly(w);
    assert w.gate.join.waiters - {CLIENT} == map[];
    hide Tasks;
  }

  lemma ListingPassedGate(w: Waiter)
    requires GateInv(w) && w.phase.Listing?
    ensures GateInv(ListingPassed(w))
  {
    if !J.Ready(w.gate.join, J.ForTasks) {
      SleepsGate(w);
    } else if w.gate.join.exception.Some? {
      ThrowsGate(w);
    } else {
      PassesEmpty(w);
      SweptGate(w, J.Join(0, None, map[]));
    }
    hide GateInv, Spread, Held;
  }

  lemma RoundPassedGate(w: Waiter, past: bool)
    requires GateInv(w) && w.phase.Delivering?
    ensures GateInv(RoundPassed(w, past))
  {
    if !J.Ready(w.gate.join, J.ForTasks) {
      SleepsGate(w);
    } else if w.gate.join.exception.Some? {
      ThrowsGate(w);
    } else {
      PassesEmpty(w);
      RoundEndedGate(w, past, J.Join(0, None, map[]));
    }
    hide GateInv, Resumed, Held;
  }

  lemma UnwoundGate(w: Waiter)
    requires GateInv(w) && w.phase.Unwinding?
    ensures GateInv(Unwound(w))
  {
    if !J.Ready(w.gate.join, J.ForDestruction) {
      SleepsGate(w);
      hide GateInv;
    } else {
      ThrownGate(w, J.Waited(w.gate.join, CLIENT, J.ForDestruction).0);
      hide GateInv;
    }
  }

  /** The wait lets the exception out. */
  lemma ThrownGate(w: Waiter, join: J.Join)
    requires GateInv(w) && w.phase.Unwinding? && w.gate.join.count == 0
    requires join == w.gate.join.(waiters := w.gate.join.waiters - {CLIENT})
    ensures GateInv(w.(gate := w.gate.(join := join), phase := Thrown))
  {
    var v := w.(gate := w.gate.(join := join), phase := Thrown);
    SameTasks(w, v);
    hide Tasks;
    assert join.waiters == map[];
  }

  lemma SameTasks(w: Waiter, v: Waiter)
    requires v.gate.asks == w.gate.asks && v.due == w.due && v.running == w.running && v.gate.ending == w.gate.ending
    ensures Tasks(v) == Tasks(w)
  {
  }
}
