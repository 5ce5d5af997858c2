/** What a client process guarantees: all or nothing for every call, and a session that every theorem about sessions is about. */
module ClientTheorems {
  import opened Prelude
  import opened SessionMaps
  import opened ClientMachine
  import opened ClientProofs
  import S = Submission
  import SP = SubmissionProofs
  import ST = SubmissionTheorems
  import W = ResultWaiting
  import WP = WaitingProofs

  /**
   * Whenever SubmitRaw comes to the end, its ids are new to the session, whatever the other submissions have recorded
   * before it began, since then, or will record: nothing stands in the way of recording.
   */
  lemma SubmissionsAreFresh(server: S.Server, w: World, c: nat)
    requires Reachable(server, w) && AtRecording(w, c)
    ensures W.Fresh(w.session.recorded, w.calls[c].state.outputs, w.calls[c].state.tasks)
    ensures Enabled(w, Record(c))
  {
    hide Reachable, CallOk, From, W.Reachable, AllRecorded;
    ReachableInv(server, w);
    var call := w.calls[c];
    assert CallOk(w, call);
    CompletedSlots(w, call);
    hide ST.Exact;
    forall r | r in w.session.recorded
      ensures r !in call.state.issued && w.session.recorded[r].task !in call.state.made
    {
      assert From(w, r);
      NotOurs(w, c, r);
    }
    assert W.Fresh(w.session.recorded, call.state.outputs, call.state.tasks);
  }

  /** What another call has recorded was made for that call. */
  lemma NotOurs(w: World, c: nat, r: Id)
    requires CallsOk(w) && Apart(w) && c in w.calls && !w.calls[c].recorded && From(w, r)
    ensures r !in w.calls[c].state.issued && w.session.recorded[r].task !in w.calls[c].state.made
  {
    hide S.Reachable, ST.Exact;
    var d, i :| d in w.calls && w.calls[d].recorded && IsSlot(w.calls[d], i) && w.calls[d].state.outputs[i] == r
             && w.session.recorded[r] == W.Entry(w.calls[d].state.tasks[i], w.calls[d].handler);
    CompletedSlots(w, w.calls[d]);
    assert r in w.calls[d].state.issued && w.session.recorded[r].task in w.calls[d].state.made;
  }

  /** The session of a client process is one of the sessions of ResultWaiting. */
  lemma SessionIsReachable(server: S.Server, w: World)
    requires Reachable(server, w)
    ensures W.Reachable(w.session)
  {
    hide CallOk, Apart, RecordedOk, Reachable, W.Reachable;
    ReachableInv(server, w);
  }

  /** Slot `i` of the call is recorded: its result with its task and the handler of the call. */
  ghost predicate SlotRecorded(w: World, call: Call, i: int)
    requires IsSlot(call, i)
  {
    && call.state.outputs[i] in w.session.recorded
    && w.session.recorded[call.state.outputs[i]] == W.Entry(call.state.tasks[i], call.handler)
  }

  /**
   * All or nothing, in every schedule. A call that has recorded has recorded each of its slots, and the server has what
   * they stand for; of a call that has not, no result is known to the session. A call some function of which has thrown
   * has not recorded and cannot, and if SubmitRaw has ended, it has thrown.
   */
  lemma AllOrNothing(server: S.Server, w: World, c: nat)
    requires Reachable(server, w) && c in w.calls
    ensures var call := w.calls[c];
            && (call.recorded ==>
                  && |call.state.outputs| == |call.state.tasks| == |call.request.payloads| && ST.Exact(call.state)
                  && forall i :: IsSlot(call, i) ==> SlotRecorded(w, call, i))
            && (!call.recorded ==> forall r :: r in call.state.issued ==>
                  r !in w.session.recorded && r !in w.session.maps.tasks && r !in w.session.maps.handlers)
            && (call.state.failed ==>
                  && !call.recorded && !Enabled(w, Record(c))
                  && (S.HasEnded(call.state) ==> call.state.phase.Aborted?))
  {
    hide Reachable, CallOk, From, AllRecorded;
    ReachableInv(server, w);
    var call := w.calls[c];
    assert CallOk(w, call);
    if call.recorded {
      RecordedWhole(w, call);
    } else {
      forall r | r in call.state.issued
        ensures r !in w.session.recorded && r !in w.session.maps.tasks && r !in w.session.maps.handlers
      {
        if r in w.session.recorded {
          NotOurs(w, c, r);
        }
        OnlyRecorded(w.session, r);
      }
    }
    if call.state.failed {
      FailedIsNotRecorded(w, call);
    }
  }

  lemma RecordedWhole(w: World, call: Call)
    requires CallOk(w, call) && AllRecorded(w, call) && call.recorded
    ensures |call.state.outputs| == |call.state.tasks| == |call.request.payloads| && ST.Exact(call.state)
    ensures forall i :: IsSlot(call, i) ==> SlotRecorded(w, call, i)
  {
    hide S.Reachable, ST.Exact;
    CompletedSlots(w, call);
  }

  /** The maps know what has been recorded, and nothing else. */
  lemma OnlyRecorded(s: W.State, r: Id)
    requires W.Reachable(s) && r !in s.recorded
    ensures r !in s.maps.tasks && r !in s.maps.handlers
  {
    hide W.Reachable, WP.WaitersOk, WP.ClaimsOk, WP.CallsOk;
    WP.ReachableInv(s);
    assert s.maps.handlers.Keys == s.maps.tasks.Keys;
  }

  lemma FailedIsNotRecorded(w: World, call: Call)
    requires CallOk(w, call) && call.state.failed
    ensures !call.state.phase.Completed? && !call.recorded
  {
    hide S.Reachable;
    SP.ReachableInv(call.request, call.began, call.chunkMax, call.limit, call.state);
  }

  // ---------- for good ----------

  lemma FailureStays(w: World, step: Step, c: nat)
    requires Enabled(w, step) && c in w.calls && w.calls[c].state.failed
    ensures var v := Next(w, step); c in v.calls && v.calls[c].state.failed
  {
    hide S.Keeps, W.Next, W.Enabled, S.Start;
    if step.Move? && step.call == c {
      ST.OneStepFails(w.calls[c].state, step.step);
      hide S.Next, S.Enabled;
    }
  }

  lemma {:induction false} FailureStaysRun(w: World, steps: seq<Step>, c: nat)
    requires IsRun(w, steps) && c in w.calls && w.calls[c].state.failed
    ensures c in After(w, steps).calls && After(w, steps).calls[c].state.failed
    decreases |steps|
  {
    hide Enabled, Next;
    if steps != [] {
      FailureStays(w, steps[0], c);
      FailureStaysRun(Next(w, steps[0]), steps[1..], c);
    }
  }

  lemma {:induction false} RunConcat(w: World, a: seq<Step>, b: seq<Step>)
    requires IsRun(w, a) && IsRun(After(w, a), b)
    ensures IsRun(w, a + b) && After(w, a + b) == After(After(w, a), b)
    decreases |a|
  {
    hide Enabled, Next;
    if a == [] {
      assert a + b == b;
    } else {
      RunConcat(Next(w, a[0]), a[1..], b);
      assert (a + b)[1..] == a[1..] + b;
    }
  }

  /**
   * After a function of a call has thrown, no continuation, whatever the other calls, the waits and the other processes do,
   * ever records anything of that call.
   */
  lemma FailedIsNeverRecorded(server: S.Server, w: World, c: nat, steps: seq<Step>)
    requires Reachable(server, w) && c in w.calls && w.calls[c].state.failed && IsRun(w, steps)
    ensures var v := After(w, steps);
            && c in v.calls && !v.calls[c].recorded && !Enabled(v, Record(c))
            && forall r :: r in v.calls[c].state.issued ==> r !in v.session.recorded
  {
    FailureStaysRun(w, steps, c);
    var before :| IsRun(Init(server), before) && After(Init(server), before) == w;
    hide Enabled, Next;
    RunConcat(Init(server), before, steps);
    var v := After(w, steps);
    assert Reachable(server, v);
    AllOrNothing(server, v, c);
  }
}
