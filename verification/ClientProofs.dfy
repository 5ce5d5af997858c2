/** What a client process keeps, whatever its submissions, waits, cleanups and drops do to each other. */
module ClientProofs {
  import opened Prelude
  import opened SessionMaps
  import opened ClientMachine
  import S = Submission
  import SP = SubmissionProofs
  import ST = SubmissionTheorems
  import W = ResultWaiting
  import WP = WaitingProofs

  // ---------- the invariant ----------

  /** A call is a run of the submission machine, on the server that all of them see. */
  ghost predicate CallOk(w: World, call: Call) {
    && call.request.Valid() && call.state.server == w.server
    && S.Reachable(call.Start(), call.state) && ST.Accounted(call.state)
    && (call.recorded ==> call.state.phase.Completed? && call.request.withOutputs)
  }

  /** The server has made nothing for two calls. */
  ghost predicate Apart(w: World) {
    forall a, b :: a in w.calls && b in w.calls && a != b ==>
      && w.calls[a].state.issued !! w.calls[b].state.issued
      && w.calls[a].state.made !! w.calls[b].state.made
  }

  /** Slot `i` of a call. */
  ghost predicate IsSlot(call: Call, i: int) {
    0 <= i < |call.state.outputs| == |call.state.tasks|
  }

  /** What the session has recorded for a result is a slot of a call that has recorded. */
  ghost predicate From(w: World, r: Id) {
    && r in w.session.recorded
    && exists c, i :: c in w.calls && w.calls[c].recorded && IsSlot(w.calls[c], i) && w.calls[c].state.outputs[i] == r
         && w.session.recorded[r] == W.Entry(w.calls[c].state.tasks[i], w.calls[c].handler)
  }

  /** The session has recorded all slots of a call. */
  ghost predicate AllRecorded(w: World, call: Call) {
    forall i :: IsSlot(call, i) ==>
      && call.state.outputs[i] in w.session.recorded
      && w.session.recorded[call.state.outputs[i]] == W.Entry(call.state.tasks[i], call.handler)
  }

  ghost predicate RecordedOk(w: World) {
    && (forall r :: r in w.session.recorded ==> From(w, r))
    && (forall c :: c in w.calls && w.calls[c].recorded ==> AllRecorded(w, w.calls[c]))
  }

  ghost predicate CallsOk(w: World) {
    forall c :: c in w.calls ==> CallOk(w, w.calls[c])
  }

  ghost predicate Inv(w: World) {
    CallsOk(w) && Apart(w) && RecordedOk(w) && W.Reachable(w.session)
  }

  // ---------- what the submission machine gives ----------

  /** The slots of a call that has completed are its own, and no two of them are the same. */
  lemma CompletedSlots(w: World, call: Call)
    requires CallOk(w, call) && call.state.phase.Completed? && call.request.withOutputs
    ensures var s := call.state;
            && |s.outputs| == |s.tasks| == |call.request.payloads| && s.request == call.request
            && (forall i :: 0 <= i < |s.tasks| ==> s.outputs[i] in s.issued && s.tasks[i] in s.made)
            && (forall i, j :: 0 <= i < j < |s.tasks| ==> s.outputs[i] != s.outputs[j] && s.tasks[i] != s.tasks[j])
            && ST.Exact(s)
  {
    ST.CompletedIssued(call.request, call.began, call.chunkMax, call.limit, call.state);
    ST.CompletedIsDistinct(call.request, call.began, call.chunkMax, call.limit, call.state);
    hide CallOk, ST.Exact, S.Reachable;
  }

  lemma RecordedIsFinal(w: World, call: Call, step: S.Step)
    requires CallOk(w, call) && S.HasEnded(call.state) && S.Enabled(call.state, step)
    ensures step.Others?
  {
    SP.ReachableInv(call.request, call.began, call.chunkMax, call.limit, call.state);
    ST.EndIsFinal(call.state, step);
  }

  // ---------- steps ----------

  lemma SeenOk(w: World, v: World, call: Call)
    requires CallOk(w, call) && S.Keeps(w.server, v.server, call.state.issued)
    ensures CallOk(v, call.(state := call.state.(server := v.server)))
  {
    ST.ReachableNext(call.Start(), call.state, S.Others(v.server));
  }

  lemma MovedOk(w: World, v: World, call: Call, step: S.Step)
    requires CallOk(w, call) && S.Enabled(call.state, step) && !step.Others?
    requires v.server == S.Next(call.state, step).server
    ensures CallOk(v, call.(state := S.Next(call.state, step)))
  {
    ST.ReachableNext(call.Start(), call.state, step);
    ST.NewIdsAreNew(call.state, step);
    if call.recorded {
      RecordedIsFinal(w, call, step);
    }
    hide S.Next, S.Enabled;
  }

  /** Calls that have recorded are still there, with the same slots. */
  ghost predicate SlotsStay(w: World, v: World) {
    forall c :: c in w.calls && w.calls[c].recorded ==>
      && c in v.calls && v.calls[c].recorded && v.calls[c].handler == w.calls[c].handler
      && v.calls[c].state.outputs == w.calls[c].state.outputs && v.calls[c].state.tasks == w.calls[c].state.tasks
  }

  lemma FromStays(w: World, v: World, r: Id)
    requires SlotsStay(w, v) && From(w, r)
    requires r in v.session.recorded && v.session.recorded[r] == w.session.recorded[r]
    ensures From(v, r)
  {
    var c, i :| c in w.calls && w.calls[c].recorded && IsSlot(w.calls[c], i) && w.calls[c].state.outputs[i] == r
             && w.session.recorded[r] == W.Entry(w.calls[c].state.tasks[i], w.calls[c].handler);
    assert IsSlot(v.calls[c], i);
  }

  lemma AllRecordedStays(w: World, v: World, a: Call, b: Call)
    requires AllRecorded(w, a) && b.handler == a.handler
    requires b.state.outputs == a.state.outputs && b.state.tasks == a.state.tasks
    requires forall r :: r in w.session.recorded ==>
               r in v.session.recorded && v.session.recorded[r] == w.session.recorded[r]
    ensures AllRecorded(v, b)
  {
    forall i | IsSlot(b, i)
      ensures b.state.outputs[i] in v.session.recorded
      ensures v.session.recorded[b.state.outputs[i]] == W.Entry(b.state.tasks[i], b.handler)
    {
      assert IsSlot(a, i);
    }
  }

  /** Steps that record nothing. */
  lemma SameSlots(w: World, v: World)
    requires RecordedOk(w) && v.session.recorded == w.session.recorded && SlotsStay(w, v)
    requires forall c :: c in v.calls && v.calls[c].recorded ==> c in w.calls && w.calls[c].recorded
    ensures RecordedOk(v)
  {
    hide From, AllRecorded;
    forall r | r in v.session.recorded ensures From(v, r) {
      FromStays(w, v, r);
    }
    forall c | c in v.calls && v.calls[c].recorded ensures AllRecorded(v, v.calls[c]) {
      AllRecordedStays(w, v, w.calls[c], v.calls[c]);
    }
  }

  lemma SameServerOk(w: World, v: World, a: Call, b: Call)
    requires CallOk(w, a) && v.server == w.server && b == a.(recorded := b.recorded)
    requires b.recorded ==> a.recorded || (b.state.phase.Completed? && b.request.withOutputs)
    ensures CallOk(v, b)
  {
  }

  lemma BegunApart(w: World, v: World, c: nat)
    requires Apart(w) && c !in w.calls && c in v.calls && v.calls == w.calls[c := v.calls[c]]
    requires v.calls[c].state.issued == {} && v.calls[c].state.made == {}
    ensures Apart(v)
  {
  }

  lemma BeginStep(w: World, step: Step)
    requires Inv(w) && Enabled(w, step) && step.Begin?
    ensures Inv(Next(w, step))
  {
    hide S.Start, S.Reachable, W.Reachable, CallOk, Apart, RecordedOk;
    var v, c := Next(w, step), step.call;
    BegunOk(v, v.calls[c]);
    forall d | d in v.calls ensures CallOk(v, v.calls[d]) {
      if d != c {
        CallStays(w, v, w.calls[d]);
      }
    }
    BegunApart(w, v, c);
    SameSlots(w, v);
  }

  lemma CallStays(w: World, v: World, call: Call)
    requires CallOk(w, call) && v.server == w.server
    ensures CallOk(v, call)
  {
  }

  lemma BegunOk(w: World, call: Call)
    requires call.request.Valid() && call.began == w.server && call.state == call.Start() && !call.recorded
    ensures CallOk(w, call) && call.state.issued == {} && call.state.made == {}
  {
    hide S.CreationJobs;
    assert S.IsRun(call.Start(), []) && S.After(call.Start(), []) == call.state;
  }

  lemma MovedWorld(w: World, c: nat, step: S.Step)
    requires Enabled(w, Move(c, step))
    ensures var v := Next(w, Move(c, step));
            && v.server == S.Next(w.calls[c].state, step).server && v.session == w.session && v.calls.Keys == w.calls.Keys
            && v.calls[c] == w.calls[c].(state := S.Next(w.calls[c].state, step))
            && forall d :: d in w.calls && d != c ==>
                 v.calls[d] == w.calls[d].(state := w.calls[d].state.(server := v.server))
  {
    hide S.Next, S.Enabled, S.Keeps;
  }

  lemma MoveStep(w: World, step: Step)
    requires Inv(w) && Enabled(w, step) && step.Move?
    ensures Inv(Next(w, step))
  {
    hide S.Next, S.Enabled, S.Reachable, W.Reachable, RecordedOk, S.Keeps, Apart, ST.Accounted, ClientMachine.Next;
    var v, c := Next(w, step), step.call;
    var call := w.calls[c];
    MovedWorld(w, c, step.step);
    assert CallOk(w, call);
    ST.NewIdsAreNew(call.state, step.step);
    if call.recorded {
      RecordedIsFinal(w, call, step.step);
    }
    MovedOk(w, v, call, step.step);
    assert forall d :: d in w.calls ==> ST.Accounted(w.calls[d].state) && w.calls[d].state.server == w.server;
    hide CallOk;
    MovedApart(w, v, c);
    forall d | d in w.calls && d != c ensures CallOk(v, v.calls[d]) {
      SeenOk(w, v, w.calls[d]);
    }
    SameSlots(w, v);
  }

  /** One call may have got new ids; they were not on the server before. */
  lemma MovedApart(w: World, v: World, c: nat)
    requires Apart(w) && c in w.calls && v.calls.Keys == w.calls.Keys
    requires forall d :: d in w.calls ==> ST.Accounted(w.calls[d].state) && w.calls[d].state.server == w.server
    requires forall d :: d in w.calls && d != c ==>
               v.calls[d].state.issued == w.calls[d].state.issued && v.calls[d].state.made == w.calls[d].state.made
    requires var a, b := w.calls[c].state, v.calls[c].state;
             && (b.issued - a.issued) !! w.server.results.Keys && (b.made - a.made) !! w.server.tasks.Keys
    ensures Apart(v)
  {
  }

  lemma OthersStep(w: World, step: Step)
    requires Inv(w) && Enabled(w, step) && step.Others?
    ensures Inv(Next(w, step))
  {
    hide S.Reachable, W.Reachable, RecordedOk, S.Keeps, CallOk;
    var v := Next(w, step);
    forall d | d in w.calls ensures CallOk(v, v.calls[d]) {
      SeenOk(w, v, w.calls[d]);
    }
    SameSlots(w, v);
  }

  lemma {:induction false} SessionRunSnoc(s: W.State, steps: seq<W.Step>, step: W.Step)
    requires W.IsRun(s, steps) && W.Enabled(W.After(s, steps), step)
    ensures W.IsRun(s, steps + [step]) && W.After(s, steps + [step]) == W.Next(W.After(s, steps), step)
    decreases |steps|
  {
    hide W.Enabled, W.Next;
    if steps == [] {
      assert steps + [step] == [step] && [step][1..] == [];
      assert W.IsRun(W.Next(s, step), []) && W.After(W.Next(s, step), []) == W.Next(s, step);
    } else {
      SessionRunSnoc(W.Next(s, steps[0]), steps[1..], step);
      assert (steps + [step])[1..] == steps[1..] + [step];
    }
  }

  lemma SessionNext(s: W.State, step: W.Step)
    requires W.Reachable(s) && W.Enabled(s, step)
    ensures W.Reachable(W.Next(s, step))
  {
    hide W.Enabled, W.Next;
    var steps :| W.IsRun(W.START, steps) && W.After(W.START, steps) == s;
    SessionRunSnoc(W.START, steps, step);
    assert W.After(W.START, steps + [step]) == W.Next(s, step);
  }

  lemma KeepsRecorded(s: W.State, step: W.Step)
    requires W.Enabled(s, step) && !step.Record?
    ensures W.Next(s, step).recorded == s.recorded
  {
  }

  lemma InSessionStep(w: World, step: Step)
    requires Inv(w) && Enabled(w, step) && step.InSession?
    ensures Inv(Next(w, step))
  {
    hide W.Next, W.Enabled, W.Reachable, CallOk, RecordedOk;
    SessionNext(w.session, step.action);
    KeepsRecorded(w.session, step.action);
    var v := Next(w, step);
    forall d | d in w.calls ensures CallOk(v, v.calls[d]) {
      CallStays(w, v, w.calls[d]);
    }
    SameSlots(w, v);
  }

  /** The records of a call. */
  ghost predicate RecordsOf(call: Call, more: map<Id, W.Entry>) {
    && |call.state.outputs| == |call.state.tasks|
    && (forall r :: r in more <==> r in call.state.outputs)
    && (forall k :: 0 <= k < |call.state.outputs| ==>
          more[call.state.outputs[k]] == W.Entry(call.state.tasks[k], call.handler))
  }

  /** What a call records on top of what there is. */
  lemma RecordedFrom(w: World, v: World, c: nat, more: map<Id, W.Entry>)
    requires RecordedOk(w) && c in w.calls && !w.calls[c].recorded && more.Keys !! w.session.recorded.Keys
    requires RecordsOf(w.calls[c], more) && v.session.recorded == w.session.recorded + more
    requires v.calls == w.calls[c := w.calls[c].(recorded := true)]
    ensures RecordedOk(v)
  {
    assert SlotsStay(w, v);
    hide From, AllRecorded, SlotsStay, RecordsOf;
    forall r | r in v.session.recorded ensures From(v, r) {
      RecordFrom(w, v, c, more, r);
    }
    forall d | d in v.calls && v.calls[d].recorded ensures AllRecorded(v, v.calls[d]) {
      RecordsAll(w, v, c, more, d);
    }
  }

  lemma RecordFrom(w: World, v: World, c: nat, more: map<Id, W.Entry>, r: Id)
    requires RecordedOk(w) && SlotsStay(w, v) && c in w.calls && r in v.session.recorded
    requires RecordsOf(w.calls[c], more) && v.session.recorded == w.session.recorded + more
    requires v.calls == w.calls[c := w.calls[c].(recorded := true)]
    ensures From(v, r)
  {
    hide From, AllRecorded, SlotsStay, RecordsOf;
    if r in more {
      SameRecords(w.calls[c], v.calls[c], more);
      NewFrom(v, c, more, r);
    } else {
      FromStays(w, v, r);
    }
  }

  lemma RecordsAll(w: World, v: World, c: nat, more: map<Id, W.Entry>, d: nat)
    requires RecordedOk(w) && c in w.calls && d in v.calls && v.calls[d].recorded
    requires more.Keys !! w.session.recorded.Keys
    requires RecordsOf(w.calls[c], more) && v.session.recorded == w.session.recorded + more
    requires v.calls == w.calls[c := w.calls[c].(recorded := true)]
    ensures AllRecorded(v, v.calls[d])
  {
    hide From, AllRecorded, RecordsOf;
    if d != c {
      AllRecordedStays(w, v, w.calls[d], v.calls[d]);
    } else {
      SameRecords(w.calls[c], v.calls[c], more);
      NewAllRecorded(v, v.calls[c], more);
    }
  }

  lemma SameRecords(a: Call, b: Call, more: map<Id, W.Entry>)
    requires RecordsOf(a, more) && b == a.(recorded := b.recorded)
    ensures RecordsOf(b, more)
  {
  }

  lemma NewFrom(v: World, c: nat, more: map<Id, W.Entry>, r: Id)
    requires c in v.calls && v.calls[c].recorded && r in more && RecordsOf(v.calls[c], more)
    requires r in v.session.recorded && v.session.recorded[r] == more[r]
    ensures From(v, r)
  {
    var call := v.calls[c];
    var i :| 0 <= i < |call.state.outputs| && call.state.outputs[i] == r;
    assert IsSlot(call, i);
  }

  lemma NewAllRecorded(v: World, call: Call, more: map<Id, W.Entry>)
    requires RecordsOf(call, more)
    requires forall r :: r in more ==> r in v.session.recorded && v.session.recorded[r] == more[r]
    ensures AllRecorded(v, call)
  {
    forall i | IsSlot(call, i)
      ensures call.state.outputs[i] in v.session.recorded
      ensures v.session.recorded[call.state.outputs[i]] == W.Entry(call.state.tasks[i], call.handler)
    {
      assert call.state.outputs[i] in call.state.outputs;
    }
  }

  lemma RecordStep(w: World, step: Step)
    requires Inv(w) && Enabled(w, step) && step.Record?
    ensures Inv(Next(w, step))
  {
    hide S.Reachable, W.Reachable, CallOk, RecordedOk, W.Next, W.Enabled;
    var v, c := Next(w, step), step.call;
    SessionNext(w.session, w.calls[c].Recording());
    var more := RecordsOnTop(w.session, w.calls[c]);
    forall d | d in v.calls ensures CallOk(v, v.calls[d]) {
      SameServerOk(w, v, w.calls[d], v.calls[d]);
    }
    RecordedFrom(w, v, c, more);
  }

  lemma RecordsOnTop(s: W.State, call: Call) returns (more: map<Id, W.Entry>)
    requires W.Enabled(s, call.Recording())
    ensures RecordsOf(call, more) && more.Keys !! s.recorded.Keys
    ensures W.Next(s, call.Recording()).recorded == s.recorded + more
  {
    more := W.Entries(call.state.outputs, call.state.tasks, call.handler);
    WP.EntriesAt(call.state.outputs, call.state.tasks, call.handler);
  }

  lemma InvStep(w: World, step: Step)
    requires Inv(w) && Enabled(w, step)
    ensures Inv(Next(w, step))
  {
    hide Inv, Enabled, Next;
    match step
    case Begin(_, _, _, _, _) => BeginStep(w, step);
    case Move(_, _) => MoveStep(w, step);
    case Record(_) => RecordStep(w, step);
    case InSession(_) => InSessionStep(w, step);
    case Others(_) => OthersStep(w, step);
  }

  lemma {:induction false} InvRun(w: World, steps: seq<Step>)
    requires Inv(w) && IsRun(w, steps)
    ensures Inv(After(w, steps))
    decreases |steps|
  {
    hide Inv, Enabled, Next;
    if steps != [] {
      InvStep(w, steps[0]);
      InvRun(Next(w, steps[0]), steps[1..]);
    }
  }

  lemma InvInit(server: S.Server)
    ensures Inv(Init(server))
  {
    assert W.IsRun(W.START, []) && W.After(W.START, []) == W.START;
  }

  lemma ReachableInv(server: S.Server, w: World)
    requires Reachable(server, w)
    ensures Inv(w)
  {
    hide Inv;
    InvInit(server);
    var steps :| IsRun(Init(server), steps) && After(Init(server), steps) == w;
    InvRun(Init(server), steps);
  }
}
