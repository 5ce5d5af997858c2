/** The loop of a wait, run from its first line to its last while no other client gets in between. */
module WaitLoop {
  import opened Prelude
  import opened SessionMaps
  import opened SessionMapsProofs
  import opened ResultWaiting
  import J = JoinSets
  import Batching

  /**
   * What the rest of the world does in one round: which of its listing requests throw, what the server lists to
   * the others, how deliveries go, what the clock says.
   */
  datatype Round = Round(fails: nat -> bool, listing: map<Id, Status>, outcome: Id -> Outcome, past: bool)

  // ---------- runs ----------

  lemma {:induction false} RunSnoc(s: State, steps: seq<Step>, step: Step)
    requires IsRun(s, steps) && Enabled(After(s, steps), step)
    ensures IsRun(s, steps + [step]) && After(s, steps + [step]) == Next(After(s, steps), step)
    decreases |steps|
  {
    hide Enabled, Next;
    if steps == [] {
      assert steps + [step] == [step] && [step][1..] == [];
    } else {
      RunSnoc(Next(s, steps[0]), steps[1..], step);
      assert (steps + [step])[1..] == steps[1..] + [step];
    }
  }

  /** The maps have become `maps`, and there were those callbacks; submissions and removals have not happened. */
  ghost predicate Moves(s: State, t: State, maps: Maps, calls: seq<Callback>) {
    t.maps == maps && t.calls == s.calls + calls && t.recorded == s.recorded && t.removed == s.removed
  }

  /** The run so far, and what it has made of the waiter, of the maps and of the callbacks. */
  ghost predicate Shows(s: State, steps: seq<Step>, c: nat, w: Waiter, maps: Maps, calls: seq<Callback>) {
    && IsRun(s, steps)
    && var t := After(s, steps); Moves(s, t, maps, calls) && c in t.waiters && t.waiters[c] == w
  }

  /** One step of a wait that leaves the maps alone. */
  lemma OwnShows(s: State, steps: seq<Step>, c: nat, w: Waiter, maps: Maps, calls: seq<Callback>, step: Step, v: Waiter)
    requires Shows(s, steps, c, w, maps, calls) && Enabled(After(s, steps), step)
    requires var t := After(s, steps); Next(t, step) == t.(waiters := t.waiters[c := v])
    ensures Shows(s, steps + [step], c, v, maps, calls)
  {
    hide Enabled, Next, IsRun, After;
    RunSnoc(s, steps, step);
  }

  lemma WaitShows(s: State, c: nat, tasks: set<Id>, any: bool, breakOnError: bool)
    requires c !in s.waiters
    ensures Shows(s, [Wait(c, tasks, any, breakOnError)], c, NewWaiter(Snapshot(s.maps, tasks), any, breakOnError), s.maps, [])
  {
    RunSnoc(s, [], Wait(c, tasks, any, breakOnError));
    hide Snapshot, NewWaiter;
    assert [] + [Wait(c, tasks, any, breakOnError)] == [Wait(c, tasks, any, breakOnError)];
  }

  lemma AskShows(s: State, steps: seq<Step>, c: nat, w: Waiter, maps: Maps, calls: seq<Callback>, ids: set<Id>)
    requires Shows(s, steps, c, w, maps, calls) && w.phase.Listing? && ids != {} && ids <= w.gate.unasked
    ensures Shows(s, steps + [Ask(c, ids)], c, w.(gate := Asked(w.gate, ids)), maps, calls)
  {
    hide IsRun, After, Moves, Asked;
    OwnShows(s, steps, c, w, maps, calls, Ask(c, ids), w.(gate := Asked(w.gate, ids)));
  }

  lemma AnswerShows(
    s: State, steps: seq<Step>, c: nat, w: Waiter, maps: Maps, calls: seq<Callback>, k: nat, answer: map<Id, Status>)
    requires Shows(s, steps, c, w, maps, calls) && k < |w.gate.asks| && w.gate.asks[k].Open?
    ensures Shows(s, steps + [Answer(c, k, answer)], c, w.(gate := Answered(w.gate, k, answer)), maps, calls)
  {
    hide IsRun, After, Moves, Answered;
    OwnShows(s, steps, c, w, maps, calls, Answer(c, k, answer), w.(gate := Answered(w.gate, k, answer)));
  }

  lemma AskFailsShows(s: State, steps: seq<Step>, c: nat, w: Waiter, maps: Maps, calls: seq<Callback>, k: nat)
    requires Shows(s, steps, c, w, maps, calls) && k < |w.gate.asks| && w.gate.asks[k].Open?
    ensures Shows(s, steps + [AskFails(c, k)], c, w.(gate := AskFailed(w.gate, k)), maps, calls)
  {
    hide IsRun, After, Moves, AskFailed;
    OwnShows(s, steps, c, w, maps, calls, AskFails(c, k), w.(gate := AskFailed(w.gate, k)));
  }

  lemma EndAskShows(s: State, steps: seq<Step>, c: nat, w: Waiter, maps: Maps, calls: seq<Callback>, k: nat)
    requires Shows(s, steps, c, w, maps, calls)
    requires k < |w.gate.asks| && w.gate.asks[k].Closed? && w.gate.join.count > 0
    ensures Shows(s, steps + [EndAsk(c, k)], c, w.(gate := AskEnded(w.gate, k)), maps, calls)
  {
    hide IsRun, After, Moves, AskEnded;
    OwnShows(s, steps, c, w, maps, calls, EndAsk(c, k), w.(gate := AskEnded(w.gate, k)));
  }

  lemma EndDeliveryShows(s: State, steps: seq<Step>, c: nat, w: Waiter, maps: Maps, calls: seq<Callback>, r: Id)
    requires Shows(s, steps, c, w, maps, calls) && r in w.gate.ending && w.gate.join.count > 0
    ensures Shows(s, steps + [EndDelivery(c, r)], c, w.(gate := DeliveryEnded(w.gate, r)), maps, calls)
  {
    hide IsRun, After, Moves, DeliveryEnded;
    OwnShows(s, steps, c, w, maps, calls, EndDelivery(c, r), w.(gate := DeliveryEnded(w.gate, r)));
  }

  lemma PassListingShows(s: State, steps: seq<Step>, c: nat, w: Waiter, maps: Maps, calls: seq<Callback>)
    requires Shows(s, steps, c, w, maps, calls) && w.phase.Listing? && w.gate.unasked == {}
    ensures Shows(s, steps + [PassListing(c)], c, ListingPassed(w), maps, calls)
  {
    hide IsRun, After, Moves, ListingPassed;
    OwnShows(s, steps, c, w, maps, calls, PassListing(c), ListingPassed(w));
  }

  lemma EndRoundShows(s: State, steps: seq<Step>, c: nat, w: Waiter, maps: Maps, calls: seq<Callback>, past: bool)
    requires Shows(s, steps, c, w, maps, calls) && w.phase.Delivering?
    ensures Shows(s, steps + [EndRound(c, past)], c, RoundPassed(w, past), maps, calls)
  {
    hide IsRun, After, Moves, RoundPassed;
    OwnShows(s, steps, c, w, maps, calls, EndRound(c, past), RoundPassed(w, past));
  }

  lemma UnwindShows(s: State, steps: seq<Step>, c: nat, w: Waiter, maps: Maps, calls: seq<Callback>)
    requires Shows(s, steps, c, w, maps, calls) && w.phase.Unwinding?
    ensures Shows(s, steps + [Unwind(c)], c, Unwound(w), maps, calls)
  {
    hide IsRun, After, Moves, Unwound;
    OwnShows(s, steps, c, w, maps, calls, Unwind(c), Unwound(w));
  }

  lemma TakeShows(s: State, steps: seq<Step>, c: nat, w: Waiter, maps: Maps, calls: seq<Callback>, r: Id)
    requires Shows(s, steps, c, w, maps, calls) && r in w.due && w.listings != []
    ensures var e := Extracted(maps, r); Shows(s, steps + [Take(c, r)], c, TakenBy(w, r, e), e.maps, calls)
  {
    hide IsRun, After, Extracted, TakenBy;
    RunSnoc(s, steps, Take(c, r));
  }

  lemma FinishShows(s: State, steps: seq<Step>, c: nat, w: Waiter, maps: Maps, calls: seq<Callback>, r: Id, o: Outcome)
    requires Shows(s, steps, c, w, maps, calls) && r in w.running
    ensures Shows(s, steps + [Finish(c, r, o)], c, FinishedBy(w, r, o), maps, calls + DeliveryOf(w.running[r], r, o).calls)
  {
    hide IsRun, After, DeliveryOf, FinishedBy;
    RunSnoc(s, steps, Finish(c, r, o));
  }

  // ---------- one listing request ----------

  /** A join set that nobody waits for, with that many tasks. */
  ghost predicate Plain(join: J.Join, count: nat, failed: bool) {
    join.count == count && join.waiters == map[] && (join.exception.Some? <==> failed)
  }

  /** Part of a round has been asked for: all but `left`. */
  ghost predicate Asking(
    v: Waiter, w: Waiter, results: map<Id, Status>, left: set<Id>, listing: map<Id, Status>, asked: nat, failed: bool) {
    && w == v.(gate := w.gate) && w.gate.unasked == left && w.gate.ending == {} && w.gate.failed == failed
    && |w.gate.asks| == asked && Plain(w.gate.join, 0, failed)
    && results.Keys == v.pending && left <= v.pending
    && (forall r :: r in results ==> results[r] == StatusIn(w.gate.heard, r))
    && (!failed ==> forall r :: r in v.pending && r !in left ==> StatusIn(w.gate.heard, r) == StatusIn(listing, r))
    && (forall r :: r in left ==> r !in w.gate.heard)
  }

  /** What a request that goes through, or fails, makes of the gate in the end. */
  function OneAsk(g: Gate, ids: set<Id>, listing: map<Id, Status>, fails: bool): Gate {
    var k := |g.asks|;
    var asked := Asked(g, ids);
    AskEnded(if fails then AskFailed(asked, k) else Answered(asked, k, listing), k)
  }

  lemma AskedOnce(w: Waiter, ids: set<Id>)
    ensures var k, g := |w.gate.asks|, Asked(w.gate, ids);
            k < |g.asks| && g.asks[k].Open? && g.join.count > 0
  {
  }

  lemma ClosedOnce(g: Gate, k: nat, listing: map<Id, Status>, fails: bool)
    requires k < |g.asks| && g.asks[k].Open?
    ensures var h := if fails then AskFailed(g, k) else Answered(g, k, listing);
            && k < |h.asks| && h.asks[k].Closed? && h.join.count == g.join.count
            && h.join == if fails then J.ErrorRecorded(g.join, k) else g.join
  {
  }

  /** Its half of the join set. */
  lemma OneAskJoin(g: Gate, ids: set<Id>, listing: map<Id, Status>, fails: bool)
    ensures var join := J.Incremented(g.join);
            OneAsk(g, ids, listing, fails).join == J.Decremented(if fails then J.ErrorRecorded(join, |g.asks|) else join)
  {
  }

  lemma OneAskShows(
    s: State, steps: seq<Step>, c: nat, w: Waiter, maps: Maps, calls: seq<Callback>, ids: set<Id>,
    listing: map<Id, Status>, fails: bool)
    requires Shows(s, steps, c, w, maps, calls) && w.phase.Listing? && ids != {} && ids <= w.gate.unasked
    ensures var k := |w.gate.asks|;
            Shows(s, steps + [Ask(c, ids)] + [if fails then AskFails(c, k) else Answer(c, k, listing)] + [EndAsk(c, k)],
                  c, w.(gate := OneAsk(w.gate, ids, listing, fails)), maps, calls)
  {
    hide Shows;
    var k, g := |w.gate.asks|, Asked(w.gate, ids);
    AskedOnce(w, ids);
    AskShows(s, steps, c, w, maps, calls, ids);
    hide Asked, AskFailed, Answered, AskEnded, J.Incremented;
    CloseAskShows(s, steps + [Ask(c, ids)], c, w.(gate := g), maps, calls, k, listing, fails);
  }

  lemma CloseAskShows(
    s: State, steps: seq<Step>, c: nat, w: Waiter, maps: Maps, calls: seq<Callback>, k: nat, listing: map<Id, Status>,
    fails: bool)
    requires Shows(s, steps, c, w, maps, calls) && k < |w.gate.asks| && w.gate.asks[k].Open? && w.gate.join.count > 0
    ensures var h := if fails then AskFailed(w.gate, k) else Answered(w.gate, k, listing);
            && k < |h.asks| && h.join.count > 0
            && Shows(s, steps + [if fails then AskFails(c, k) else Answer(c, k, listing)] + [EndAsk(c, k)],
                     c, w.(gate := AskEnded(h, k)), maps, calls)
  {
    hide Shows;
    ClosedOnce(w.gate, k, listing, fails);
    var h := if fails then AskFailed(w.gate, k) else Answered(w.gate, k, listing);
    if fails {
      AskFailsShows(s, steps, c, w, maps, calls, k);
    } else {
      AnswerShows(s, steps, c, w, maps, calls, k, listing);
    }
    hide AskFailed, Answered, AskEnded, J.ErrorRecorded;
    EndAskShows(s, steps + [if fails then AskFails(c, k) else Answer(c, k, listing)], c, w.(gate := h), maps, calls, k);
  }

  lemma OneAskAsks(
    v: Waiter, w: Waiter, results: map<Id, Status>, listed: map<Id, Status>, left: set<Id>, listing: map<Id, Status>,
    asked: nat, failed: bool, ids: set<Id>, fails: bool)
    requires Asking(v, w, results, left, listing, asked, failed) && ids <= left
    requires listed.Keys == results.Keys
    requires forall r :: r in results ==> listed[r] == if !fails && r in ids && r in listing then listing[r] else results[r]
    ensures Asking(v, w.(gate := OneAsk(w.gate, ids, listing, fails)), listed, left - ids, listing, asked + 1, failed || fails)
  {
  }

  function Members(ids: seq<Id>): set<Id> {
    set r | r in ids
  }

  lemma MembersSnoc(ids: seq<Id>, r: Id)
    ensures Members(ids + [r]) == Members(ids) + {r}
  {
  }

  /** The function that the batcher spawns, from the task object to its destructor. */
  method AskFor(
    joinSet: J.JoinSet, results: map<Id, Status>, batch: seq<Id>, fails: bool, listing: map<Id, Status>, asked: nat)
    returns (listed: map<Id, Status>)
    requires forall r :: r in batch ==> r in results
    modifies joinSet
    ensures var join := J.Incremented(old(joinSet.View()));
            joinSet.View() == J.Decremented(if fails then J.ErrorRecorded(join, asked) else join)
    ensures listed.Keys == results.Keys
    ensures forall r :: r in results ==> listed[r] == if !fails && r in batch && r in listing then listing[r] else results[r]
  {
    hide J.ErrorRecorded, J.Decremented;
    var task := new J.Task(asked, joinSet);
    listed := results;
    if fails {
      joinSet.RecordError(asked);
      ErrorKeepsCount(J.Incremented(old(joinSet.View())), asked);
    } else {
      var response := map r | r in listing && r in batch :: listing[r];
      listed := FillIn(results, response);
    }
    task.Destroy();
  }

  lemma ErrorKeepsCount(join: J.Join, work: nat)
    ensures J.ErrorRecorded(join, work).count == join.count
  {
  }

  /** It is a run of three steps. */
  method AskOne(
    joinSet: J.JoinSet, results: map<Id, Status>, batch: seq<Id>, fails: bool, listing: map<Id, Status>, asked: nat,
    ghost s: State, ghost before: seq<Step>, ghost c: nat, ghost v: Waiter, ghost w: Waiter,
    ghost left: set<Id>, ghost failed: bool, ghost maps: Maps, ghost calls: seq<Callback>)
    returns (listed: map<Id, Status>, ghost steps: seq<Step>, ghost u: Waiter)
    requires Shows(s, before, c, w, maps, calls) && joinSet.View() == w.gate.join && w.phase.Listing?
    requires Asking(v, w, results, left, listing, asked, failed) && batch != [] && forall r :: r in batch ==> r in left
    modifies joinSet
    ensures Shows(s, steps, c, u, maps, calls) && joinSet.View() == u.gate.join
    ensures Asking(v, u, listed, left - Members(batch), listing, asked + 1, failed || fails)
  {
    ghost var ids := Members(batch);
    assert batch[0] in ids && w.gate.unasked == left && |w.gate.asks| == asked && left <= results.Keys;
    hide Shows, Asking, OneAsk, J.ErrorRecorded, J.Decremented, J.Incremented;
    OneAskJoin(w.gate, ids, listing, fails);
    OneAskShows(s, before, c, w, maps, calls, ids, listing, fails);
    listed := AskFor(joinSet, results, batch, fails, listing, asked);
    OneAskAsks(v, w, results, listed, left, listing, asked, failed, ids, fails);
    u := w.(gate := OneAsk(w.gate, ids, listing, fails));
    steps := before + [Ask(c, ids)] + [if fails then AskFails(c, asked) else Answer(c, asked, listing)] + [EndAsk(c, asked)];
  }

  // ---------- the listing of a round ----------

  lemma AskingFacts(
    v: Waiter, w: Waiter, results: map<Id, Status>, left: set<Id>, listing: map<Id, Status>, asked: nat, failed: bool)
    requires Asking(v, w, results, left, listing, asked, failed)
    ensures w.phase == v.phase && w.gate.unasked == left
  {
  }

  lemma AskingBegins(v: Waiter, results: map<Id, Status>, listing: map<Id, Status>)
    requires v.gate == NewGate(J.EmptyJoin(), v.pending) && v.pending == results.Keys
    requires forall r :: r in results ==> results[r] == NotFound
    ensures Asking(v, v, results, results.Keys, listing, 0, false)
  {
  }

  /** One of the first requests of a round throws. */
  ghost predicate SomeFails(round: Round, asked: nat) {
    exists k: nat :: k < asked && round.fails(k)
  }

  /** The callback of the batcher, which is not called for an empty batch. */
  method AskBatch(
    joinSet: J.JoinSet, results: map<Id, Status>, batch: seq<Id>, round: Round, asked: nat, failed: bool,
    ghost s: State, ghost before: seq<Step>, ghost c: nat, ghost v: Waiter, ghost w: Waiter,
    ghost left: set<Id>, ghost maps: Maps, ghost calls: seq<Callback>)
    returns (listed: map<Id, Status>, failed': bool, asked': nat, ghost steps: seq<Step>, ghost u: Waiter)
    requires Shows(s, before, c, w, maps, calls) && joinSet.View() == w.gate.join && v.phase.Listing?
    requires Asking(v, w, results, left, round.listing, asked, failed) && Members(batch) <= left
    requires failed <==> SomeFails(round, asked)
    modifies joinSet
    ensures Shows(s, steps, c, u, maps, calls) && joinSet.View() == u.gate.join
    ensures Asking(v, u, listed, left - Members(batch), round.listing, asked', failed')
    ensures failed' <==> SomeFails(round, asked')
    ensures asked' == asked + (if batch == [] then 0 else 1)
  {
    listed, failed', asked', steps, u := results, failed, asked, before, w;
    if batch == [] {
      assert left - Members(batch) == left;
    } else {
      hide Shows, Asking;
      AskingFacts(v, w, results, left, round.listing, asked, failed);
      listed, steps, u := AskOne(
        joinSet, results, batch, round.fails(asked), round.listing, asked, s, before, c, v, w, left, failed, maps, calls);
      failed', asked' := failed || round.fails(asked), asked + 1;
    }
  }

  /** In the middle of a round: `todo` is still to be handed to the batcher, which holds `requests`. */
  ghost predicate Midway(
    v: Waiter, w: Waiter, listed: map<Id, Status>, todo: set<Id>, requests: seq<Id>, round: Round, asked: nat, failed: bool,
    size: nat, total: nat) {
    && todo !! Members(requests) && |requests| < size
    && Asking(v, w, listed, todo + Members(requests), round.listing, asked, failed)
    && Batching.Batched(asked, size, total, |requests| + |todo|)
    && (failed <==> SomeFails(round, asked))
  }

  /** One more result is to be asked for. */
  method AskNext(
    joinSet: J.JoinSet, batcher: Batching.Batcher<Id>, results: map<Id, Status>, r: Id, round: Round, asked: nat, failed: bool,
    ghost s: State, ghost before: seq<Step>, ghost c: nat, ghost v: Waiter, ghost w: Waiter,
    ghost todo: set<Id>, ghost total: nat, ghost maps: Maps, ghost calls: seq<Callback>)
    returns (listed: map<Id, Status>, failed': bool, asked': nat, ghost steps: seq<Step>, ghost u: Waiter)
    requires Shows(s, before, c, w, maps, calls) && joinSet.View() == w.gate.join && v.phase.Listing? && r in todo
    requires Midway(v, w, results, todo, batcher.requests, round, asked, failed, Max(1, batcher.batchSize), total)
    modifies joinSet, batcher
    ensures Shows(s, steps, c, u, maps, calls) && joinSet.View() == u.gate.join
    ensures Midway(v, u, listed, todo - {r}, batcher.requests, round, asked', failed', Max(1, batcher.batchSize), total)
  {
    hide Shows, Asking, Batching.Batched, Members, SomeFails, Midway;
    ghost var requests, size := batcher.requests, Max(1, batcher.batchSize);
    MidwayFacts(v, w, results, todo, requests, round, asked, failed, size, total);
    var batch := batcher.Add(r);
    OneAdded(requests, todo, r);
    listed, failed', asked', steps, u :=
      AskBatch(joinSet, results, batch, round, asked, failed, s, before, c, v, w, todo + Members(requests), maps, calls);
    MidwayOn(v, w, results, todo, requests, round, asked, failed, size, total, r, batch, u, listed, asked', failed');
  }

  lemma MidwayFacts(
    v: Waiter, w: Waiter, listed: map<Id, Status>, todo: set<Id>, requests: seq<Id>, round: Round, asked: nat, failed: bool,
    size: nat, total: nat)
    requires Midway(v, w, listed, todo, requests, round, asked, failed, size, total)
    ensures todo !! Members(requests) && (failed <==> SomeFails(round, asked))
    ensures Asking(v, w, listed, todo + Members(requests), round.listing, asked, failed)
  {
    hide Asking, Batching.Batched, Members, SomeFails;
  }

  lemma MidwayOn(
    v: Waiter, w: Waiter, listed: map<Id, Status>, todo: set<Id>, requests: seq<Id>, round: Round, asked: nat, failed: bool,
    size: nat, total: nat, r: Id, batch: seq<Id>, u: Waiter, listed': map<Id, Status>, asked': nat, failed': bool)
    requires Midway(v, w, listed, todo, requests, round, asked, failed, size, total) && r in todo
    requires batch == if |requests| + 1 >= size then requests + [r] else []
    requires Asking(v, u, listed', todo + Members(requests) - Members(batch), round.listing, asked', failed')
    requires asked' == asked + (if batch == [] then 0 else 1) && (failed' <==> SomeFails(round, asked'))
    ensures Midway(v, u, listed', todo - {r}, if batch == [] then requests + [r] else [], round, asked', failed', size, total)
  {
    if batch == [] {
      KeepsOne(v, w, listed, todo, requests, round, asked, failed, size, total, r, u, listed', failed');
    } else {
      HandsOver(v, w, listed, todo, requests, round, asked, failed, size, total, r, u, listed', failed');
    }
  }

  lemma KeepsOne(
    v: Waiter, w: Waiter, listed: map<Id, Status>, todo: set<Id>, requests: seq<Id>, round: Round, asked: nat, failed: bool,
    size: nat, total: nat, r: Id, u: Waiter, listed': map<Id, Status>, failed': bool)
    requires Midway(v, w, listed, todo, requests, round, asked, failed, size, total) && r in todo && |requests| + 1 < size
    requires Asking(v, u, listed', todo + Members(requests) - Members([]), round.listing, asked, failed')
    requires failed' <==> SomeFails(round, asked)
    ensures Midway(v, u, listed', todo - {r}, requests + [r], round, asked, failed', size, total)
  {
    hide Asking, Batching.Batched, SomeFails, Members;
    OneAdded(requests, todo, r);
  }

  lemma HandsOver(
    v: Waiter, w: Waiter, listed: map<Id, Status>, todo: set<Id>, requests: seq<Id>, round: Round, asked: nat, failed: bool,
    size: nat, total: nat, r: Id, u: Waiter, listed': map<Id, Status>, failed': bool)
    requires Midway(v, w, listed, todo, requests, round, asked, failed, size, total) && r in todo && |requests| + 1 >= size
    requires Asking(v, u, listed', todo + Members(requests) - Members(requests + [r]), round.listing, asked + 1, failed')
    requires failed' <==> SomeFails(round, asked + 1)
    ensures Midway(v, u, listed', todo - {r}, [], round, asked + 1, failed', size, total)
  {
    hide Asking, Batching.Batched, SomeFails, Members;
    OneAdded(requests, todo, r);
    Batching.OneBatchMore(asked, size, total, |requests| + |todo|);
  }

  /** All requests of a round, each as soon as its batch is full. */
  method AskAll(
    joinSet: J.JoinSet, batcher: Batching.Batcher<Id>, results: map<Id, Status>, round: Round,
    ghost s: State, ghost before: seq<Step>, ghost c: nat, ghost v: Waiter, ghost maps: Maps, ghost calls: seq<Callback>)
    returns (listed: map<Id, Status>, failed: bool, asked: nat, ghost steps: seq<Step>, ghost u: Waiter)
    requires Shows(s, before, c, v, maps, calls) && joinSet.View() == v.gate.join && v.phase.Listing?
    requires Asking(v, v, results, results.Keys, round.listing, 0, false) && batcher.requests == []
    modifies joinSet, batcher
    ensures Shows(s, steps, c, u, maps, calls) && joinSet.View() == u.gate.join && batcher.requests == []
    ensures Asking(v, u, listed, {}, round.listing, asked, failed)
    ensures failed <==> SomeFails(round, asked)
    ensures RoundedUp(|results|, Max(1, batcher.batchSize), asked)
  {
    listed, failed, asked, steps, u := results, false, 0, before, v;
    var todo := results.Keys;
    ghost var size := Max(1, batcher.batchSize);
    MidwayBegins(v, results, round, size);
    hide Shows, Asking, Midway, SomeFails, RoundedUp, Batching.Batched, Members;
    while todo != {}
      invariant Shows(s, steps, c, u, maps, calls) && joinSet.View() == u.gate.join
      invariant Midway(v, u, listed, todo, batcher.requests, round, asked, failed, size, |results|)
      decreases todo
    {
      var r :| r in todo;
      listed, failed, asked, steps, u := AskNext(
        joinSet, batcher, listed, r, round, asked, failed, s, steps, c, v, u, todo, |results|, maps, calls);
      todo := todo - {r};
    }
    var batch := batcher.ProcessBatch();
    MidwayEnds(v, u, listed, batch, round, asked, failed, size, |results|);
    listed, failed, asked, steps, u :=
      AskBatch(joinSet, listed, batch, round, asked, failed, s, steps, c, v, u, Members(batch), maps, calls);
  }

  lemma MidwayBegins(v: Waiter, results: map<Id, Status>, round: Round, size: nat)
    requires Asking(v, v, results, results.Keys, round.listing, 0, false) && size > 0
    ensures Midway(v, v, results, results.Keys, [], round, 0, false, size, |results|)
  {
    hide Asking, Batching.Batched;
    Batching.NoBatches(size, |results|);
    assert results.Keys + Members([]) == results.Keys && |results| == |results.Keys|;
  }

  lemma MidwayEnds(
    v: Waiter, w: Waiter, listed: map<Id, Status>, requests: seq<Id>, round: Round, asked: nat, failed: bool, size: nat, total: nat)
    requires Midway(v, w, listed, {}, requests, round, asked, failed, size, total)
    ensures Asking(v, w, listed, Members(requests), round.listing, asked, failed)
    ensures failed <==> SomeFails(round, asked)
    ensures RoundedUp(total, size, asked + (if requests == [] then 0 else 1))
    ensures Members(requests) - Members(requests) == {}
  {
    hide Asking, Batching.Batched, RoundedUp;
    assert {} + Members(requests) == Members(requests);
    if requests == [] {
      Batching.NoBatchLeft(asked, size, total);
    } else {
      Batching.LastBatch(asked, size, total, |requests|);
    }
  }

  /** One more id is with the batcher, which keeps it or hands over all it has. */
  lemma OneAdded(requests: seq<Id>, todo: set<Id>, r: Id)
    requires r in todo && todo !! Members(requests)
    ensures Members(requests + [r]) <= todo + Members(requests) && todo - {r} !! Members(requests + [r])
    ensures todo + Members(requests) == todo - {r} + Members(requests + [r])
    ensures todo + Members(requests) - Members(requests + [r]) == todo - {r} + Members([])
    ensures todo + Members(requests) - Members([]) == todo + Members(requests)
    ensures todo - {r} !! Members([]) && Members([]) <= todo
    ensures |todo - {r}| == |todo| - 1
  {
    MembersSnoc(requests, r);
    assert Members([]) == {};
    hide Members;
  }

  // ---------- the deliveries of a round ----------

  /** The deliveries that were over before, and those of one round, which went as `outcome` says. */
  ghost predicate DoneWith(v: Waiter, w: Waiter, round: int, outcome: Id -> Outcome) {
    forall r :: r in w.done ==>
      || (r in v.done && w.done[r] == v.done[r])
      || (&& r in v.due && w.done[r].extract.round == round
          && w.done[r].extract.status == v.due[r] && w.done[r].outcome == outcome(r))
  }

  /** Part of the deliveries are over: all but `todo`. */
  ghost predicate Delivers(v: Waiter, w: Waiter, todo: map<Id, Status>, outcome: Id -> Outcome, error: bool, escaped: bool) {
    && w == v.(due := todo, done := w.done, hasError := v.hasError || error, escaped := escaped,
               gate := v.gate.(join := w.gate.join))
    && v.running == map[] && v.listings != [] && v.gate.ending == {} && v.phase.Delivering?
    && todo.Keys <= v.due.Keys && (forall r :: r in todo ==> todo[r] == v.due[r])
    && Plain(w.gate.join, |todo|, escaped)
    && DoneWith(v, w, |v.listings| - 1, outcome)
  }

  lemma DeliveriesBegin(v: Waiter, outcome: Id -> Outcome)
    requires v.running == map[] && v.listings != [] && v.gate.ending == {} && v.phase.Delivering? && !v.escaped
    requires Plain(v.gate.join, |v.due|, false)
    ensures Delivers(v, v, v.due, outcome, false, false)
  {
  }

  /** What a delivery makes of the waiter in the end. */
  function OneDelivery(w: Waiter, r: Id, e: Extraction, o: Outcome): Waiter
    requires r in w.due && w.listings != [] && w.gate.join.count > 0
  {
    var f := FinishedBy(TakenBy(w, r, e), r, o);
    f.(gate := DeliveryEnded(f.gate, r))
  }

  lemma FinishedOnce(w: Waiter, r: Id, e: Extraction, o: Outcome)
    requires r in w.due && w.listings != [] && w.gate.join.count > 0
    ensures var t := TakenBy(w, r, e);
            && r in t.running && DeliveryOf(t.running[r], r, o) == Delivered(e.handler, e.task, r, w.due[r], o)
            && r in FinishedBy(t, r, o).gate.ending && FinishedBy(t, r, o).gate.join.count > 0
  {
    hide Delivered;
  }

  lemma OneDeliveryShows(s: State, steps: seq<Step>, c: nat, w: Waiter, maps: Maps, calls: seq<Callback>, r: Id, o: Outcome)
    requires Shows(s, steps, c, w, maps, calls) && r in w.due && w.listings != [] && w.gate.join.count > 0
    ensures var e := Extracted(maps, r);
            Shows(s, steps + [Take(c, r)] + [Finish(c, r, o)] + [EndDelivery(c, r)], c, OneDelivery(w, r, e, o),
                  e.maps, calls + Delivered(e.handler, e.task, r, w.due[r], o).calls)
  {
    hide Shows, Extracted, Delivered, TakenBy, FinishedBy, DeliveryOf, DeliveryEnded;
    var e := Extracted(maps, r);
    var t := TakenBy(w, r, e);
    var d := Delivered(e.handler, e.task, r, w.due[r], o);
    FinishedOnce(w, r, e, o);
    TakeShows(s, steps, c, w, maps, calls, r);
    FinishShows(s, steps + [Take(c, r)], c, t, e.maps, calls, r, o);
    EndDeliveryShows(s, steps + [Take(c, r)] + [Finish(c, r, o)], c, FinishedBy(t, r, o), e.maps, calls + d.calls, r);
  }

  /** Its half of the join set. */
  lemma OneDeliveryJoin(w: Waiter, r: Id, e: Extraction, o: Outcome)
    requires r in w.due && w.listings != [] && w.gate.join.count > 0
    ensures var join := w.gate.join;
            var d := Delivered(e.handler, e.task, r, w.due[r], o);
            OneDelivery(w, r, e, o).gate.join
            == J.Decremented(if d.escapes then J.ErrorRecorded(join, |w.listings| - 1) else join)
  {
    hide Delivered;
  }

  /** What the delivery leaves as it was, and what it adds. */
  lemma OneDeliveryFields(w: Waiter, r: Id, e: Extraction, o: Outcome)
    requires r in w.due && w.running == map[] && w.listings != [] && w.gate.ending == {} && w.gate.join.count > 0
    ensures var u, d := OneDelivery(w, r, e, o), Delivered(e.handler, e.task, r, w.due[r], o);
            && u == w.(due := w.due - {r}, done := u.done, hasError := w.hasError || d.error, escaped := w.escaped || d.escapes,
                       gate := w.gate.(join := u.gate.join))
            && u.done == w.done[r := Report(Extract(w.due[r], |w.listings| - 1, e.handler, e.task), o)]
  {
    hide Delivered, J.ErrorRecorded, J.Decremented;
    var t := TakenBy(w, r, e);
    assert t.running - {r} == map[];
    assert w.gate.ending + {r} - {r} == w.gate.ending;
  }

  lemma DoneMore(v: Waiter, w: Waiter, u: Waiter, round: int, outcome: Id -> Outcome, r: Id, e: Extraction)
    requires DoneWith(v, w, round, outcome) && r in v.due && 0 <= round
    requires u.done == w.done[r := Report(Extract(v.due[r], round, e.handler, e.task), outcome(r))]
    ensures DoneWith(v, u, round, outcome)
  {
  }

  lemma OnePlain(join: J.Join, count: nat, escaped: bool, escapes: bool, work: nat)
    requires Plain(join, count, escaped) && count > 0
    ensures Plain(J.Decremented(if escapes then J.ErrorRecorded(join, work) else join), count - 1, escaped || escapes)
  {
  }

  lemma OneDeliveryDelivers(
    v: Waiter, w: Waiter, todo: map<Id, Status>, outcome: Id -> Outcome, error: bool, escaped: bool, r: Id, e: Extraction)
    requires Delivers(v, w, todo, outcome, error, escaped) && r in todo && w.gate.join.count > 0
    ensures var d := Delivered(e.handler, e.task, r, todo[r], outcome(r));
            Delivers(v, OneDelivery(w, r, e, outcome(r)), todo - {r}, outcome, error || d.error, escaped || d.escapes)
  {
    hide Delivered, OneDelivery, DoneWith, Plain;
    var d := Delivered(e.handler, e.task, r, todo[r], outcome(r));
    var round: int := |v.listings| - 1;
    OneDeliveryFields(w, r, e, outcome(r));
    OneDeliveryJoin(w, r, e, outcome(r));
    LessToDo(todo, r);
    OnePlain(w.gate.join, |todo|, escaped, d.escapes, |w.listings| - 1);
    DoneMore(v, w, OneDelivery(w, r, e, outcome(r)), round, outcome, r, e);
  }

  lemma DeliversFacts(v: Waiter, w: Waiter, todo: map<Id, Status>, outcome: Id -> Outcome, error: bool, escaped: bool)
    requires Delivers(v, w, todo, outcome, error, escaped)
    ensures w.due == todo && w.listings == v.listings != [] && w.gate.join.count == |todo| && w.phase.Delivering?
  {
  }

  /** As many task objects as there are deliveries. */
  method SpawnAll(joinSet: J.JoinSet, n: nat) returns (tasks: seq<J.Task>)
    modifies joinSet
    ensures joinSet.View() == Spawns(old(joinSet.View()), n)
    ensures |tasks| == n && forall k :: 0 <= k < n ==> tasks[k].joinSet == joinSet
  {
    tasks := [];
    for k := 0 to n
      invariant joinSet.View() == Spawns(old(joinSet.View()), k)
      invariant |tasks| == k && forall i :: 0 <= i < k ==> tasks[i].joinSet == joinSet
    {
      var task := new J.Task(k, joinSet);
      tasks := tasks + [task];
    }
  }

  /** One spawned function, to the destructor of its task object. */
  method Deliver(session: Session, joinSet: J.JoinSet, task: J.Task, r: Id, status: Status, o: Outcome, round: nat)
    returns (delivery: Delivery)
    requires task.joinSet == joinSet && joinSet.taskCount > 0
    modifies session, joinSet
    ensures var e := Extracted(old(session.View()), r);
            session.View() == e.maps && delivery == Delivered(e.handler, e.task, r, status, o)
    ensures var join := old(joinSet.View());
            joinSet.View() == J.Decremented(if delivery.escapes then J.ErrorRecorded(join, round) else join)
  {
    hide Extracted, Delivered, J.ErrorRecorded, J.Decremented;
    delivery := session.HandleResult(r, status, o);
    if delivery.escapes {
      ErrorKeepsCount(joinSet.View(), round);
      joinSet.RecordError(round);
    }
    task.Destroy();
  }

  /** The spawned functions of one round, one after the other. */
  method DeliverAll(
    session: Session, joinSet: J.JoinSet, due: map<Id, Status>, tasks: seq<J.Task>, outcome: Id -> Outcome, round: nat,
    ghost s: State, ghost before: seq<Step>, ghost c: nat, ghost v: Waiter, ghost already: seq<Callback>)
    returns (calls: seq<Callback>, error: bool, escaped: bool, ghost steps: seq<Step>, ghost u: Waiter)
    requires Shows(s, before, c, v, session.View(), already) && Delivers(v, v, due, outcome, false, false)
    requires |v.listings| == round + 1 && joinSet.View() == v.gate.join
    requires |tasks| == |due| && forall k :: 0 <= k < |tasks| ==> tasks[k].joinSet == joinSet
    modifies session, joinSet
    ensures Shows(s, steps, c, u, session.View(), already + calls) && joinSet.View() == u.gate.join
    ensures Delivers(v, u, map[], outcome, error, escaped)
  {
    hide Extracted, Delivered, Shows, Delivers, OneDelivery, J.ErrorRecorded, J.Decremented;
    calls, error, escaped, steps, u := [], false, false, before, v;
    assert already + [] == already;
    var todo, k := due, 0;
    while todo != map[]
      invariant k + |todo| == |tasks| && joinSet.View() == u.gate.join
      invariant forall i :: 0 <= i < |tasks| ==> tasks[i].joinSet == joinSet
      invariant Shows(s, steps, c, u, session.View(), already + calls) && Delivers(v, u, todo, outcome, error, escaped)
      decreases |todo|
    {
      var r :| r in todo;
      DeliversFacts(v, u, todo, outcome, error, escaped);
      LessToDo(todo, r);
      OneDeliveryShows(s, steps, c, u, session.View(), already + calls, r, outcome(r));
      ghost var e := Extracted(session.View(), r);
      OneDeliveryJoin(u, r, e, outcome(r));
      OneDeliveryDelivers(v, u, todo, outcome, error, escaped, r, e);
      var delivery := Deliver(session, joinSet, tasks[k], r, todo[r], outcome(r), round);
      assert already + calls + delivery.calls == already + (calls + delivery.calls);
      steps := steps + [Take(c, r)] + [Finish(c, r, outcome(r))] + [EndDelivery(c, r)];
      u := OneDelivery(u, r, e, outcome(r));
      calls, todo, k := calls + delivery.calls, todo - {r}, k + 1;
      error, escaped := error || delivery.error, escaped || delivery.escapes;
    }
  }

  lemma LessToDo(todo: map<Id, Status>, r: Id)
    requires r in todo
    ensures |todo - {r}| == |todo| - 1
  {
    assert (todo - {r}).Keys == todo.Keys - {r} && |todo| == |todo.Keys|;
  }

  // ---------- the barriers ----------

  /** What a pass of Wait does when all task objects are gone. */
  lemma PlainWaited(join: J.Join, failed: bool)
    requires Plain(join, 0, failed)
    ensures var (left, outcome) := J.Waited(join, CLIENT, J.ForTasks);
            left == J.EmptyJoin() && outcome.Some? && (outcome == Some(J.Returned) <==> !failed)
  {
    assert join.waiters - {CLIENT} == map[];
  }

  /** And the destructor after it. */
  lemma EmptyWaited()
    ensures J.Waited(J.EmptyJoin(), CLIENT, J.ForDestruction) == (J.EmptyJoin(), Some(J.Returned))
  {
    assert J.EmptyJoin().waiters - {CLIENT} == map[];
  }

  /** The call of Wait at a barrier; if it throws, the join set is destroyed on the way out. */
  method Barrier(joinSet: J.JoinSet, ghost failed: bool) returns (thrown: bool)
    requires Plain(joinSet.View(), 0, failed)
    modifies joinSet
    ensures joinSet.View() == J.EmptyJoin() && thrown == failed
  {
    PlainWaited(joinSet.View(), failed);
    EmptyWaited();
    hide J.Waited;
    var outcome := joinSet.Wait(CLIENT, J.ForTasks);
    thrown := outcome != Some(J.Returned);
    if thrown {
      outcome := joinSet.Wait(CLIENT, J.ForDestruction);
      assert outcome == Some(J.Returned);
    }
  }

  lemma UnwindsAtOnce(w: Waiter)
    requires w.gate.join == J.EmptyJoin()
    ensures Unwound(w) == w.(phase := Thrown)
  {
    EmptyWaited();
    hide J.Waited;
  }

  // ---------- one round ----------

  /** The variables of the loop and the waiter they stand for. */
  ghost predicate Waiting(w: Waiter, results: map<Id, Status>, rounds: nat) {
    && w.pending == results.Keys && w.due == map[] && w.running == map[] && !w.escaped && |w.listings| == rounds
    && w.gate == NewGate(J.EmptyJoin(), w.pending)
    && forall r :: r in results ==> results[r] == NotFound
  }

  /** The same call. */
  ghost predicate SameCall(v: Waiter, w: Waiter) {
    w.initial == v.initial && w.any == v.any && w.breakOnError == v.breakOnError
  }

  /** The sweep has split what was pending by what this round lists. */
  ghost predicate Split(v: Waiter, w: Waiter, listing: map<Id, Status>) {
    && SameCall(v, w) && w.hasError == v.hasError && w.done == v.done && w.running == map[] && !w.escaped
    && w.phase.Delivering? && |w.listings| == |v.listings| + 1 && w.gate.ending == {}
    && w.pending == (set r | r in v.pending && StatusIn(listing, r).Created?)
    && w.due == (map r | r in v.pending && !StatusIn(listing, r).Created? :: StatusIn(listing, r))
  }

  lemma ListingSplits(
    v: Waiter, w: Waiter, results: map<Id, Status>, listed: map<Id, Status>, listing: map<Id, Status>, asked: nat)
    requires Waiting(v, results, |v.listings|) && Asking(v, w, listed, {}, listing, asked, false)
    ensures var u := Spread(w, J.EmptyJoin());
            && Split(v, u, listing) && u.gate.join == J.EmptyJoin().(count := |u.due|)
            && u.pending == (set r | r in listed && listed[r].Created?)
            && u.due == (map r | r in listed && !listed[r].Created? :: listed[r])
  {
    assert w.gate.unasked == {} && listed.Keys == v.pending && w == v.(gate := w.gate);
    assert forall r :: r in listed ==> listed[r] == StatusIn(w.gate.heard, r) == StatusIn(listing, r);
    SameSplit(listed, w.gate.heard, v.pending);
    SameSplit(listed, listing, v.pending);
    SpreadFacts(w);
    hide Spread, Asking, Plain, NewGate, StatusIn;
  }

  /** The statuses of a round split what is pending as its listing does. */
  lemma SameSplit(listed: map<Id, Status>, listing: map<Id, Status>, pending: set<Id>)
    requires listed.Keys == pending && forall r :: r in listed ==> listed[r] == StatusIn(listing, r)
    ensures (set r | r in pending && StatusIn(listing, r).Created?) == (set r | r in listed && listed[r].Created?)
    ensures (map r | r in pending && !StatusIn(listing, r).Created? :: StatusIn(listing, r))
         == (map r | r in listed && !listed[r].Created? :: listed[r])
  {
    hide StatusIn;
  }

  lemma SpreadFacts(w: Waiter)
    ensures var u, v := Spread(w, J.EmptyJoin()), Swept(w, w.gate.heard);
            && u == v.(gate := u.gate) && u.gate.ending == {} && u.gate.join == J.EmptyJoin().(count := |u.due|)
  {
    var u := Swept(w, w.gate.heard);
    assert |u.due.Keys| == |u.due|;
    hide Swept;
  }

  /** The steps at a barrier: a pass of Wait, and of the destructor if it throws. */
  function AtBarrier(pass: Step, c: nat, thrown: bool): seq<Step> {
    if thrown then [pass] + [Unwind(c)] else [pass]
  }

  lemma ListingEnds(
    s: State, steps: seq<Step>, c: nat, v: Waiter, w: Waiter, maps: Maps, calls: seq<Callback>,
    listed: map<Id, Status>, listing: map<Id, Status>, asked: nat, failed: bool)
    requires Shows(s, steps, c, w, maps, calls) && Asking(v, w, listed, {}, listing, asked, failed) && v.phase.Listing?
    ensures Plain(w.gate.join, 0, failed)
    ensures Shows(s, steps + AtBarrier(PassListing(c), c, failed), c,
                  if failed then Held(w, J.EmptyJoin(), true).(phase := Thrown) else Spread(w, J.EmptyJoin()), maps, calls)
  {
    hide Shows, Spread;
    PlainWaited(w.gate.join, failed);
    hide J.Waited, Plain;
    PassListingShows(s, steps, c, w, maps, calls);
    if failed {
      var u := Held(w, J.EmptyJoin(), true);
      UnwindShows(s, steps + [PassListing(c)], c, u, maps, calls);
      UnwindsAtOnce(u);
      assert steps + AtBarrier(PassListing(c), c, failed) == steps + [PassListing(c)] + [Unwind(c)];
    }
  }

  lemma RoundEnds(
    s: State, steps: seq<Step>, c: nat, v: Waiter, w: Waiter, maps: Maps, calls: seq<Callback>,
    outcome: Id -> Outcome, error: bool, escaped: bool, past: bool)
    requires Shows(s, steps, c, w, maps, calls) && Delivers(v, w, map[], outcome, error, escaped)
    ensures Plain(w.gate.join, 0, escaped)
    ensures Shows(s, steps + AtBarrier(EndRound(c, past), c, escaped), c,
                  if escaped then Held(w, J.EmptyJoin(), true).(phase := Thrown) else Resumed(w, past, J.EmptyJoin()), maps, calls)
  {
    hide Shows, Resumed, DoneWith;
    PlainWaited(w.gate.join, escaped);
    hide J.Waited, Plain;
    EndRoundShows(s, steps, c, w, maps, calls, past);
    if escaped {
      var u := Held(w, J.EmptyJoin(), true);
      UnwindShows(s, steps + [EndRound(c, past)], c, u, maps, calls);
      UnwindsAtOnce(u);
      assert steps + AtBarrier(EndRound(c, past), c, escaped) == steps + [EndRound(c, past)] + [Unwind(c)];
    }
  }

  // ---------- what the rounds said ----------

  ghost predicate CreatedIn(rounds: seq<Round>, n: nat, r: Id)
    requires n <= |rounds|
  {
    forall k :: 0 <= k < n ==> StatusIn(rounds[k].listing, r).Created?
  }

  /** What is pending after `n` rounds. */
  ghost function StillCreated(initial: set<Id>, rounds: seq<Round>, n: nat): set<Id>
    requires n <= |rounds|
  {
    set r | r in initial && CreatedIn(rounds, n, r)
  }

  /**
   * The waiter has acted on what the rounds say, and on nothing else: pending is what each of them lists as created, and
   * a delivery went as its round says, which is the first to list its result as anything else.
   */
  ghost predicate SaidSo(w: Waiter, rounds: seq<Round>) {
    && |w.listings| <= |rounds|
    && w.pending == StillCreated(w.initial, rounds, |w.listings|)
    && forall r :: r in w.done ==> DoneAs(w.done[r], r, rounds, |w.listings|)
  }

  ghost predicate DoneAs(report: Report, r: Id, rounds: seq<Round>, n: nat)
    requires n <= |rounds|
  {
    var x := report.extract;
    && x.round < n && CreatedIn(rounds, x.round, r) && !x.status.Created?
    && x.status == StatusIn(rounds[x.round].listing, r) && report.outcome == rounds[x.round].outcome(r)
  }

  lemma SaidNothing(w: Waiter, rounds: seq<Round>)
    requires w.listings == [] && w.done == map[] && w.pending == w.initial
    ensures SaidSo(w, rounds)
  {
  }

  lemma SaidTheSame(v: Waiter, w: Waiter, rounds: seq<Round>)
    requires SaidSo(v, rounds) && w.initial == v.initial
    requires w.listings == v.listings && w.pending == v.pending && w.done == v.done
    ensures SaidSo(w, rounds)
  {
    hide DoneAs, CreatedIn;
  }

  lemma SaidMore(v: Waiter, w: Waiter, u: Waiter, rounds: seq<Round>)
    requires SaidSo(v, rounds) && |v.listings| < |rounds| && Split(v, w, rounds[|v.listings|].listing)
    requires u.initial == w.initial && u.listings == w.listings && u.pending == w.pending
    requires DoneWith(w, u, |v.listings|, rounds[|v.listings|].outcome)
    ensures SaidSo(u, rounds)
  {
    var n := |v.listings|;
    assert forall r :: r in v.pending ==> CreatedIn(rounds, n, r);
    forall r ensures r in u.pending <==> r in u.initial && CreatedIn(rounds, n + 1, r) {
      assert CreatedIn(rounds, n + 1, r) <==> CreatedIn(rounds, n, r) && StatusIn(rounds[n].listing, r).Created?;
    }
    forall r | r in u.done ensures DoneAs(u.done[r], r, rounds, n + 1) {
      if r in v.done && u.done[r] == v.done[r] {
        assert DoneAs(v.done[r], r, rounds, n);
      } else {
        assert r in w.due && CreatedIn(rounds, n, r);
      }
    }
  }

  // ---------- the loop ----------

  /** The first half of a round: the listing requests and their barrier, which throws when one of them has. */
  method ListRound(
    joinSet: J.JoinSet, batcher: Batching.Batcher<Id>, results: map<Id, Status>, round: Round,
    ghost s: State, ghost before: seq<Step>, ghost c: nat, ghost v: Waiter, ghost maps: Maps, ghost calls: seq<Callback>)
    returns (listed: map<Id, Status>, asked: nat, thrown: bool, ghost steps: seq<Step>, ghost u: Waiter)
    requires Shows(s, before, c, v, maps, calls) && Waiting(v, results, |v.listings|) && v.phase.Listing?
    requires joinSet.View() == J.EmptyJoin() && batcher.requests == []
    modifies joinSet, batcher
    ensures Shows(s, steps, c, u, maps, calls) && joinSet.View() == J.EmptyJoin() && batcher.requests == []
    ensures RoundedUp(|results|, Max(1, batcher.batchSize), asked) && (thrown <==> SomeFails(round, asked))
    ensures thrown ==> u == v.(phase := Thrown, gate := u.gate)
    ensures !thrown ==>
              && Split(v, u, round.listing) && u.gate.join == J.EmptyJoin().(count := |u.due|)
              && u.pending == (set r | r in listed && listed[r].Created?)
              && u.due == (map r | r in listed && !listed[r].Created? :: listed[r])
  {
    AskingBegins(v, results, round.listing);
    assert joinSet.View() == v.gate.join;
    hide Shows, Asking, Waiting, Split, Plain, Spread, RoundedUp, SomeFails;
    ghost var w;
    listed, thrown, asked, steps, w := AskAll(joinSet, batcher, results, round, s, before, c, v, maps, calls);
    ListingEnds(s, steps, c, v, w, maps, calls, listed, round.listing, asked, thrown);
    steps := steps + AtBarrier(PassListing(c), c, thrown);
    thrown := Barrier(joinSet, thrown);
    if thrown {
      u := Held(w, J.EmptyJoin(), true).(phase := Thrown);
      OnlyGate(v, w, listed, round.listing, asked, thrown);
    } else {
      u := Spread(w, J.EmptyJoin());
      ListingSplits(v, w, results, listed, round.listing, asked);
    }
  }

  lemma OnlyGate(v: Waiter, w: Waiter, listed: map<Id, Status>, listing: map<Id, Status>, asked: nat, failed: bool)
    requires Asking(v, w, listed, {}, listing, asked, failed)
    ensures w == v.(gate := w.gate)
  {
  }

  /** A round is over, with an exception or without. */
  ghost predicate RoundOver(v: Waiter, w: Waiter, kept: map<Id, Status>, error: bool, thrown: bool, past: bool) {
    && SameCall(v, w) && |w.listings| == |v.listings| + 1
    && if thrown then w.phase.Thrown?
       else
         && Waiting(w, kept, |v.listings| + 1) && w.hasError == (v.hasError || error) && w.past == past
         && w.phase == if Breaks(w) || kept == map[] then Returned else Listing
  }

  /** The second half: the sweep, the deliveries, their barrier, which throws when an exception has escaped. */
  method DeliverRound(
    session: Session, joinSet: J.JoinSet, listed: map<Id, Status>, round: Round, number: nat, ghost s: State,
    ghost before: seq<Step>, ghost c: nat, ghost v: Waiter, ghost w: Waiter, ghost rounds: seq<Round>, ghost already: seq<Callback>)
    returns (
      kept: map<Id, Status>, calls: seq<Callback>, error: bool, thrown: bool, ghost steps: seq<Step>, ghost u: Waiter)
    requires Shows(s, before, c, w, session.View(), already) && joinSet.View() == J.EmptyJoin()
    requires SaidSo(v, rounds) && |v.listings| == number < |rounds| && round == rounds[number]
    requires Split(v, w, round.listing) && w.gate.join == J.EmptyJoin().(count := |w.due|)
    requires w.pending == (set r | r in listed && listed[r].Created?)
    requires w.due == (map r | r in listed && !listed[r].Created? :: listed[r])
    modifies session, joinSet
    ensures Shows(s, steps, c, u, session.View(), already + calls) && joinSet.View() == J.EmptyJoin()
    ensures RoundOver(v, u, kept, error, thrown, round.past) && SaidSo(u, rounds)
  {
    hide Shows, SaidSo, Plain, Split, Delivers, RoundOver, Resumed, Held;
    var due;
    kept, due := Sweep(listed);
    SplitFacts(v, w, round.listing, round.outcome);
    var tasks := SpawnAll(joinSet, |due|);
    ghost var x;
    calls, error, thrown, steps, x := DeliverAll(
      session, joinSet, due, tasks, round.outcome, number, s, before, c, w, already);
    RoundEnds(s, steps, c, w, x, session.View(), already + calls, round.outcome, error, thrown, round.past);
    u := if thrown then Held(x, J.EmptyJoin(), true).(phase := Thrown) else Resumed(x, round.past, J.EmptyJoin());
    RoundIsOver(v, w, x, u, rounds, kept, error, thrown);
    steps := steps + AtBarrier(EndRound(c, round.past), c, thrown);
    thrown := Barrier(joinSet, thrown);
  }

  lemma SplitFacts(v: Waiter, w: Waiter, listing: map<Id, Status>, outcome: Id -> Outcome)
    requires Split(v, w, listing) && w.gate.join == J.EmptyJoin().(count := |w.due|)
    ensures Delivers(w, w, w.due, outcome, false, false) && |w.listings| == |v.listings| + 1
  {
    DeliveriesBegin(w, outcome);
    hide Delivers;
  }

  lemma RoundIsOver(
    v: Waiter, w: Waiter, x: Waiter, u: Waiter, rounds: seq<Round>, kept: map<Id, Status>, error: bool, escaped: bool)
    requires SaidSo(v, rounds) && |v.listings| < |rounds|
    requires var round := rounds[|v.listings|];
             && Split(v, w, round.listing) && Delivers(w, x, map[], round.outcome, error, escaped)
             && u == (if escaped then Held(x, J.EmptyJoin(), true).(phase := Thrown) else Resumed(x, round.past, J.EmptyJoin()))
    requires w.pending == kept.Keys && forall r :: r in kept ==> kept[r] == NotFound
    ensures RoundOver(v, u, kept, error, escaped, rounds[|v.listings|].past) && SaidSo(u, rounds)
  {
    SaidMore(v, w, u, rounds);
    hide SaidSo;
  }

  /** The loop is at its test, for a call that began as `start`. */
  ghost predicate Going(start: Waiter, w: Waiter, results: map<Id, Status>, rounds: nat, hasError: bool) {
    && Waiting(w, results, rounds) && SameCall(start, w) && w.hasError == hasError
    && w.phase == if results == map[] then Returned else Listing
  }

  /** What the tests at the end of a round find. */
  predicate Leaves(w: Waiter, kept: nat, hasError: bool, past: bool) {
    (w.any && kept < |w.initial|) || (w.breakOnError && hasError) || past
  }

  lemma GoesOn(
    start: Waiter, v: Waiter, w: Waiter, results: map<Id, Status>, rounds: nat, hasError: bool,
    kept: map<Id, Status>, error: bool, thrown: bool, past: bool)
    requires Going(start, v, results, rounds, hasError) && RoundOver(v, w, kept, error, thrown, past)
    ensures SameCall(start, w) && |w.listings| == rounds + 1
    ensures if thrown then w.phase.Thrown?
            else if Leaves(start, |kept|, hasError || error, past) then w.phase.Returned?
            else Going(start, w, kept, rounds + 1, hasError || error)
  {
    assert |kept| == |kept.Keys|;
  }

  lemma NoMoreRounds(start: Waiter, v: Waiter, results: map<Id, Status>, rounds: nat, hasError: bool)
    requires Going(start, v, results, rounds, hasError)
    ensures SameCall(start, v) && v.phase == (if results == map[] then Returned else Listing)
    ensures |v.listings| == rounds && Waiting(v, results, |v.listings|)
  {
  }

  lemma GoingBegins(initial: set<Id>, any: bool, breakOnError: bool, results: map<Id, Status>)
    requires results.Keys == initial && forall r :: r in results ==> results[r] == NotFound
    ensures var w := NewWaiter(initial, any, breakOnError);
            Going(w, w, results, 0, false) && w.initial == initial && w.any == any && w.breakOnError == breakOnError
  {
  }

  /**
   * The listing requests of each round: as many as the results that are pending, divided by the batch size, rounded up. One of
   * them throws in the last round only, and then that round lists nothing.
   */
  ghost predicate AskedAs(w: Waiter, rounds: seq<Round>, asked: seq<nat>, batchSize: nat) {
    && |w.listings| <= |asked| <= |rounds|
    && forall k :: 0 <= k < |asked| ==> RoundAsked(w, rounds, k, asked[k], batchSize)
  }

  ghost predicate RoundAsked(w: Waiter, rounds: seq<Round>, k: nat, asked: nat, batchSize: nat)
    requires k < |rounds|
  {
    && RoundedUp(|StillCreated(w.initial, rounds, k)|, Max(1, batchSize), asked)
    && (SomeFails(rounds[k], asked) <==> k == |w.listings|)
  }

  lemma AskedMore(v: Waiter, w: Waiter, rounds: seq<Round>, asked: seq<nat>, more: nat, batchSize: nat)
    requires AskedAs(v, rounds, asked, batchSize) && |asked| == |v.listings| < |rounds| && w.initial == v.initial
    requires RoundAsked(w, rounds, |asked|, more, batchSize) && |v.listings| <= |w.listings| <= |asked| + 1
    ensures AskedAs(w, rounds, asked + [more], batchSize)
  {
    hide RoundedUp, SomeFails, StillCreated;
    forall k | 0 <= k < |asked| ensures RoundAsked(w, rounds, k, asked[k], batchSize) {
      assert RoundAsked(v, rounds, k, asked[k], batchSize);
    }
  }

  lemma PendingCount(start: Waiter, v: Waiter, results: map<Id, Status>, rounds: seq<Round>, k: nat, hasError: bool)
    requires Going(start, v, results, k, hasError) && SaidSo(v, rounds)
    ensures k <= |rounds| && |results| == |StillCreated(v.initial, rounds, k)| && v.initial == start.initial
  {
    assert |results| == |results.Keys|;
    hide StillCreated, DoneAs;
  }

  /** One turn of the loop. */
  method WaitRound(
    session: Session, joinSet: J.JoinSet, batcher: Batching.Batcher<Id>, results: map<Id, Status>, rounds: seq<Round>, k: nat,
    ghost hasError: bool, ghost s: State, ghost before: seq<Step>, ghost c: nat, ghost start: Waiter, ghost v: Waiter,
    ghost already: seq<Callback>)
    returns (
      kept: map<Id, Status>, asked: nat, calls: seq<Callback>, error: bool, thrown: bool,
      ghost steps: seq<Step>, ghost w: Waiter)
    requires Shows(s, before, c, v, session.View(), already) && SaidSo(v, rounds) && k < |rounds|
    requires Going(start, v, results, k, hasError) && results != map[]
    requires joinSet.View() == J.EmptyJoin() && batcher.requests == []
    modifies session, joinSet, batcher
    ensures Shows(s, steps, c, w, session.View(), already + calls) && SaidSo(w, rounds)
    ensures joinSet.View() == J.EmptyJoin() && batcher.requests == [] && SameCall(start, w)
    ensures RoundAsked(w, rounds, k, asked, batcher.batchSize) && k <= |w.listings| <= k + 1
    ensures !thrown ==> |w.listings| == k + 1
    ensures if thrown then w.phase.Thrown?
            else if Leaves(start, |kept|, hasError || error, rounds[k].past) then w.phase.Returned?
            else Going(start, w, kept, k + 1, hasError || error)
  {
    hide Shows, SaidSo, Waiting, RoundOver, Split, Going, RoundedUp, SomeFails, StillCreated;
    NoMoreRounds(start, v, results, k, hasError);
    PendingCount(start, v, results, rounds, k, hasError);
    ghost var x;
    var listed;
    listed, asked, thrown, steps, w := ListRound(joinSet, batcher, results, rounds[k], s, before, c, v, session.View(), already);
    if thrown {
      SaidTheSame(v, w, rounds);
      assert already + [] == already;
      kept, calls, error := results, [], false;
    } else {
      kept, calls, error, thrown, steps, x :=
        DeliverRound(session, joinSet, listed, rounds[k], k, s, steps, c, v, w, rounds, already);
      GoesOn(start, v, x, results, k, hasError, kept, error, thrown, rounds[k].past);
      w := x;
    }
  }

  /** The results that the call is for. */
  method BeginWait(
    session: Session, tasks: set<Id>, any: bool, breakOnError: bool, ghost rounds: seq<Round>, ghost c: nat, ghost s: State)
    returns (results: map<Id, Status>, ghost start: Waiter)
    requires c !in s.waiters && s.maps == session.View()
    ensures Shows(s, [Wait(c, tasks, any, breakOnError)], c, start, session.View(), []) && SaidSo(start, rounds)
    ensures Going(start, start, results, 0, false) && |results| == |start.initial| && start.listings == []
    ensures tasks == {} ==> start.initial == s.maps.handlers.Keys
    ensures tasks != {} ==> start.initial == set t | t in tasks && t in s.maps.results :: s.maps.results[t]
    ensures tasks != {} && Consistent(s.maps) ==> start.initial == set r | r in s.maps.tasks && s.maps.tasks[r] in tasks
    ensures start.any == any && start.breakOnError == breakOnError
  {
    SnapshotExactly(s.maps, tasks);
    WaitShows(s, c, tasks, any, breakOnError);
    hide Shows, Going, Snapshot, NewWaiter, Consistent;
    results := session.TakeSnapshot(tasks);
    assert results.Keys == Snapshot(s.maps, tasks) && |results| == |results.Keys|;
    start := NewWaiter(Snapshot(s.maps, tasks), any, breakOnError);
    GoingBegins(Snapshot(s.maps, tasks), any, breakOnError, results);
    NothingDone(start.initial, any, breakOnError);
    SaidNothing(start, rounds);
    hide SaidSo;
  }

  /**
   * The wait is a run of the steps of ResultWaiting: it ends as that run ends, with those callbacks and
   * those maps; only if the rounds given are not enough is it still waiting. `asked` are its requests, by rounds.
   */
  method WaitResults(
    session: Session, batchSize: nat, tasks: set<Id>, any: bool, breakOnError: bool, rounds: seq<Round>,
    ghost c: nat, ghost s: State)
    returns (phase: Phase, asked: seq<nat>, calls: seq<Callback>, ghost steps: seq<Step>, ghost w: Waiter)
    requires c !in s.waiters && s.maps == session.View()
    modifies session
    ensures Shows(s, steps, c, w, session.View(), calls) && SaidSo(w, rounds)
    ensures tasks == {} ==> w.initial == s.maps.handlers.Keys
    ensures tasks != {} ==> w.initial == set t | t in tasks && t in s.maps.results :: s.maps.results[t]
    ensures tasks != {} && Consistent(s.maps) ==> w.initial == set r | r in s.maps.tasks && s.maps.tasks[r] in tasks
    ensures w.any == any && w.breakOnError == breakOnError
    ensures w.phase == phase && (phase.Listing? || phase.Returned? || phase.Thrown?)
    ensures phase.Listing? ==> |w.listings| == |rounds|
    ensures AskedAs(w, rounds, asked, batchSize) && (|asked| > |w.listings| ==> phase.Thrown?)
  {
    hide Shows, SaidSo, Waiting, Going, Consistent, RoundAsked;
    var joinSet := new J.JoinSet();
    var batcher := new Batching.Batcher<Id>(batchSize);
    ghost var start;
    var results;
    results, start := BeginWait(session, tasks, any, breakOnError, rounds, c, s);
    var initialResultSize, hasError, k := |results|, false, 0;
    asked, calls, steps := [], [], [Wait(c, tasks, any, breakOnError)];
    w := start;
    while results != map[]
      invariant k <= |rounds| && joinSet.View() == J.EmptyJoin() && batcher.requests == []
      invariant Shows(s, steps, c, w, session.View(), calls) && SaidSo(w, rounds)
      invariant Going(start, w, results, k, hasError)
      invariant SameCall(start, w) && |w.listings| == |asked| == k && AskedAs(w, rounds, asked, batchSize)
      decreases |rounds| - k
    {
      if k == |rounds| {
        NoMoreRounds(start, w, results, k, hasError);
        return Listing, asked, calls, steps, w;
      }
      var more, requests, error, thrown;
      ghost var v := w;
      results, requests, more, error, thrown, steps, w :=
        WaitRound(session, joinSet, batcher, results, rounds, k, hasError, s, steps, c, start, w, calls);
      AskedMore(v, w, rounds, asked, requests, batchSize);
      asked, calls, hasError := asked + [requests], calls + more, hasError || error;
      if thrown {
        return Thrown, asked, calls, steps, w;
      }
      if (any && |results| < initialResultSize) || (breakOnError && hasError) || rounds[k].past {
        return Returned, asked, calls, steps, w;
      }
      k := k + 1;
    }
    NoMoreRounds(start, w, results, k, hasError);
    phase := Returned;
  }

  lemma SnapshotExactly(m: Maps, tasks: set<Id>)
    ensures tasks == {} ==> Snapshot(m, tasks) == m.handlers.Keys
    ensures tasks != {} ==> Snapshot(m, tasks) == set t | t in tasks && t in m.results :: m.results[t]
    ensures tasks != {} && Consistent(m) ==> Snapshot(m, tasks) == set r | r in m.tasks && m.tasks[r] in tasks
  {
    if Consistent(m) {
      SnapshotIsPaired(m, tasks);
    }
  }

  lemma NothingDone(initial: set<Id>, any: bool, breakOnError: bool)
    ensures var w := NewWaiter(initial, any, breakOnError); w.done == map[] && w.listings == [] && w.pending == w.initial
  {
  }
}
