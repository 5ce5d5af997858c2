/**
 * The pool of channels to the control plane: the class, and all interleavings of the clients that
 * acquire and release. Looking at the state of a channel and creating one happen outside of the lock.
 */
module ChannelPools {
  import opened Prelude

  type Channel = nat

  datatype Connectivity = Idle | Connecting | Ready | TransientFailure | Shutdown | Other

  predicate ShutdownOnFailure(c: Connectivity) {
    c.Shutdown? || c.TransientFailure?
  }

  // ---------- interleavings ----------

  /** A client with a channel: just popped, in a guard, or on its way back. */
  datatype Hold = Popped(channel: Channel) | Guarded(channel: Channel) | Returning(channel: Channel)

  /** `creating` are the clients about to create a channel; `peak` is the largest number of clients at once. */
  datatype State = State(
    queue: seq<Channel>,
    holds: map<nat, Hold>,
    creating: set<nat>,
    discarded: set<Channel>,
    created: nat,
    peak: nat)

  const START := State([], map[], {}, {}, 0, 0)

  datatype Step =
    | Pop(client: nat)                             // the critical section of AcquireChannel
    | Inspect(client: nat, state: Connectivity)    // of the popped channel
    | Create(client: nat)
    | Release(client: nat, state: Connectivity)    // the destructor of the guard, up to the lock
    | Push(client: nat)                            // its critical section

  predicate Enabled(s: State, step: Step) {
    match step
    case Pop(c) => c !in s.holds && c !in s.creating
    case Inspect(c, _) => c in s.holds && s.holds[c].Popped?
    case Create(c) => c in s.creating
    case Release(c, _) => c in s.holds && s.holds[c].Guarded?
    case Push(c) => c in s.holds && s.holds[c].Returning?
  }

  function Users(s: State): nat {
    |s.holds.Keys| + |s.creating|
  }

  function Next(s: State, step: Step): State
    requires Enabled(s, step)
  {
    match step
    case Pop(c) =>
      var t := if s.queue == [] then s.(creating := s.creating + {c})
               else s.(queue := s.queue[1..], holds := s.holds[c := Popped(s.queue[0])]);
      t.(peak := Max(s.peak, Users(t)))
    case Inspect(c, state) =>
      if ShutdownOnFailure(state)
      then s.(holds := s.holds - {c}, discarded := s.discarded + {s.holds[c].channel}, creating := s.creating + {c})
      else s.(holds := s.holds[c := Guarded(s.holds[c].channel)])
    case Create(c) =>
      s.(creating := s.creating - {c}, holds := s.holds[c := Guarded(s.created)], created := s.created + 1)
    case Release(c, state) =>
      if ShutdownOnFailure(state)
      then s.(holds := s.holds - {c}, discarded := s.discarded + {s.holds[c].channel})
      else s.(holds := s.holds[c := Returning(s.holds[c].channel)])
    case Push(c) => s.(queue := s.queue + [s.holds[c].channel], holds := s.holds - {c})
  }

  predicate IsRun(s: State, steps: seq<Step>)
    decreases |steps|
  {
    steps == [] || (Enabled(s, steps[0]) && IsRun(Next(s, steps[0]), steps[1..]))
  }

  function After(s: State, steps: seq<Step>): State
    requires IsRun(s, steps)
    decreases |steps|
  {
    if steps == [] then s else After(Next(s, steps[0]), steps[1..])
  }

  ghost predicate Reachable(s: State) {
    exists steps :: IsRun(START, steps) && After(START, steps) == s
  }

  lemma {:induction false} RunSnoc(s: State, steps: seq<Step>, step: Step)
    requires IsRun(s, steps) && Enabled(After(s, steps), step)
    ensures IsRun(s, steps + [step]) && After(s, steps + [step]) == Next(After(s, steps), step)
    decreases |steps|
  {
    hide Enabled, Next;
    if steps == [] {
      assert steps + [step] == [step] && [step][1..] == [];
      assert IsRun(Next(s, step), []) && After(Next(s, step), []) == Next(s, step);
    } else {
      RunSnoc(Next(s, steps[0]), steps[1..], step);
      assert (steps + [step])[1..] == steps[1..] + [step];
    }
  }

  lemma NoSteps(s: State)
    ensures IsRun(s, []) && After(s, []) == s
  {
  }

  /** The steps of a client that acquires `channel`. */
  ghost predicate Acquires(s: State, steps: seq<Step>, c: nat, queue: seq<Channel>, channel: Channel) {
    && IsRun(s, steps) && (forall k :: 0 <= k < |steps| ==> steps[k].client == c)
    && After(s, steps).queue == queue && After(s, steps).creating == s.creating
    && After(s, steps).holds == s.holds[c := Guarded(channel)]
  }

  lemma Reuses(s: State, c: nat, state: Connectivity) returns (steps: seq<Step>)
    requires Enabled(s, Pop(c)) && s.queue != [] && !ShutdownOnFailure(state)
    ensures Acquires(s, steps, c, s.queue[1..], s.queue[0])
  {
    hide IsRun, After;
    NoSteps(s);
    RunSnoc(s, [], Pop(c));
    RunSnoc(s, [] + [Pop(c)], Inspect(c, state));
    steps := [] + [Pop(c)] + [Inspect(c, state)];
  }

  lemma Replaces(s: State, c: nat, state: Connectivity) returns (steps: seq<Step>)
    requires Enabled(s, Pop(c)) && s.queue != [] && ShutdownOnFailure(state)
    ensures Acquires(s, steps, c, s.queue[1..], s.created)
  {
    hide IsRun, After;
    NoSteps(s);
    RunSnoc(s, [], Pop(c));
    RunSnoc(s, [] + [Pop(c)], Inspect(c, state));
    var t := Next(Next(s, Pop(c)), Inspect(c, state));
    assert t.holds == s.holds && t.creating == s.creating + {c} && t.queue == s.queue[1..] && t.created == s.created;
    RunSnoc(s, [] + [Pop(c)] + [Inspect(c, state)], Create(c));
    steps := [] + [Pop(c)] + [Inspect(c, state)] + [Create(c)];
    assert t.creating - {c} == s.creating;
  }

  lemma CreatesFirst(s: State, c: nat) returns (steps: seq<Step>)
    requires Enabled(s, Pop(c)) && s.queue == []
    ensures Acquires(s, steps, c, [], s.created)
  {
    hide IsRun, After;
    NoSteps(s);
    RunSnoc(s, [], Pop(c));
    RunSnoc(s, [] + [Pop(c)], Create(c));
    steps := [] + [Pop(c)] + [Create(c)];
    assert s.creating + {c} - {c} == s.creating;
  }

  // ---------- the class ----------

  /** The pool; a call is a run of the steps of its client when no other client gets in between. */
  class ChannelPool {
    var channelPool: seq<Channel>

    constructor ()
      ensures channelPool == START.queue
    {
      channelPool := [];
    }

    /** `state` is what the channels report; `created` is the channel that is made when none can be had. */
    method AcquireChannel(state: Channel -> Connectivity, created: Channel, ghost s: State, ghost c: nat)
      returns (channel: Channel, ghost steps: seq<Step>)
      requires s.queue == channelPool && s.created == created && Enabled(s, Pop(c))
      modifies this
      ensures channelPool == if old(channelPool) == [] then [] else old(channelPool)[1..]
      ensures channel == if old(channelPool) != []
                            && !state(old(channelPool)[0]).Shutdown? && !state(old(channelPool)[0]).TransientFailure?
                         then old(channelPool)[0] else created
      ensures Acquires(s, steps, c, channelPool, channel)
    {
      if channelPool != [] {
        channel := channelPool[0];
        channelPool := channelPool[1..];
        if !ShutdownOnFailure(state(channel)) {
          steps := Reuses(s, c, state(channel));
          return;
        }
        steps := Replaces(s, c, state(channel));
      } else {
        steps := CreatesFirst(s, c);
      }
      channel := created;
    }

    method ReleaseChannel(channel: Channel, state: Connectivity, ghost s: State, ghost c: nat)
      returns (ghost steps: seq<Step>)
      requires s.queue == channelPool && c in s.holds && s.holds[c] == Guarded(channel)
      modifies this
      ensures state.Shutdown? || state.TransientFailure? ==> channelPool == old(channelPool)
      ensures !state.Shutdown? && !state.TransientFailure? ==> channelPool == old(channelPool) + [channel]
      ensures IsRun(s, steps) && forall k :: 0 <= k < |steps| ==> steps[k].client == c
      ensures var t := After(s, steps);
              && t.queue == channelPool && t.holds == s.holds - {c} && t.creating == s.creating
              && t.discarded == if state.Shutdown? || state.TransientFailure? then s.discarded + {channel} else s.discarded
    {
      hide IsRun, After;
      NoSteps(s);
      RunSnoc(s, [], Release(c, state));
      steps := [] + [Release(c, state)];
      if !ShutdownOnFailure(state) {
        RunSnoc(s, steps, Push(c));
        steps := steps + [Push(c)];
        channelPool := channelPool + [channel];
      }
    }
  }

  // ---------- the invariant ----------

  ghost predicate Held(s: State, ch: Channel) {
    exists c :: c in s.holds && s.holds[c].channel == ch
  }

  /** Every channel created is in one place, and there only once. */
  ghost predicate Apart(s: State) {
    && (forall ch: Channel :: ch < s.created <==> ch in s.queue || Held(s, ch) || ch in s.discarded)
    && (forall i, j :: 0 <= i < j < |s.queue| ==> s.queue[i] != s.queue[j])
    && (forall c, d :: c in s.holds && d in s.holds && c != d ==> s.holds[c].channel != s.holds[d].channel)
    && (forall ch: Channel :: ch in s.queue ==> !Held(s, ch) && ch !in s.discarded)
    && (forall c :: c in s.holds ==> s.holds[c].channel !in s.discarded)
  }

  ghost predicate Counted(s: State) {
    && s.created == |s.queue| + |s.holds.Keys| + |s.discarded|
    && s.holds.Keys !! s.creating
    && |s.queue| + Users(s) <= s.peak
  }

  ghost predicate Inv(s: State) {
    Apart(s) && Counted(s)
  }

  /** The client's hold is replaced or removed; no channel is held twice. */
  lemma HoldsChange(s: State, t: State, c: nat)
    requires c in s.holds && Apart(s)
    requires t.holds == s.holds - {c}
          || (c in t.holds && t.holds == s.holds[c := t.holds[c]] && t.holds[c].channel == s.holds[c].channel)
    ensures forall ch :: Held(t, ch) <==> (Held(s, ch) && (c in t.holds || ch != s.holds[c].channel))
  {
    forall ch ensures Held(t, ch) <==> (Held(s, ch) && (c in t.holds || ch != s.holds[c].channel)) {
      if Held(s, ch) && (c in t.holds || ch != s.holds[c].channel) {
        var d :| d in s.holds && s.holds[d].channel == ch;
        assert d in t.holds && t.holds[d].channel == ch;
      }
    }
  }

  /** A client without a channel gets one. */
  lemma HoldsGrow(s: State, t: State, c: nat)
    requires c !in s.holds && c in t.holds && t.holds == s.holds[c := t.holds[c]]
    ensures forall ch :: Held(t, ch) <==> Held(s, ch) || ch == t.holds[c].channel
  {
    forall ch ensures Held(t, ch) <==> Held(s, ch) || ch == t.holds[c].channel {
      if Held(s, ch) {
        var d :| d in s.holds && s.holds[d].channel == ch;
        assert d in t.holds && t.holds[d].channel == ch;
      } else if ch == t.holds[c].channel {
        assert c in t.holds;
      }
    }
  }

  lemma PopApart(s: State, c: nat)
    requires Apart(s) && Enabled(s, Pop(c))
    ensures Apart(Next(s, Pop(c)))
  {
    var t := Next(s, Pop(c));
    if s.queue == [] {
      assert forall ch :: Held(t, ch) <==> Held(s, ch);
      hide Held;
    } else {
      var front := s.queue[0];
      HoldsGrow(s, t, c);
      FrontPopped(s);
      assert forall d :: d in s.holds ==> Held(s, s.holds[d].channel);
      assert front in s.queue && !Held(s, front) && front !in s.discarded;
      hide Held, Next;
      MovedApart(s, t, c);
    }
  }

  /** The front of the queue has gone to the client. */
  lemma MovedApart(s: State, t: State, c: nat)
    requires Apart(s) && s.queue != [] && c !in s.holds && t.queue == s.queue[1..]
    requires t.holds == s.holds[c := Popped(s.queue[0])] && t.created == s.created && t.discarded == s.discarded
    requires forall ch :: Held(t, ch) <==> Held(s, ch) || ch == s.queue[0]
    requires forall ch :: ch in s.queue <==> ch == s.queue[0] || ch in s.queue[1..]
    requires s.queue[0] !in s.queue[1..] && forall d :: d in s.holds ==> Held(s, s.holds[d].channel)
    requires forall i, j :: 0 <= i < j < |s.queue[1..]| ==> s.queue[1..][i] != s.queue[1..][j]
    ensures Apart(t)
  {
    hide Held;
    assert s.queue[0] in s.queue;
  }

  lemma FrontPopped(s: State)
    requires s.queue != [] && forall i, j :: 0 <= i < j < |s.queue| ==> s.queue[i] != s.queue[j]
    ensures forall ch :: ch in s.queue <==> ch == s.queue[0] || ch in s.queue[1..]
    ensures s.queue[0] !in s.queue[1..]
    ensures forall i, j :: 0 <= i < j < |s.queue[1..]| ==> s.queue[1..][i] != s.queue[1..][j]
  {
    assert s.queue == [s.queue[0]] + s.queue[1..];
  }

  lemma ApartStep(s: State, step: Step)
    requires Apart(s) && s.holds.Keys !! s.creating && Enabled(s, step)
    ensures Apart(Next(s, step))
  {
    hide ShutdownOnFailure;
    match step
    case Pop(c) => PopApart(s, c);
    case Inspect(c, _) => LeaveApart(s, step, c);
    case Create(c) => CreateApart(s, c);
    case Release(c, _) => LeaveApart(s, step, c);
    case Push(c) => PushApart(s, c);
  }

  lemma CreateApart(s: State, c: nat)
    requires Apart(s) && c !in s.holds && Enabled(s, Create(c))
    ensures Apart(Next(s, Create(c)))
  {
    var t := Next(s, Create(c));
    HoldsGrow(s, t, c);
    assert !Held(s, s.created);
    assert forall d :: d in s.holds ==> Held(s, s.holds[d].channel);
    hide Held;
  }

  lemma PushApart(s: State, c: nat)
    requires Apart(s) && Enabled(s, Push(c))
    ensures Apart(Next(s, Push(c)))
  {
    var t := Next(s, Push(c));
    HoldsChange(s, t, c);
    assert Held(s, s.holds[c].channel);
    assert forall ch :: ch in t.queue <==> ch in s.queue || ch == s.holds[c].channel;
    hide Held;
  }

  lemma LeaveApart(s: State, step: Step, c: nat)
    requires Apart(s) && Enabled(s, step) && (step.Inspect? || step.Release?) && step.client == c
    ensures Apart(Next(s, step))
  {
    HoldsChange(s, Next(s, step), c);
    assert Held(s, s.holds[c].channel);
    hide Held;
  }

  lemma OneMore(a: set<nat>, x: nat)
    requires x !in a
    ensures |a + {x}| == |a| + 1
  {
  }

  /** `a` is `b` with `x`. */
  lemma OneLess(a: set<nat>, b: set<nat>, x: nat)
    requires x in a && b == a - {x}
    ensures |a| == |b| + 1
  {
    assert b + {x} == a;
  }

  lemma PopCounted(s: State, c: nat)
    requires Counted(s) && Enabled(s, Pop(c))
    ensures Counted(Next(s, Pop(c)))
  {
    OneMore(s.creating, c);
    OneMore(s.holds.Keys, c);
    if s.queue != [] {
      assert s.holds[c := Popped(s.queue[0])].Keys == s.holds.Keys + {c};
    }
  }

  /** A client loses its channel, to the queue or for good. */
  lemma LossCounted(s: State, t: State, c: nat)
    requires Counted(s) && c in s.holds && t.holds.Keys == s.holds.Keys - {c}
    requires t.created == s.created && t.peak == s.peak
    requires |t.queue| + |t.discarded| == |s.queue| + |s.discarded| + 1
    requires (t.creating == s.creating && |t.queue| <= |s.queue| + 1)
          || (t.creating == s.creating + {c} && |t.queue| == |s.queue|)
    ensures Counted(t)
  {
    OneLess(s.holds.Keys, t.holds.Keys, c);
    if t.creating != s.creating {
      OneMore(s.creating, c);
    }
  }

  lemma GainCounted(s: State, t: State, c: nat)
    requires Counted(s) && c in s.creating && t.holds.Keys == s.holds.Keys + {c} && t.creating == s.creating - {c}
    requires t == s.(holds := t.holds, creating := t.creating, created := s.created + 1)
    ensures Counted(t)
  {
    OneMore(s.holds.Keys, c);
    OneLess(s.creating, t.creating, c);
  }

  lemma CountedStep(s: State, step: Step)
    requires Inv(s) && Enabled(s, step)
    ensures Counted(Next(s, step))
  {
    hide Apart, Counted;
    if step.Pop? {
      PopCounted(s, step.client);
    } else if step.Create? {
      GainCounted(s, Next(s, step), step.client);
    } else if step.Push? || ShutdownOnFailure(step.state) {
      LossStep(s, step);
    } else {
      SameCounted(s, Next(s, step));
    }
  }

  lemma LossStep(s: State, step: Step)
    requires Inv(s) && Enabled(s, step)
    requires step.Push? || ((step.Inspect? || step.Release?) && ShutdownOnFailure(step.state))
    ensures Counted(Next(s, step))
  {
    HeldIsNotDiscarded(s, step.client);
    hide Apart, Counted;
    OneMore(s.discarded, s.holds[step.client].channel);
    LossCounted(s, Next(s, step), step.client);
  }

  lemma SameCounted(s: State, t: State)
    requires Counted(s) && t == s.(holds := t.holds) && t.holds.Keys == s.holds.Keys
    ensures Counted(t)
  {
  }

  lemma HeldIsNotDiscarded(s: State, c: nat)
    requires Apart(s) && c in s.holds
    ensures s.holds[c].channel !in s.discarded
  {
  }

  lemma {:induction false} InvRun(s: State, steps: seq<Step>)
    requires Inv(s) && IsRun(s, steps)
    ensures Inv(After(s, steps))
    decreases |steps|
  {
    hide Enabled, Apart, Counted, Next;
    if steps != [] {
      assert Inv(Next(s, steps[0])) by {
        CountedStep(s, steps[0]);
        DisjointUsers(s);
        ApartStep(s, steps[0]);
      }
      InvRun(Next(s, steps[0]), steps[1..]);
    }
  }

  lemma DisjointUsers(s: State)
    requires Counted(s)
    ensures s.holds.Keys !! s.creating
  {
  }

  lemma StartInv()
    ensures Inv(START)
  {
  }

  lemma ReachableInv(s: State)
    requires Reachable(s)
    ensures Inv(s)
  {
    hide Inv;
    StartInv();
    var steps :| IsRun(START, steps) && After(START, steps) == s;
    InvRun(START, steps);
  }

  // ---------- what it means ----------

  /**
   * Whatever the interleaving, every channel ever created is waiting in the queue once, held by one client, or
   * discarded, and the numbers add up.
   */
  lemma ChannelsHaveOnePlace(s: State)
    requires Reachable(s)
    ensures Apart(s) && s.created == |s.queue| + |s.holds.Keys| + |s.discarded|
  {
    hide Reachable, Apart;
    ReachableInv(s);
  }

  /** The pool never keeps more channels open than there were clients at once, failing channels or not. */
  lemma NoMoreChannelsThanClients(s: State)
    requires Reachable(s)
    ensures s.created - |s.discarded| <= s.peak
  {
    hide Reachable, Apart;
    ReachableInv(s);
  }
}
