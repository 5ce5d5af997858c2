/** Every plan covers each slot once, respects both limits, and inlines the small inputs in the fewest requests. */
module BatchingProofs {
  import opened Prelude
  import opened Batching

  // ---------- what is emitted ----------

  /** The batches of the requests that carry data, in order. */
  function Inlined(log: seq<Emission>): seq<seq<Slot>> {
    if log == [] then []
    else Inlined(log[..|log| - 1]) + (if log[|log| - 1].inlined then [log[|log| - 1].slots] else [])
  }

  function EmittedSlots(log: seq<Emission>): multiset<Slot> {
    if log == [] then multiset{} else EmittedSlots(log[..|log| - 1]) + multiset(log[|log| - 1].slots)
  }

  /** The small inputs among the first `n` items, in order. */
  function SmallInputs(c: Config, n: nat): (s: seq<Slot>)
    requires n <= |c.sizes|
    ensures c.InRange(s)
  {
    if n == 0 then []
    else SmallInputs(c, n - 1) + (if c.Large(n - 1) then [] else [In(n - 1)])
  }

  /** The slots of the first `n` items. */
  function Slots(c: Config, n: nat): multiset<Slot> {
    if n == 0 then multiset{}
    else Slots(c, n - 1) + multiset{In(n - 1)} + (if c.withOutputs then multiset{Out(n - 1)} else multiset{})
  }

  lemma {:induction false} SlotsOnce(c: Config, n: nat, s: Slot)
    ensures Slots(c, n)[s] == if s.i < n && (s.In? || c.withOutputs) then 1 else 0
  {
    hide Slots;
    if n == 0 {
      NoSlots(c, s);
    } else {
      SlotsOnce(c, n - 1, s);
      SlotsStep(c, n, s);
    }
  }

  lemma NoSlots(c: Config, s: Slot)
    ensures Slots(c, 0)[s] == 0
  {
  }

  lemma SlotsStep(c: Config, n: nat, s: Slot)
    requires n > 0
    ensures Slots(c, n)[s]
         == Slots(c, n - 1)[s] + (if s == In(n - 1) then 1 else 0) + (if c.withOutputs && s == Out(n - 1) then 1 else 0)
  {
    var output := if c.withOutputs then multiset{Out(n - 1)} else multiset{};
    assert output[s] == if c.withOutputs && s == Out(n - 1) then 1 else 0;
  }

  // ---------- nothing lost or repeated ----------

  /** The small inputs a plan has taken in, in order. */
  function PlacedSmall(p: Plan): seq<Slot> {
    Flatten(Inlined(p.log)) + p.small
  }

  /** All the slots a plan has taken in. */
  function Placed(p: Plan): multiset<Slot> {
    EmittedSlots(p.log) + multiset(p.metadata) + multiset(p.small)
  }

  lemma LogSnoc(log: seq<Emission>, e: Emission)
    ensures Inlined(log + [e]) == Inlined(log) + (if e.inlined then [e.slots] else [])
    ensures EmittedSlots(log + [e]) == EmittedSlots(log) + multiset(e.slots)
    ensures Flatten(Inlined(log + [e])) == Flatten(Inlined(log)) + (if e.inlined then e.slots else [])
  {
    assert (log + [e])[..|log|] == log;
    if e.inlined {
      FlattenSnoc(Inlined(log), e.slots);
    } else {
      assert Inlined(log) + [] == Inlined(log);
    }
  }

  lemma FlushMetadataPlaced(p: Plan)
    ensures PlacedSmall(p.FlushMetadata()) == PlacedSmall(p) && Placed(p.FlushMetadata()) == Placed(p)
  {
    hide EmittedSlots, Inlined;
    LogSnoc(p.log, Emission(p.metadata, false));
  }

  lemma FlushSmallPlaced(p: Plan)
    ensures PlacedSmall(p.FlushSmall()) == PlacedSmall(p) && Placed(p.FlushSmall()) == Placed(p)
  {
    hide EmittedSlots, Inlined;
    LogSnoc(p.log, Emission(p.small, true));
  }

  lemma AddMetadataPlaced(c: Config, p: Plan, s: Slot)
    ensures PlacedSmall(p.AddMetadata(c, s)) == PlacedSmall(p)
    ensures Placed(p.AddMetadata(c, s)) == Placed(p) + multiset{s}
  {
    hide EmittedSlots, Inlined;
    var grown := p.metadata + [s];
    assert multiset(grown) == multiset(p.metadata) + multiset{s};
    if |grown| >= c.limit {
      LogSnoc(p.log, Emission(grown, false));
    }
  }

  lemma AppendSmallPlaced(p: Plan, s: Slot, batched: nat)
    ensures var q := p.(small := p.small + [s], batched := batched);
            PlacedSmall(q) == PlacedSmall(p) + [s] && Placed(q) == Placed(p) + multiset{s}
  {
    var q := p.(small := p.small + [s], batched := batched);
    var sent := Flatten(Inlined(p.log));
    assert sent + (p.small + [s]) == sent + p.small + [s];
    assert multiset(q.small) == multiset(p.small) + multiset{s};
  }

  lemma AddSmallPlaced(c: Config, p: Plan, s: Slot)
    requires s.i < |c.sizes|
    ensures PlacedSmall(p.AddSmall(c, s)) == PlacedSmall(p) + [s]
    ensures Placed(p.AddSmall(c, s)) == Placed(p) + multiset{s}
  {
    hide Placed, PlacedSmall, Plan.FlushSmall;
    var w := c.sizes[s.i] + MESSAGE_OVERHEAD;
    var ready := if p.batched + w >= c.chunkMax then p.FlushSmall() else p;
    var grown := ready.(small := ready.small + [s], batched := ready.batched + w);
    FlushSmallPlaced(p);
    AppendSmallPlaced(ready, s, ready.batched + w);
    FlushSmallPlaced(grown);
  }

  lemma AddItemPlaced(c: Config, p: Plan, i: nat)
    requires i < |c.sizes|
    ensures PlacedSmall(p.AddItem(c, i)) == PlacedSmall(p) + (if c.Large(i) then [] else [In(i)])
    ensures Placed(p.AddItem(c, i))
         == Placed(p) + multiset{In(i)} + (if c.withOutputs then multiset{Out(i)} else multiset{})
  {
    hide Placed, PlacedSmall, Plan.AddMetadata, Plan.AddSmall;
    AddMetadataPlaced(c, p, Out(i));
    var q := if c.withOutputs then p.AddMetadata(c, Out(i)) else p;
    AddMetadataPlaced(c, q, In(i));
    AddSmallPlaced(c, q, In(i));
  }

  lemma NothingPlaced()
    ensures Placed(Plan([], [], 0, [])) == multiset{} && PlacedSmall(Plan([], [], 0, [])) == []
  {
  }

  lemma {:induction false} ItemsPlaced(c: Config, n: nat)
    requires n <= |c.sizes|
    ensures PlacedSmall(PlanItems(c, n)) == SmallInputs(c, n)
    ensures Placed(PlanItems(c, n)) == Slots(c, n)
  {
    hide Placed, PlacedSmall, Plan.AddItem;
    if n == 0 {
      NothingPlaced();
    } else {
      var p := PlanItems(c, n - 1);
      ItemsPlaced(c, n - 1);
      AddItemPlaced(c, p, n - 1);
      assert PlanItems(c, n) == p.AddItem(c, n - 1);
      assert SmallInputs(c, n) == SmallInputs(c, n - 1) + (if c.Large(n - 1) then [] else [In(n - 1)]);
    }
  }

  /** Every slot is in exactly one request, and the inlined requests are the small inputs in order. */
  lemma PlanCoversOnce(c: Config)
    ensures forall s: Slot :: EmittedSlots(PlanLog(c))[s] == if s.i < |c.sizes| && (s.In? || c.withOutputs) then 1 else 0
    ensures Flatten(Inlined(PlanLog(c))) == SmallInputs(c, |c.sizes|)
  {
    hide Inlined, EmittedSlots, Flatten, PlanItems, Slots, SmallInputs;
    var p := PlanItems(c, |c.sizes|);
    ItemsPlaced(c, |c.sizes|);
    FlushMetadataPlaced(p);
    FlushSmallPlaced(p.FlushMetadata());
    var done := p.FlushMetadata().FlushSmall();
    assert PlacedSmall(done) == Flatten(Inlined(PlanLog(c))) && Placed(done) == EmittedSlots(PlanLog(c));
    forall s: Slot ensures EmittedSlots(PlanLog(c))[s] == if s.i < |c.sizes| && (s.In? || c.withOutputs) then 1 else 0 {
      SlotsOnce(c, |c.sizes|, s);
    }
  }

  // ---------- the order of the rest ----------

  /** The slots of the requests that carry no data, in order. */
  function Created(log: seq<Emission>): seq<Slot> {
    if log == [] then []
    else Created(log[..|log| - 1]) + (if log[|log| - 1].inlined then [] else log[|log| - 1].slots)
  }

  /** The outputs and the large inputs of the first `n` items, an output before its input. */
  function MetadataSlots(c: Config, n: nat): seq<Slot>
    requires n <= |c.sizes|
  {
    if n == 0 then []
    else MetadataSlots(c, n - 1) + (if c.withOutputs then [Out(n - 1)] else []) + (if c.Large(n - 1) then [In(n - 1)] else [])
  }

  function PlacedMetadata(p: Plan): seq<Slot> {
    Created(p.log) + p.metadata
  }

  lemma CreatedSnoc(log: seq<Emission>, e: Emission)
    ensures Created(log + [e]) == Created(log) + (if e.inlined then [] else e.slots)
  {
    assert (log + [e])[..|log|] == log;
  }

  lemma AddMetadataOrder(c: Config, p: Plan, s: Slot)
    ensures PlacedMetadata(p.AddMetadata(c, s)) == PlacedMetadata(p) + [s]
  {
    hide Created;
    var grown := p.metadata + [s];
    CreatedSnoc(p.log, Emission(grown, false));
    assert Created(p.log) + grown == Created(p.log) + p.metadata + [s];
  }

  lemma FlushesOrder(p: Plan)
    ensures PlacedMetadata(p.FlushMetadata()) == PlacedMetadata(p) == PlacedMetadata(p.FlushSmall())
  {
    hide Created;
    CreatedSnoc(p.log, Emission(p.metadata, false));
    CreatedSnoc(p.log, Emission(p.small, true));
  }

  lemma AddSmallOrder(c: Config, p: Plan, s: Slot)
    requires s.i < |c.sizes|
    ensures PlacedMetadata(p.AddSmall(c, s)) == PlacedMetadata(p)
  {
    var w := c.sizes[s.i] + MESSAGE_OVERHEAD;
    var ready := if p.batched + w >= c.chunkMax then p.FlushSmall() else p;
    var grown := ready.(small := ready.small + [s], batched := ready.batched + w);
    FlushesOrder(p);
    assert PlacedMetadata(grown) == PlacedMetadata(ready);
    FlushesOrder(grown);
    hide PlacedMetadata, Plan.FlushSmall;
  }

  lemma AddItemOrder(c: Config, p: Plan, i: nat)
    requires i < |c.sizes|
    ensures PlacedMetadata(p.AddItem(c, i))
         == PlacedMetadata(p) + (if c.withOutputs then [Out(i)] else []) + (if c.Large(i) then [In(i)] else [])
  {
    hide PlacedMetadata, Plan.AddMetadata, Plan.AddSmall;
    AddMetadataOrder(c, p, Out(i));
    var q := if c.withOutputs then p.AddMetadata(c, Out(i)) else p;
    assert PlacedMetadata(q) == PlacedMetadata(p) + (if c.withOutputs then [Out(i)] else []);
    AddMetadataOrder(c, q, In(i));
    AddSmallOrder(c, q, In(i));
  }

  lemma NothingCreated()
    ensures PlacedMetadata(Plan([], [], 0, [])) == []
  {
  }

  lemma {:induction false} ItemsOrder(c: Config, n: nat)
    requires n <= |c.sizes|
    ensures PlacedMetadata(PlanItems(c, n)) == MetadataSlots(c, n)
  {
    hide PlacedMetadata, Plan.AddItem;
    if n == 0 {
      NothingCreated();
    } else {
      var p := PlanItems(c, n - 1);
      ItemsOrder(c, n - 1);
      AddItemOrder(c, p, n - 1);
      assert PlanItems(c, n) == p.AddItem(c, n - 1);
    }
  }

  /** Outputs and large inputs are requested in the order of the items. */
  lemma MetadataInOrder(c: Config)
    ensures Created(PlanLog(c)) == MetadataSlots(c, |c.sizes|)
  {
    hide PlanItems, MetadataSlots, Created;
    var p := PlanItems(c, |c.sizes|);
    ItemsOrder(c, |c.sizes|);
    FlushesOrder(p);
    FlushesOrder(p.FlushMetadata());
  }

  // ---------- within the limits ----------

  /** The kind of request a slot belongs in: small inputs are inlined, all else is created first. */
  predicate RightKind(c: Config, s: Slot, inlined: bool) {
    && s.i < |c.sizes|
    && (inlined <==> s.In? && !c.Large(s.i))
  }

  /** A request holds at most the count limit, and inlined data stays strictly below the message size. */
  predicate WithinLimits(c: Config, e: Emission) {
    && 0 < |e.slots| <= c.CountLimit()
    && (forall s :: s in e.slots ==> RightKind(c, s, e.inlined))
    && (e.inlined ==> c.InRange(e.slots) && c.Weight(e.slots) < c.chunkMax)
  }

  predicate LogWithinLimits(c: Config, log: seq<Emission>) {
    forall e :: e in log ==> WithinLimits(c, e)
  }

  /** A pending batch is empty or could be sent as it is, and it is not full. */
  predicate Pending(c: Config, slots: seq<Slot>, inlined: bool) {
    slots != [] ==> WithinLimits(c, Emission(slots, inlined)) && |slots| < c.CountLimit()
  }

  ghost predicate PlanLimits(c: Config, p: Plan) {
    && LogWithinLimits(c, p.log)
    && Pending(c, p.metadata, false)
    && Pending(c, p.small, true)
    && c.InRange(p.small)
    && p.batched == c.Weight(p.small)
  }

  lemma Extend(c: Config, slots: seq<Slot>, s: Slot, inlined: bool)
    requires Pending(c, slots, inlined) && c.InRange(slots) && RightKind(c, s, inlined)
    requires inlined ==> c.Weight(slots) + c.sizes[s.i] + MESSAGE_OVERHEAD < c.chunkMax
    ensures c.InRange(slots + [s])
    ensures c.Weight(slots + [s]) == c.Weight(slots) + c.sizes[s.i] + MESSAGE_OVERHEAD
    ensures WithinLimits(c, Emission(slots + [s], inlined))
  {
    assert (slots + [s])[..|slots|] == slots;
    forall t | t in slots + [s] ensures RightKind(c, t, inlined) {
      assert t in slots || t == s;
    }
  }

  lemma SendWithinLimits(c: Config, log: seq<Emission>, e: Emission)
    requires LogWithinLimits(c, log) && WithinLimits(c, e)
    ensures LogWithinLimits(c, log + [e])
  {
  }

  lemma NothingPlannedLimits(c: Config)
    ensures PlanLimits(c, PlanItems(c, 0))
  {
  }

  lemma {:induction false} PlanItemsLimits(c: Config, n: nat)
    requires n <= |c.sizes|
    ensures PlanLimits(c, PlanItems(c, n))
  {
    hide PlanLimits, Plan.AddMetadata, Plan.AddSmall;
    if n == 0 {
      NothingPlannedLimits(c);
    } else {
      var p := PlanItems(c, n - 1);
      PlanItemsLimits(c, n - 1);
      if c.withOutputs {
        AddMetadataLimits(c, p, Out(n - 1));
        p := p.AddMetadata(c, Out(n - 1));
      }
      assert PlanItems(c, n) == p.AddInput(c, n - 1);
      if c.Large(n - 1) {
        AddMetadataLimits(c, p, In(n - 1));
      } else {
        AddSmallLimits(c, p, In(n - 1));
      }
    }
  }

  lemma AddMetadataLimits(c: Config, p: Plan, s: Slot)
    requires PlanLimits(c, p) && RightKind(c, s, false)
    ensures PlanLimits(c, p.AddMetadata(c, s))
  {
    assert c.InRange(p.metadata) by {
      assert forall t :: t in p.metadata ==> RightKind(c, t, false);
    }
    Extend(c, p.metadata, s, false);
    SendWithinLimits(c, p.log, Emission(p.metadata + [s], false));
  }

  lemma FlushSmallLimits(c: Config, p: Plan)
    requires PlanLimits(c, p)
    ensures PlanLimits(c, p.FlushSmall())
  {
    hide WithinLimits;
    if p.small != [] {
      SendWithinLimits(c, p.log, Emission(p.small, true));
    }
  }

  lemma AppendSmallLimits(c: Config, p: Plan, s: Slot)
    requires PlanLimits(c, p) && RightKind(c, s, true)
    requires c.Weight(p.small) + c.sizes[s.i] + MESSAGE_OVERHEAD < c.chunkMax
    ensures var small, batched := p.small + [s], p.batched + c.sizes[s.i] + MESSAGE_OVERHEAD;
            && (|small| < c.limit ==> PlanLimits(c, p.(small := small, batched := batched)))
            && (|small| >= c.limit ==> PlanLimits(c, p.(small := [], batched := 0, log := p.log + [Emission(small, true)])))
  {
    Extend(c, p.small, s, true);
    SendIfWithin(c, p.log, Emission(p.small + [s], true));
    hide LogWithinLimits, WithinLimits;
  }

  lemma SendIfWithin(c: Config, log: seq<Emission>, e: Emission)
    requires LogWithinLimits(c, log)
    ensures WithinLimits(c, e) ==> LogWithinLimits(c, log + [e])
  {
    hide WithinLimits;
  }

  /** AddSmall in two parts: making room, and appending. */
  lemma AddSmallParts(c: Config, p: Plan, s: Slot)
    requires s.i < |c.sizes|
    ensures var w := c.sizes[s.i] + MESSAGE_OVERHEAD;
            var ready := if p.batched + w >= c.chunkMax then p.FlushSmall() else p;
            var small := ready.small + [s];
            p.AddSmall(c, s) == if |small| >= c.limit then ready.(small := [], batched := 0, log := ready.log + [Emission(small, true)])
                                else ready.(small := small, batched := ready.batched + w)
  {
    hide Plan.FlushSmall;
    var w := c.sizes[s.i] + MESSAGE_OVERHEAD;
    var ready := if p.batched + w >= c.chunkMax then p.FlushSmall() else p;
    FlushIs(ready.(small := ready.small + [s], batched := ready.batched + w));
  }

  lemma FlushIs(p: Plan)
    ensures p.FlushSmall() == if p.small == [] then p else p.(small := [], batched := 0, log := p.log + [Emission(p.small, true)])
  {
  }

  /** After making room there is room. */
  lemma RoomForSmall(c: Config, p: Plan, s: Slot)
    requires PlanLimits(c, p) && RightKind(c, s, true)
    ensures var w := c.sizes[s.i] + MESSAGE_OVERHEAD;
            var ready := if p.batched + w >= c.chunkMax then p.FlushSmall() else p;
            PlanLimits(c, ready) && ready.batched == c.Weight(ready.small) && ready.batched + w < c.chunkMax
  {
    var w := c.sizes[s.i] + MESSAGE_OVERHEAD;
    if p.batched + w >= c.chunkMax {
      FlushSmallLimits(c, p);
      assert p.FlushSmall().small == [] && p.FlushSmall().batched == 0;
    }
    hide LogWithinLimits, WithinLimits;
  }

  lemma AddSmallLimits(c: Config, p: Plan, s: Slot)
    requires PlanLimits(c, p) && RightKind(c, s, true)
    ensures PlanLimits(c, p.AddSmall(c, s))
  {
    AddSmallParts(c, p, s);
    RoomForSmall(c, p, s);
    hide PlanLimits, Plan.AddSmall, Plan.FlushSmall;
    var ready := if p.batched + c.sizes[s.i] + MESSAGE_OVERHEAD >= c.chunkMax then p.FlushSmall() else p;
    AppendSmallLimits(c, ready, s);
  }

  /** `data_batched` is always the weight of the pending batch, so no request ever exceeds a limit. */
  lemma PlanRespectsLimits(c: Config)
    ensures LogWithinLimits(c, PlanLog(c))
    ensures c.InRange(PlanItems(c, |c.sizes|).small)
    ensures PlanItems(c, |c.sizes|).batched == c.Weight(PlanItems(c, |c.sizes|).small)
  {
    PlanItemsLimits(c, |c.sizes|);
    var p := PlanItems(c, |c.sizes|);
    if p.metadata != [] {
      SendWithinLimits(c, p.log, Emission(p.metadata, false));
    }
    if p.small != [] {
      SendWithinLimits(c, p.FlushMetadata().log, Emission(p.small, true));
    }
  }

  // ---------- fewest requests ----------

  /** Every request for metadata is full, as long as there may be more. */
  ghost predicate FullMetadata(c: Config, p: Plan) {
    && (forall k :: 0 <= k < |p.log| && !p.log[k].inlined ==> |p.log[k].slots| == c.CountLimit())
    && |p.metadata| < c.CountLimit()
  }

  lemma AddedFull(c: Config, p: Plan, s: Slot)
    requires FullMetadata(c, p)
    ensures FullMetadata(c, p.AddMetadata(c, s))
    ensures s.i < |c.sizes| ==> FullMetadata(c, p.AddSmall(c, s))
  {
  }

  lemma {:induction false} PlanItemsFull(c: Config, n: nat)
    requires n <= |c.sizes|
    ensures FullMetadata(c, PlanItems(c, n))
  {
    hide FullMetadata, Plan.AddMetadata, Plan.AddSmall;
    if n == 0 {
      NothingFull(c);
    } else {
      var p := PlanItems(c, n - 1);
      PlanItemsFull(c, n - 1);
      AddedFull(c, p, Out(n - 1));
      var q := if c.withOutputs then p.AddMetadata(c, Out(n - 1)) else p;
      AddedFull(c, q, In(n - 1));
    }
  }

  lemma NothingFull(c: Config)
    ensures FullMetadata(c, PlanItems(c, 0))
  {
  }

  /** All requests for metadata but the last one are full, so there are as few of them as the count limit lets there be. */
  lemma MetadataIsFull(c: Config, j: nat, k: nat)
    requires j < k < |PlanLog(c)| && !PlanLog(c)[j].inlined && !PlanLog(c)[k].inlined
    ensures |PlanLog(c)[j].slots| == Max(1, c.limit)
  {
    PlanItemsFull(c, |c.sizes|);
    hide PlanItems;
  }

  /** A way to cut the first `n` small inputs into requests, without changing their order. */
  ghost predicate IsSplit(c: Config, n: nat, split: seq<seq<Slot>>)
    requires n <= |c.sizes|
  {
    Flatten(split) == SmallInputs(c, n) && forall b :: b in split ==> Fits(c, b)
  }

  /** A request that keeps the limits, or none. */
  predicate Fits(c: Config, b: seq<Slot>) {
    c.InRange(b) && |b| <= c.CountLimit() && (b != [] ==> c.Weight(b) < c.chunkMax)
  }

  /** The request a further small input would join if it fits: the pending one, else the last one sent. */
  function Current(p: Plan): seq<Slot> {
    var sent := Inlined(p.log);
    if p.small != [] || sent == [] then p.small else sent[|sent| - 1]
  }

  /** The number of requests with data that the plan has opened. */
  function Opened(p: Plan): nat {
    |Inlined(p.log)| + (if p.small == [] then 0 else 1)
  }

  lemma {:induction false} SuffixWeight(c: Config, whole: seq<Slot>, k: nat)
    requires c.InRange(whole) && k <= |whole|
    ensures c.InRange(whole[k..]) && c.Weight(whole[k..]) <= c.Weight(whole)
  {
    if k < |whole| {
      var front := whole[..|whole| - 1];
      SuffixWeight(c, front, k);
      assert whole[k..][..|whole| - k - 1] == front[k..];
    }
  }

  lemma LastOfSplit(front: seq<Slot>, last: seq<Slot>, before: seq<Slot>, s: Slot)
    requires last != [] && front + last == before + [s]
    ensures front + last[..|last| - 1] == before && last[|last| - 1] == s
  {
    assert front + last == front + last[..|last| - 1] + [last[|last| - 1]];
    assert (front + last)[..|front + last| - 1] == front + last[..|last| - 1];
    assert (before + [s])[..|before|] == before;
  }

  lemma ShorterFits(c: Config, last: seq<Slot>)
    requires last != [] && Fits(c, last)
    ensures Fits(c, last[..|last| - 1])
  {
    assert forall s :: s in last[..|last| - 1] ==> s in last;
  }

  lemma SplitFront(c: Config, n: nat, split: seq<seq<Slot>>) returns (front: seq<seq<Slot>>)
    requires 0 < n <= |c.sizes| && !c.Large(n - 1) && IsSplit(c, n, split)
    requires split != [] && split[|split| - 1] != []
    ensures IsSplit(c, n - 1, front)
    ensures var last := split[|split| - 1];
            if |last| == 1 then |front| == |split| - 1
            else |front| == |split| && front[|front| - 1] == last[..|last| - 1]
    ensures split[|split| - 1][|split[|split| - 1]| - 1] == In(n - 1)
  {
    var k := |split| - 1;
    var last := split[k];
    var shorter := last[..|last| - 1];
    assert SmallInputs(c, n) == SmallInputs(c, n - 1) + [In(n - 1)];
    assert Flatten(split) == Flatten(split[..k]) + last;
    FlattenSnoc(split[..k], shorter);
    hide SmallInputs, Fits, Flatten;
    LastOfSplit(Flatten(split[..k]), last, SmallInputs(c, n - 1), In(n - 1));
    assert Fits(c, last);
    ShorterFits(c, last);
    assert forall b :: b in split[..k] ==> b in split;
    if |last| == 1 {
      front := split[..k];
      assert Flatten(split[..k]) + shorter == Flatten(split[..k]);
    } else {
      front := split[..k] + [shorter];
    }
  }

  /** The next small input cannot join the current request. */
  predicate Blocked(c: Config, p: Plan, s: Slot)
    requires s.i < |c.sizes|
  {
    var current := Current(p);
    || Opened(p) == 0
    || |current| >= c.CountLimit()
    || (c.InRange(current) && c.Weight(current) + c.sizes[s.i] + MESSAGE_OVERHEAD >= c.chunkMax)
  }

  /** Between items, no pending small input means that none was sent or that the last request is full. */
  predicate FullWhenIdle(c: Config, p: Plan) {
    p.small == [] ==> Opened(p) == 0 || |Current(p)| >= c.CountLimit()
  }

  /** Sending the pending batch neither opens a request nor changes the current one. */
  lemma FlushSmallSame(p: Plan)
    ensures Opened(p.FlushSmall()) == Opened(p) && Current(p.FlushSmall()) == Current(p)
  {
    hide Flatten, EmittedSlots;
    LogSnoc(p.log, Emission(p.small, true));
  }

  /** A small input joins the current request, or opens a new one because it cannot. */
  lemma AddSmallStep(c: Config, p: Plan, s: Slot)
    requires c.InRange(p.small) && p.batched == c.Weight(p.small) && FullWhenIdle(c, p) && RightKind(c, s, true)
    ensures var q := p.AddSmall(c, s);
            && FullWhenIdle(c, q)
            && (|| (Opened(q) == Opened(p) && |Current(q)| == |Current(p)| + 1)
                || (Opened(q) == Opened(p) + 1 && |Current(q)| == 1 && Blocked(c, p, s)))
  {
    hide Inlined;
    var w := c.sizes[s.i] + MESSAGE_OVERHEAD;
    var ready := p;
    if p.batched + w >= c.chunkMax {
      FlushSmallSame(p);
      ready := p.FlushSmall();
      assert p.small != [];
    }
    var grown := ready.(small := ready.small + [s], batched := ready.batched + w);
    assert Current(grown) == ready.small + [s];
    FlushSmallSame(grown);
  }

  lemma {:induction false} PlanItemsIdle(c: Config, n: nat)
    requires n <= |c.sizes|
    ensures FullWhenIdle(c, PlanItems(c, n))
    ensures n > 0 ==> Placement(c, n - 1, PlanItems(c, n - 1), PlanItems(c, n))
  {
    hide PlanLimits, FullWhenIdle, Placement, Plan.AddItem;
    if n == 0 {
      NothingOpened(c);
    } else {
      PlanItemsIdle(c, n - 1);
      PlanItemsLimits(c, n - 1);
      AddItemStep(c, PlanItems(c, n - 1), n - 1);
    }
  }

  lemma AddItemStep(c: Config, p: Plan, n: nat)
    requires n < |c.sizes| && PlanLimits(c, p) && FullWhenIdle(c, p)
    ensures FullWhenIdle(c, p.AddItem(c, n)) && Placement(c, n, p, p.AddItem(c, n))
  {
    hide LogWithinLimits, Pending, Plan.AddMetadata, Plan.AddSmall, Inlined;
    AddMetadataSame(c, p, Out(n));
    var q := if c.withOutputs then p.AddMetadata(c, Out(n)) else p;
    AddMetadataSame(c, q, In(n));
    if !c.Large(n) {
      AddSmallStep(c, q, In(n));
    }
  }

  /** How item `n` changes the requests with data. */
  ghost predicate Placement(c: Config, n: nat, p: Plan, q: Plan)
    requires n < |c.sizes|
  {
    if c.Large(n) then Opened(q) == Opened(p) && Current(q) == Current(p)
    else
      || (Opened(q) == Opened(p) && |Current(q)| == |Current(p)| + 1)
      || (Opened(q) == Opened(p) + 1 && |Current(q)| == 1 && Blocked(c, p, In(n)))
  }

  lemma AddMetadataSame(c: Config, p: Plan, s: Slot)
    ensures var q := p.AddMetadata(c, s);
            q.small == p.small && q.batched == p.batched && Inlined(q.log) == Inlined(p.log)
  {
    LogSnoc(p.log, Emission(p.metadata + [s], false));
  }

  lemma CurrentIsSuffix(c: Config, n: nat)
    requires n <= |c.sizes|
    ensures var current, placed := Current(PlanItems(c, n)), SmallInputs(c, n);
            |current| <= |placed| && placed[|placed| - |current|..] == current
  {
    ItemsPlaced(c, n);
    hide PlanItems, SmallInputs, Placed, Slots;
    var p := PlanItems(c, n);
    var sent := Inlined(p.log);
    if p.small == [] && sent != [] {
      LastIsSuffix(Flatten(sent[..|sent| - 1]), sent[|sent| - 1]);
      assert Flatten(sent) + [] == Flatten(sent);
    } else {
      LastIsSuffix(Flatten(sent), p.small);
    }
    hide Inlined;
  }

  lemma LastIsSuffix(front: seq<Slot>, last: seq<Slot>)
    ensures (front + last)[|front + last| - |last|..] == last
  {
  }

  /** Once blocked, the item cannot join any request that ends with the current one. */
  lemma NoRoom(c: Config, n: nat, last: seq<Slot>)
    requires n < |c.sizes| && !c.Large(n) && Blocked(c, PlanItems(c, n), In(n)) && Opened(PlanItems(c, n)) > 0
    requires var current, placed := Current(PlanItems(c, n)), SmallInputs(c, n);
             |current| <= |last| <= |placed| && placed[|placed| - |last|..] == last
    requires c.InRange(last) && c.InRange(last + [In(n)])
    ensures |last| + 1 > c.CountLimit() || c.Weight(last + [In(n)]) >= c.chunkMax
  {
    var current, placed := Current(PlanItems(c, n)), SmallInputs(c, n);
    CurrentIsSuffix(c, n);
    hide Current, PlanItems, SmallInputs, Opened, Config.Weight;
    SuffixOfSuffix(placed, last, current);
    NoRoomBehind(c, current, last, In(n));
  }

  lemma NoRoomBehind(c: Config, current: seq<Slot>, last: seq<Slot>, s: Slot)
    requires |current| <= |last| && last[|last| - |current|..] == current
    requires c.InRange(current) && c.InRange(last) && c.InRange(last + [s]) && s.i < |c.sizes|
    ensures c.Weight(last + [s]) >= c.Weight(current) + c.sizes[s.i] + MESSAGE_OVERHEAD
  {
    SuffixWeight(c, last, |last| - |current|);
    assert (last + [s])[..|last|] == last;
  }

  lemma SuffixOfSuffix(all: seq<Slot>, last: seq<Slot>, current: seq<Slot>)
    requires |current| <= |last| <= |all| && all[|all| - |last|..] == last && all[|all| - |current|..] == current
    ensures last[|last| - |current|..] == current
  {
  }

  lemma NothingOpened(c: Config)
    ensures Opened(PlanItems(c, 0)) == 0 && Current(PlanItems(c, 0)) == [] && FullWhenIdle(c, PlanItems(c, 0))
  {
  }

  /** The greedy plan stays ahead of any other split: fewer requests, or as many and a current one no longer. */
  lemma {:induction false} StaysAhead(c: Config, n: nat, split: seq<seq<Slot>>)
    requires n <= |c.sizes| && IsSplit(c, n, split)
    ensures var p := PlanItems(c, n);
            || Opened(p) < |split|
            || (Opened(p) == |split| && (split != [] ==> |Current(p)| <= |split[|split| - 1]|))
    decreases n, |split|
  {
    hide Opened, Current, PlanItems, Config.Weight;
    if n == 0 {
      NothingOpened(c);
    } else if c.Large(n - 1) {
      PlanItemsIdle(c, n);
      assert SmallInputs(c, n) == SmallInputs(c, n - 1);
      StaysAhead(c, n - 1, split);
    } else if split[|split| - 1] == [] {
      StaysAhead(c, n, split[..|split| - 1]);
    } else {
      var front := SplitFront(c, n, split);
      StaysAhead(c, n - 1, front);
      PlanItemsIdle(c, n);
      StaysAheadStep(c, n - 1, front, split);
    }
  }

  lemma StaysAheadStep(c: Config, n: nat, front: seq<seq<Slot>>, split: seq<seq<Slot>>)
    requires n < |c.sizes| && !c.Large(n) && Placement(c, n, PlanItems(c, n), PlanItems(c, n + 1))
    requires IsSplit(c, n, front) && IsSplit(c, n + 1, split)
    requires split != [] && split[|split| - 1] != []
    requires var last := split[|split| - 1];
             && last[|last| - 1] == In(n)
             && if |last| == 1 then |front| == |split| - 1
                else |front| == |split| && front[|front| - 1] == last[..|last| - 1]
    requires var p := PlanItems(c, n);
             || Opened(p) < |front|
             || (Opened(p) == |front| && (front != [] ==> |Current(p)| <= |front[|front| - 1]|))
    ensures var q := PlanItems(c, n + 1);
            Opened(q) < |split| || (Opened(q) == |split| && |Current(q)| <= |split[|split| - 1]|)
  {
    hide Current, Opened, PlanItems;
    var p, q, last := PlanItems(c, n), PlanItems(c, n + 1), split[|split| - 1];
    if Opened(q) == Opened(p) + 1 && |last| > 1 && Opened(p) == |front| {
      var before := front[|front| - 1];
      assert before + [In(n)] == last && Fits(c, last) && Fits(c, before);
      assert Flatten(front)[|Flatten(front)| - |before|..] == before;
      NoRoom(c, n, before);
    }
  }

  /** No order-preserving way to cut the small inputs within the limits uses fewer requests than the plan. */
  lemma FewestRequests(c: Config, split: seq<seq<Slot>>)
    requires IsSplit(c, |c.sizes|, split)
    ensures |Inlined(PlanLog(c))| <= |split|
  {
    StaysAhead(c, |c.sizes|, split);
    OpenedInTheEnd(PlanItems(c, |c.sizes|));
    hide Opened, Current, PlanItems, Inlined, IsSplit, Plan.FlushMetadata, Plan.FlushSmall;
  }

  lemma OpenedInTheEnd(p: Plan)
    ensures |Inlined(p.FlushMetadata().FlushSmall().log)| == Opened(p)
  {
    LogSnoc(p.log, Emission(p.metadata, false));
    LogSnoc(p.FlushMetadata().log, Emission(p.small, true));
    hide Inlined;
  }

  /** The plan is itself such a split, so the bound is reached. */
  lemma PlanIsASplit(c: Config)
    ensures IsSplit(c, |c.sizes|, Inlined(PlanLog(c)))
  {
    PlanCoversOnce(c);
    PlanRespectsLimits(c);
    InlinedWithinLimits(c, PlanLog(c));
  }

  lemma {:induction false} InlinedWithinLimits(c: Config, log: seq<Emission>)
    requires LogWithinLimits(c, log)
    ensures forall b :: b in Inlined(log) ==> WithinLimits(c, Emission(b, true))
  {
    if log != [] {
      InlinedWithinLimits(c, log[..|log| - 1]);
      assert log[|log| - 1] in log;
    }
  }
}
