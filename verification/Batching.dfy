/**
 * How a submission groups its work into requests: results that need metadata only (outputs and large
 * inputs) are batched by count, small inputs are batched by count and by the bytes of the request.
 */
module Batching {
  import opened Prelude

  const MESSAGE_OVERHEAD: nat := 128

  /** A cell of the arrays a submission fills in: the result id of input `i` or of output `i`. */
  datatype Slot = In(i: nat) | Out(i: nat)

  /** One request to create results; an inlined one carries the data of its inputs. */
  datatype Emission = Emission(slots: seq<Slot>, inlined: bool)

  /**
   * Groups requests. The source hands a full batch to a callback; here Add and ProcessBatch return
   * the batch the callback receives, or [] when it is not called.
   */
  class Batcher<T> {
    const batchSize: nat
    var requests: seq<T>

    constructor (batchSize: nat)
      ensures this.batchSize == batchSize && requests == []
    {
      this.batchSize := batchSize;
      requests := [];
    }

    method Add(request: T) returns (batch: seq<T>)
      modifies this
      ensures (requests, batch) ==
              var grown := old(requests) + [request]; if |grown| >= batchSize then ([], grown) else (grown, [])
    {
      batch := [];
      requests := requests + [request];
      if |requests| >= batchSize {
        batch := ProcessBatch();
      }
    }

    method ProcessBatch() returns (batch: seq<T>)
      modifies this
      ensures requests == [] && batch == old(requests)
    {
      batch := requests;
      requests := [];
    }
  }

  /** The sizes and limits a plan depends on; `withOutputs` tells a task submission from a blob upload. */
  datatype Config = Config(sizes: seq<nat>, chunkMax: nat, limit: nat, withOutputs: bool) {
    predicate Large(i: nat)
      requires i < |sizes|
    {
      sizes[i] + MESSAGE_OVERHEAD >= chunkMax
    }

    /** The bytes a list of inputs adds to a request. */
    function Weight(slots: seq<Slot>): nat
      requires InRange(slots)
    {
      if slots == [] then 0
      else Weight(slots[..|slots| - 1]) + sizes[slots[|slots| - 1].i] + MESSAGE_OVERHEAD
    }

    predicate InRange(slots: seq<Slot>) {
      forall s :: s in slots ==> s.i < |sizes|
    }

    function CountLimit(): nat {
      Max(1, limit)
    }
  }

  /** The two pending batches, the bytes counted for the second one, and the requests sent so far. */
  datatype Plan = Plan(metadata: seq<Slot>, small: seq<Slot>, batched: nat, log: seq<Emission>) {

    function AddMetadata(c: Config, s: Slot): Plan {
      var grown := metadata + [s];
      if |grown| >= c.limit then this.(metadata := [], log := log + [Emission(grown, false)])
      else this.(metadata := grown)
    }

    function FlushMetadata(): Plan {
      if metadata == [] then this else this.(metadata := [], log := log + [Emission(metadata, false)])
    }

    function FlushSmall(): Plan {
      if small == [] then this else this.(small := [], batched := 0, log := log + [Emission(small, true)])
    }

    function AddSmall(c: Config, s: Slot): Plan
      requires s.i < |c.sizes|
    {
      var w := c.sizes[s.i] + MESSAGE_OVERHEAD;
      var ready := if batched + w >= c.chunkMax then FlushSmall() else this;
      var grown := ready.(small := ready.small + [s], batched := ready.batched + w);
      if |grown.small| >= c.limit then grown.FlushSmall() else grown
    }

    function AddInput(c: Config, i: nat): Plan
      requires i < |c.sizes|
    {
      if c.Large(i) then AddMetadata(c, In(i)) else AddSmall(c, In(i))
    }

    function AddItem(c: Config, i: nat): Plan
      requires i < |c.sizes|
    {
      (if c.withOutputs then AddMetadata(c, Out(i)) else this).AddInput(c, i)
    }
  }

  /** The plan after the first `n` items. */
  function PlanItems(c: Config, n: nat): Plan
    requires n <= |c.sizes|
  {
    if n == 0 then Plan([], [], 0, []) else PlanItems(c, n - 1).AddItem(c, n - 1)
  }

  /** All the requests of a submission, in the order they are spawned. */
  function PlanLog(c: Config): seq<Emission> {
    PlanItems(c, |c.sizes|).FlushMetadata().FlushSmall().log
  }

  /** A small input; the callback of its batcher sets the count of bytes back. */
  method AddData(
    c: Config, dataBatcher: Batcher<Slot>, dataBatched: nat, i: nat, log: seq<Emission>, ghost metadata: seq<Slot>)
    returns (dataBatched': nat, log': seq<Emission>)
    requires i < |c.sizes| && dataBatcher.batchSize == c.limit
    modifies dataBatcher
    ensures Plan(metadata, dataBatcher.requests, dataBatched', log')
         == Plan(metadata, old(dataBatcher.requests), dataBatched, log).AddSmall(c, In(i))
  {
    var payloadSize := c.sizes[i];
    var batch: seq<Slot>;
    dataBatched', log' := dataBatched, log;
    if dataBatched' + payloadSize + MESSAGE_OVERHEAD >= c.chunkMax {
      batch := dataBatcher.ProcessBatch();
      dataBatched' := if batch == [] then dataBatched' else 0;
      log' := Emit(log', batch, true);
    }
    dataBatched' := dataBatched' + payloadSize + MESSAGE_OVERHEAD;
    batch := dataBatcher.Add(In(i));
    dataBatched' := if batch == [] then dataBatched' else 0;
    log' := Emit(log', batch, true);
  }

  /** The loop of SubmitRaw (with outputs) and of Submit for task definitions (without). */
  method PlanCreation(c: Config) returns (log: seq<Emission>)
    ensures log == PlanLog(c)
  {
    var metadataBatcher := new Batcher<Slot>(c.limit);
    var dataBatcher := new Batcher<Slot>(c.limit);
    var dataBatched: nat := 0;
    log := [];
    var batch: seq<Slot>;
    for i := 0 to |c.sizes|
      invariant metadataBatcher.batchSize == dataBatcher.batchSize == c.limit
      invariant fresh(metadataBatcher) && fresh(dataBatcher) && metadataBatcher != dataBatcher
      invariant PlanItems(c, i) == Plan(metadataBatcher.requests, dataBatcher.requests, dataBatched, log)
    {
      var payloadSize := c.sizes[i];
      if c.withOutputs {
        batch := metadataBatcher.Add(Out(i));
        log := Emit(log, batch, false);
      }
      if payloadSize + MESSAGE_OVERHEAD >= c.chunkMax {
        batch := metadataBatcher.Add(In(i));
        log := Emit(log, batch, false);
      } else {
        dataBatched, log := AddData(c, dataBatcher, dataBatched, i, log, metadataBatcher.requests);
      }
    }
    batch := metadataBatcher.ProcessBatch();
    log := Emit(log, batch, false);
    batch := dataBatcher.ProcessBatch();
    log := Emit(log, batch, true);
  }

  function Emit(log: seq<Emission>, batch: seq<Slot>, inlined: bool): seq<Emission> {
    if batch == [] then log else log + [Emission(batch, inlined)]
  }

  // ---------- the number of batches ----------

  /** So many full batches, and what is left for others. */
  ghost predicate Batched(full: nat, size: nat, total: nat, rest: nat) {
    total == full * size + rest
  }

  lemma NoBatches(size: nat, total: nat)
    ensures Batched(0, size, total, total)
  {
  }

  lemma OneBatchMore(full: nat, size: nat, total: nat, rest: nat)
    requires Batched(full, size, total, rest) && rest >= size
    ensures Batched(full + 1, size, total, rest - size)
  {
    assert (full + 1) * size == full * size + size;
  }

  lemma NoBatchLeft(full: nat, size: nat, total: nat)
    requires Batched(full, size, total, 0) && size > 0
    ensures RoundedUp(total, size, full)
  {
    assert (full - 1) * size == full * size - size;
  }

  lemma LastBatch(full: nat, size: nat, total: nat, rest: nat)
    requires Batched(full, size, total, rest) && 0 < rest <= size
    ensures RoundedUp(total, size, full + 1)
  {
    assert (full + 1) * size == full * size + size;
  }

  /** The first `i` indices are in full batches, or with the batcher. */
  ghost predicate Planned(batches: seq<seq<nat>>, requests: seq<nat>, i: nat, size: nat) {
    && Flatten(batches) + requests == seq(i, k => k)
    && (forall b :: b in batches ==> |b| == size)
    && |requests| < size && Batched(|batches|, size, i, |requests|)
  }

  lemma PlannedOn(batches: seq<seq<nat>>, requests: seq<nat>, i: nat, size: nat)
    requires Planned(batches, requests, i, size)
    ensures if |requests| + 1 >= size then Planned(batches + [requests + [i]], [], i + 1, size)
            else Planned(batches, requests + [i], i + 1, size)
  {
    assert Flatten(batches) + (requests + [i]) == Flatten(batches) + requests + [i];
    assert seq(i + 1, k => k) == seq(i, k => k) + [i];
    if |requests| + 1 >= size {
      FlattenSnoc(batches, requests + [i]);
      OneBatchMore(|batches|, size, i + 1, size);
    }
    hide Flatten;
  }

  lemma PlannedEnds(batches: seq<seq<nat>>, requests: seq<nat>, n: nat, size: nat)
    requires Planned(batches, requests, n, size)
    ensures var all := if requests == [] then batches else batches + [requests];
            && Flatten(all) == seq(n, i => i) && RoundedUp(n, size, |all|)
            && (forall b :: b in all ==> 0 < |b| <= size) && (forall k :: 0 <= k < |all| - 1 ==> |all[k]| == size)
  {
    if requests == [] {
      NoBatchLeft(|batches|, size, n);
    } else {
      LastBatch(|batches|, size, n, |requests|);
      FlattenSnoc(batches, requests);
    }
    hide Flatten, RoundedUp;
  }

  /** Batching by count alone: what happens to the indices of the tasks to submit. */
  method PlanTasks(n: nat, limit: nat) returns (batches: seq<seq<nat>>)
    ensures Flatten(batches) == seq(n, i => i)
    ensures forall b :: b in batches ==> 0 < |b| <= Max(1, limit)
    ensures forall k :: 0 <= k < |batches| - 1 ==> |batches[k]| == Max(1, limit)
    ensures RoundedUp(n, Max(1, limit), |batches|)
  {
    var batcher := new Batcher<nat>(limit);
    batches := [];
    var batch: seq<nat>;
    NoBatches(Max(1, limit), 0);
    assert Planned(batches, batcher.requests, 0, Max(1, limit));
    hide Planned, RoundedUp, Flatten;
    for i := 0 to n
      invariant fresh(batcher) && batcher.batchSize == limit
      invariant Planned(batches, batcher.requests, i, Max(1, limit))
    {
      PlannedOn(batches, batcher.requests, i, Max(1, limit));
      batch := batcher.Add(i);
      if batch != [] {
        batches := batches + [batch];
      }
    }
    PlannedEnds(batches, batcher.requests, n, Max(1, limit));
    batch := batcher.ProcessBatch();
    if batch != [] {
      batches := batches + [batch];
    }
  }
}
