/** The streamed upload of a large result: chunks, and at most three attempts. */
module Upload {
  import opened Prelude

  const MAX_RETRY: nat := 3

  /** How the server side behaves during one attempt; `broken` is the first data write that fails, if any. */
  datatype Attempt = Attempt(channel: bool, broken: Option<nat>, writesDone: bool, finished: bool, reportedSize: int)

  /** One turn of the chunking loop: the chunk to send, and what remains. */
  function NextChunk(remaining: string, limit: nat): (string, string) {
    var n := Min(limit, |remaining|);
    (remaining[..n], remaining[n..])
  }

  function Chunks(data: string, limit: nat): seq<string>
    requires limit > 0
    decreases |data|
  {
    if data == "" then [] else
      var (chunk, rest) := NextChunk(data, limit);
      [chunk] + Chunks(rest, limit)
  }

  /** Nothing went wrong, and the server has as many bytes as the client. */
  predicate Good(data: string, limit: nat, a: Attempt)
    requires limit > 0
  {
    && a.channel
    && (a.broken.None? || a.broken.value >= |Chunks(data, limit)|)
    && a.writesDone && a.finished
    && a.reportedSize == |data|
  }

  /** Sends the chunks until one is refused. */
  method SendChunks(data: string, limit: nat, broken: Option<nat>) returns (sent: seq<string>, complete: bool)
    requires limit > 0
    ensures var all := Chunks(data, limit); sent == if broken.Some? then all[..Min(broken.value, |all|)] else all
    ensures complete <==> |sent| == |Chunks(data, limit)|
  {
    var remaining := data;
    sent, complete := [], true;
    while remaining != ""
      invariant Chunks(data, limit) == sent + Chunks(remaining, limit)
      invariant broken.Some? ==> |sent| <= broken.value
      decreases |remaining|
    {
      var (chunk, rest) := NextChunk(remaining, limit);
      if broken == Some(|sent|) {
        return sent, false;
      }
      assert sent + ([chunk] + Chunks(rest, limit)) == sent + [chunk] + Chunks(rest, limit);
      sent, remaining := sent + [chunk], rest;
    }
  }

  /** One attempt, and what it sends before it fails or goes through. */
  method Try(data: string, limit: nat, a: Attempt) returns (ok: bool, sent: seq<string>)
    requires limit > 0
    ensures ok <==>
              && a.channel && (a.broken.None? || a.broken.value >= |Chunks(data, limit)|)
              && a.writesDone && a.finished && a.reportedSize == |data|
    ensures var all := Chunks(data, limit);
            sent == if !a.channel then [] else if a.broken.Some? then all[..Min(a.broken.value, |all|)] else all
    ensures ok ==> Flatten(sent) == data
  {
    if !a.channel {
      return false, [];
    }
    var complete;
    sent, complete := SendChunks(data, limit, a.broken);
    ChunksExact(data, limit);
    assert Chunks(data, limit)[..|Chunks(data, limit)|] == Chunks(data, limit);
    ok := complete && a.writesDone && a.finished && a.reportedSize == |data|;
  }

  /**
   * Uploads with retries. It succeeds exactly when one of the three attempts gets a channel, has no chunk refused, is
   * told that writing and finishing went well, and is reported with the size of the data; it stops at the first such
   * attempt, which has sent the whole data.
   */
  method UploadLargeResult(data: string, limit: nat, attempts: seq<Attempt>) returns (ok: bool, sent: seq<seq<string>>)
    requires limit > 0 && |attempts| == MAX_RETRY
    ensures |attempts| == 3 && 0 < |sent| <= 3 && (!ok ==> |sent| == 3)
    ensures ok ==>
              var a := attempts[|sent| - 1];
              && a.channel && (a.broken.None? || a.broken.value >= |Chunks(data, limit)|)
              && a.writesDone && a.finished && a.reportedSize == |data|
              && Flatten(sent[|sent| - 1]) == data
    ensures forall k :: 0 <= k < (if ok then |sent| - 1 else 3) ==>
              var a := attempts[k];
              || !a.channel || (a.broken.Some? && a.broken.value < |Chunks(data, limit)|)
              || !a.writesDone || !a.finished || a.reportedSize != |data|
    ensures forall k :: 0 <= k < |sent| ==>
              var a, all := attempts[k], Chunks(data, limit);
              sent[k] == if !a.channel then [] else if a.broken.Some? then all[..Min(a.broken.value, |all|)] else all
  {
    sent, ok := [], false;
    for retry := 0 to MAX_RETRY
      invariant |sent| == retry && !ok
      invariant forall k :: 0 <= k < retry ==>
                  var a, all := attempts[k], Chunks(data, limit);
                  sent[k] == if !a.channel then [] else if a.broken.Some? then all[..Min(a.broken.value, |all|)] else all
      invariant forall k :: 0 <= k < retry ==> !Good(data, limit, attempts[k])
    {
      var chunks;
      ok, chunks := Try(data, limit, attempts[retry]);
      sent := sent + [chunks];
      if ok {
        return;
      }
    }
  }

  lemma {:induction false} FlattenCons<T>(x: seq<T>, xs: seq<seq<T>>)
    ensures Flatten([x] + xs) == x + Flatten(xs)
  {
    if xs == [] {
      assert Flatten([x] + xs) == Flatten([]) + x;
    } else {
      var front, last := xs[..|xs| - 1], xs[|xs| - 1];
      FlattenCons(x, front);
      assert ([x] + xs)[..|xs|] == [x] + front;
    }
  }

  lemma OneMoreChunk(size: nat, limit: nat, n: nat)
    requires size > 0 && limit > 0 && RoundedUp(size - Min(limit, size), limit, n)
    ensures RoundedUp(size, limit, n + 1)
  {
    assert (n + 1) * limit == n * limit + limit;
    assert n * limit == (n - 1) * limit + limit;
  }

  /**
   * The chunks are nonempty, at most `limit` long, and concatenate to the data; their number is the size
   * divided by the limit, rounded up.
   */
  lemma {:induction false} ChunksExact(data: string, limit: nat)
    requires limit > 0
    ensures Flatten(Chunks(data, limit)) == data
    ensures forall c :: c in Chunks(data, limit) ==> 0 < |c| <= limit
    ensures forall k :: 0 <= k < |Chunks(data, limit)| - 1 ==> |Chunks(data, limit)[k]| == limit
    ensures RoundedUp(|data|, limit, |Chunks(data, limit)|)
    decreases |data|
  {
    hide RoundedUp, Flatten, Chunks;
    if data != "" {
      var (chunk, rest) := NextChunk(data, limit);
      ChunksExact(rest, limit);
      FirstChunk(data, limit);
      FlattenCons(chunk, Chunks(rest, limit));
      OneMoreChunk(|data|, limit, |Chunks(rest, limit)|);
      if rest == "" {
        NoChunks(limit);
      }
    } else {
      NoChunks(limit);
    }
  }

  lemma FirstChunk(data: string, limit: nat)
    requires limit > 0 && data != ""
    ensures var (chunk, rest) := NextChunk(data, limit);
            && Chunks(data, limit) == [chunk] + Chunks(rest, limit) && chunk + rest == data
            && 0 < |chunk| <= limit && |rest| == |data| - Min(limit, |data|)
  {
  }

  lemma NoChunks(limit: nat)
    requires limit > 0
    ensures Chunks("", limit) == [] && Flatten(Chunks("", limit)) == "" && RoundedUp(0, limit, 0)
  {
  }

  /** What remains after `n` turns of the loop, with empty turns at the end. */
  function Turns(data: string, limit: nat, n: nat): string {
    if n == 0 then data else NextChunk(Turns(data, limit, n - 1), limit).1
  }

  lemma {:induction false} TurnsShrink(data: string, limit: nat, n: nat)
    ensures if limit == 0 then Turns(data, limit, n) == data else |Turns(data, limit, n)| <= Max(0, |data| - n)
  {
    if n > 0 {
      TurnsShrink(data, limit, n - 1);
    }
  }

  /**
   * The loop has come to an end after as many turns as there are bytes, or after any larger number, exactly when the chunk
   * size is not zero or there is no data; with zero all of the data remains after any number of turns.
   */
  lemma LoopEndsExactly(data: string, limit: nat, n: nat)
    ensures n >= |data| ==> (Turns(data, limit, n) == "" <==> limit > 0 || data == "")
    ensures limit == 0 ==> Turns(data, limit, n) == data
  {
    TurnsShrink(data, limit, n);
    hide Turns;
  }
}
