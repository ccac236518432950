/** `StreamOutput` and `RealTimeStreamer`: a producer thread slices the content
    into chunks and puts them on a FIFO queue followed by a `None` end marker;
    a consumer pops from the queue.

    The threads are modelled sequentially. The producer is a function giving the
    items it puts on the queue: `stopAt == Some(k)` says that `stop_streaming`
    cleared the `is_streaming` flag before the producer's `k`-th iteration read it
    (the flag only ever goes from true to false while a producer runs). The
    consumer is a transition on the pair (queue, `is_streaming`).
 */
module Stream {
  import opened Wrappers
  import opened PySeq

  /** `generate_stream`'s default, the only size `start_streaming` ever uses. */
  const DefaultChunkSize: nat := 10

  /** A queue entry: a chunk, or the `None` end-of-stream marker. */
  datatype Item = Chunk(text: string) | EndOfStream

  /** The state both threads share: the queue and the `is_streaming` flag. */
  datatype Streamer = Streamer(queue: seq<Item>, isStreaming: bool)

  /** A new `StreamOutput()`: empty queue, not streaming. */
  const Fresh := Streamer([], false)

  /** `generate_stream(content, chunk_size)`: `range(0, len, chunk_size)` raises
      ValueError for a zero step and is empty for a negative one. */
  function GenerateStream(content: string, chunkSize: int): (r: Result<seq<string>>)
    ensures r.Err? <==> chunkSize == 0
    ensures chunkSize < 0 ==> r == Ok([])
    ensures chunkSize > 0 ==> r.Ok? && Flatten(r.value) == content
    ensures chunkSize > 0 ==> forall k :: 0 <= k < |r.value| ==> 0 < |r.value[k]| <= chunkSize
    ensures chunkSize > 0 ==> forall k :: 0 <= k < |r.value| - 1 ==> |r.value[k]| == chunkSize
    ensures chunkSize > 0 ==> |content| <= |r.value| * chunkSize < |content| + chunkSize
  {
    if chunkSize == 0 then Err(ZeroStep)
    else if chunkSize < 0 then Ok([])
    else
      SlicesFlatten(content, chunkSize);
      SlicesCount(content, chunkSize);
      Ok(Slices(content, chunkSize))
  }

  /** The chunks `start_streaming` produces for `content`. */
  function ChunksOf(content: string): seq<string>
  {
    Slices(content, DefaultChunkSize)
  }

  /** The queue entries for a run of chunks. */
  function Items(chunks: seq<string>): (r: seq<Item>)
    ensures |r| == |chunks|
    ensures forall j :: 0 <= j < |r| ==> r[j] == Chunk(chunks[j])
  {
    seq(|chunks|, j requires 0 <= j < |chunks| => Chunk(chunks[j]))
  }

  /** The number of chunks a producer puts before it sees the cleared flag. */
  function Emitted(stopAt: Option<nat>, n: nat): (e: nat)
    ensures e <= n
    ensures stopAt.None? ==> e == n
  {
    match stopAt
    case None => n
    case Some(k) => Min(k, n)
  }

  /** Iteration `i` of the producer finds `is_streaming` cleared. */
  predicate StoppedBefore(stopAt: Option<nat>, i: nat)
  {
    stopAt.Some? && stopAt.value <= i
  }

  /** The producer loop from iteration `i` on: check the flag, put the chunk;
      after the loop (finished or broken out of) put the end marker. */
  function ProduceFrom(chunks: seq<string>, i: nat, stopAt: Option<nat>): (r: seq<Item>)
    requires i <= |chunks|
    ensures i <= Emitted(stopAt, |chunks|) ==>
              r == Items(chunks[i..Emitted(stopAt, |chunks|)]) + [EndOfStream]
    ensures Emitted(stopAt, |chunks|) < i ==> r == [EndOfStream]
    decreases |chunks| - i
  {
    if i == |chunks| || StoppedBefore(stopAt, i) then [EndOfStream]
    else [Chunk(chunks[i])] + ProduceFrom(chunks, i + 1, stopAt)
  }

  /** Everything the `_stream_content` thread puts on the queue for `content`:
      a prefix of the chunks (all of them when nothing stopped it), then exactly
      one end marker, last. */
  function Produce(content: string, stopAt: Option<nat>): (r: seq<Item>)
    ensures r == Items(ChunksOf(content)[..Emitted(stopAt, |ChunksOf(content)|)]) + [EndOfStream]
    ensures stopAt.None? ==> r == Items(ChunksOf(content)) + [EndOfStream]
    ensures stopAt == Some(0) ==> r == [EndOfStream]
  {
    assert ChunksOf(content)[0..] == ChunksOf(content);
    ProduceFrom(ChunksOf(content), 0, stopAt)
  }

  /** `start_streaming(content)`, observed once its producer thread has finished.
      A call while already streaming is a silent no-op. Otherwise the flag is set
      and the producer's items are appended to whatever the queue still held; if a
      stop cut the producer short, the flag is left cleared by that stop. */
  function StartStreaming(s: Streamer, content: string, stopAt: Option<nat>): (r: Streamer)
    ensures s.isStreaming ==> r == s
    ensures !s.isStreaming ==> r.queue == s.queue + Produce(content, stopAt)
    ensures !s.isStreaming ==> (r.isStreaming <==> stopAt.None?)
  {
    if s.isStreaming then s
    else Streamer(s.queue + Produce(content, stopAt), stopAt.None?)
  }

  /** The result of one `get_next_chunk` call and the state it leaves behind. */
  datatype Poll = Poll(chunk: string, after: Streamer)

  /** `get_next_chunk()`: an empty queue times out and returns `""` changing
      nothing; the end marker clears the flag and returns `""`; a chunk is
      returned as is and leaves the flag alone. */
  function GetNextChunk(s: Streamer): (p: Poll)
    ensures s.queue == [] ==> p == Poll("", s)
    ensures s.queue != [] && s.queue[0] == EndOfStream ==>
              p == Poll("", Streamer(s.queue[1..], false))
    ensures s.queue != [] && s.queue[0].Chunk? ==>
              p == Poll(s.queue[0].text, Streamer(s.queue[1..], s.isStreaming))
  {
    if s.queue == [] then Poll("", s)
    else match s.queue[0]
      case EndOfStream => Poll("", Streamer(s.queue[1..], false))
      case Chunk(text) => Poll(text, Streamer(s.queue[1..], s.isStreaming))
  }

  /** `stop_streaming()`: clears the flag; the queue is untouched (the bounded
      `join` on the producer thread is not modelled). */
  function StopStreaming(s: Streamer): (r: Streamer)
    ensures !r.isStreaming && r.queue == s.queue
  {
    s.(isStreaming := false)
  }

  /** `n` successive `get_next_chunk()` calls: what they return, in order, and the final state. */
  function Consume(s: Streamer, n: nat): (seq<string>, Streamer)
    decreases n
  {
    if n == 0 then ([], s)
    else
      var p := GetNextChunk(s);
      var next := Consume(p.after, n - 1);
      ([p.chunk] + next.0, next.1)
  }

  /** Draining a queue that holds chunks and then the end marker returns the
      chunks in order, then `""`, and leaves an empty queue with the flag cleared. */
  lemma {:induction false} DrainQueue(chunks: seq<string>, flag: bool)
    ensures Consume(Streamer(Items(chunks) + [EndOfStream], flag), |chunks| + 1)
            == (chunks + [""], Streamer([], false))
    decreases |chunks|
  {
    var s := Streamer(Items(chunks) + [EndOfStream], flag);
    if |chunks| == 0 {
      assert s.queue == [EndOfStream];
      assert GetNextChunk(s) == Poll("", Streamer([], false));
      assert Consume(Streamer([], false), 0) == ([], Streamer([], false));
      assert chunks + [""] == [""] + [];
    } else {
      assert s.queue[0] == Chunk(chunks[0]);
      assert s.queue[1..] == Items(chunks[1..]) + [EndOfStream];
      DrainQueue(chunks[1..], flag);
      assert [chunks[0]] + (chunks[1..] + [""]) == chunks + [""];
    }
  }

  /** Once the end marker has been consumed, every further call returns `""`
      and changes nothing: the end is never signalled twice. */
  lemma {:induction false} AfterEndIdle(n: nat)
    ensures Consume(Streamer([], false), n) == (seq(n, _ => ""), Streamer([], false))
  {
    var idle := Streamer([], false);
    if n > 0 {
      assert GetNextChunk(idle) == Poll("", idle);
      AfterEndIdle(n - 1);
      assert [""] + seq(n - 1, _ => "") == seq(n, _ => "");
    } else {
      assert seq(0, _ => "") == [];
    }
  }

  /** The round trip of the whole protocol: starting an idle streamer and
      draining it yields exactly the chunks of `content`, whose concatenation is
      `content`, then the end. A stop before iteration `k` yields the first `k`
      chunks only, which form a prefix of `content`. */
  lemma StreamRoundTrip(content: string, stopAt: Option<nat>)
    ensures var chunks := ChunksOf(content);
            var e := Emitted(stopAt, |chunks|);
            var s := StartStreaming(Fresh, content, stopAt);
            && Consume(s, e + 1) == (chunks[..e] + [""], Streamer([], false))
            && Flatten(chunks[..e]) <= content
            && (stopAt.None? ==> Flatten(chunks[..e]) == content)
  {
    var chunks := ChunksOf(content);
    var e := Emitted(stopAt, |chunks|);
    StartDrains(content, stopAt);
    EmittedPrefix(content, e);
  }

  lemma StartDrains(content: string, stopAt: Option<nat>)
    ensures var chunks := ChunksOf(content);
            var e := Emitted(stopAt, |chunks|);
            Consume(StartStreaming(Fresh, content, stopAt), e + 1) == (chunks[..e] + [""], Streamer([], false))
  {
    var chunks := ChunksOf(content);
    var e := Emitted(stopAt, |chunks|);
    var s := StartStreaming(Fresh, content, stopAt);
    assert s == Streamer(Items(chunks[..e]) + [EndOfStream], s.isStreaming);
    DrainQueue(chunks[..e], s.isStreaming);
  }

  /** The first `e` chunks spell a prefix of the content, all of it when `e` is the chunk count. */
  lemma EmittedPrefix(content: string, e: nat)
    requires e <= |ChunksOf(content)|
    ensures Flatten(ChunksOf(content)[..e]) <= content
    ensures e == |ChunksOf(content)| ==> Flatten(ChunksOf(content)[..e]) == content
  {
    var chunks := ChunksOf(content);
    SlicesFlatten(content, DefaultChunkSize);
    assert chunks == chunks[..e] + chunks[e..];
    FlattenAppend(chunks[..e], chunks[e..]);
  }

  /** `get_next_chunk` returns `""` both on a timeout and at the end; for a
      consumer that polls while streaming, the flag tells the two apart. */
  lemma EmptyResultAmbiguity(s: Streamer)
    requires s.isStreaming
    requires forall j :: 0 <= j < |s.queue| ==> s.queue[j] != Chunk("")
    ensures GetNextChunk(s).chunk == "" <==> (s.queue == [] || s.queue[0] == EndOfStream)
    ensures GetNextChunk(s).chunk == "" ==>
              (!GetNextChunk(s).after.isStreaming <==> s.queue != [])
  {
    if s.queue != [] {
      assert s.queue[0] != Chunk("");
    }
  }

  // ----- RealTimeStreamer -------------------------------------------------------

  /** A registered callback, described by the chunks on which it raises. */
  type Observer = string -> bool

  /** A `RealTimeStreamer`: the shared state plus the callbacks in registration order. */
  datatype RealTimeStreamer = RealTimeStreamer(base: Streamer, callbacks: seq<Observer>)

  /** `add_callback(cb)`: appended last, earlier registrations untouched. */
  function AddCallback(rs: RealTimeStreamer, cb: Observer): (r: RealTimeStreamer)
    ensures r.base == rs.base
    ensures |r.callbacks| == |rs.callbacks| + 1 && r.callbacks[..|rs.callbacks|] == rs.callbacks
    ensures r.callbacks[|rs.callbacks|] == cb
  {
    rs.(callbacks := rs.callbacks + [cb])
  }

  /** What the callback producer does, in order: a put on the queue, or a
      call of callback number `observer` on `chunk` that raised or returned. */
  datatype Event = Put(item: Item) | Invoke(observer: nat, chunk: string, raised: bool)

  /** The inner `for callback in self.callbacks` loop for one chunk: the
      `try/except` around each call means every callback runs, in registration
      order, whether or not an earlier one raised. */
  function Fanout(chunk: string, callbacks: seq<Observer>): (r: seq<Event>)
    ensures |r| == |callbacks|
    ensures forall j :: 0 <= j < |r| ==> r[j] == Invoke(j, chunk, callbacks[j](chunk))
  {
    seq(|callbacks|, j requires 0 <= j < |callbacks| => Invoke(j, chunk, callbacks[j](chunk)))
  }

  /** `_stream_with_callbacks` from iteration `i` on: check the flag, put the
      chunk, run the callbacks; finally put the end marker. Each chunk put takes
      one block of `BlockSize` events, and the marker one more. */
  function CallbackTrace(chunks: seq<string>, i: nat, stopAt: Option<nat>,
                         callbacks: seq<Observer>): (t: seq<Event>)
    requires i <= |chunks|
    ensures i <= Emitted(stopAt, |chunks|) ==>
              |t| == Offset(Emitted(stopAt, |chunks|) - i, BlockSize(callbacks)) + 1
    ensures i >= Emitted(stopAt, |chunks|) ==> t == [Put(EndOfStream)]
    decreases |chunks| - i
  {
    if i == |chunks| || StoppedBefore(stopAt, i) then [Put(EndOfStream)]
    else [Put(Chunk(chunks[i]))] + Fanout(chunks[i], callbacks)
         + CallbackTrace(chunks, i + 1, stopAt, callbacks)
  }

  /** The end marker is put exactly once, as the last event of the trace. */
  lemma {:induction false} TraceEndOnce(chunks: seq<string>, i: nat, stopAt: Option<nat>,
                                        callbacks: seq<Observer>)
    requires i <= |chunks|
    ensures var t := CallbackTrace(chunks, i, stopAt, callbacks);
            |t| > 0 && t[|t| - 1] == Put(EndOfStream)
    ensures forall k :: 0 <= k < |CallbackTrace(chunks, i, stopAt, callbacks)| - 1 ==>
              CallbackTrace(chunks, i, stopAt, callbacks)[k] != Put(EndOfStream)
    decreases |chunks| - i
  {
    if !(i == |chunks| || StoppedBefore(stopAt, i)) {
      var head := [Put(Chunk(chunks[i]))] + Fanout(chunks[i], callbacks);
      var rest := CallbackTrace(chunks, i + 1, stopAt, callbacks);
      var t := CallbackTrace(chunks, i, stopAt, callbacks);
      assert t == head + rest;
      TraceEndOnce(chunks, i + 1, stopAt, callbacks);
      assert t[|t| - 1] == rest[|rest| - 1];
      forall k | 0 <= k < |t| - 1 ensures t[k] != Put(EndOfStream) {
        if k < |head| {
          assert t[k] == head[k];
          if k > 0 { assert head[k] == Fanout(chunks[i], callbacks)[k - 1]; }
        } else {
          assert t[k] == rest[k - |head|];
          assert 0 <= k - |head| < |rest| - 1;
        }
      }
    }
  }

  /** The queue's view of a trace: its puts, in order. */
  function Puts(trace: seq<Event>): seq<Item>
  {
    if |trace| == 0 then []
    else (if trace[0].Put? then [trace[0].item] else []) + Puts(trace[1..])
  }

  lemma {:induction false} PutsAppend(a: seq<Event>, b: seq<Event>)
    ensures Puts(a + b) == Puts(a) + Puts(b)
    decreases |a|
  {
    if |a| > 0 {
      assert (a + b)[0] == a[0];
      assert (a + b)[1..] == a[1..] + b;
      PutsAppend(a[1..], b);
    } else {
      assert a + b == b;
    }
  }

  lemma {:induction false} PutsFanout(chunk: string, callbacks: seq<Observer>)
    ensures Puts(Fanout(chunk, callbacks)) == []
    decreases |callbacks|
  {
    if |callbacks| > 0 {
      var f := Fanout(chunk, callbacks);
      assert f[1..] == seq(|callbacks| - 1, j requires 0 <= j < |callbacks| - 1 =>
                            Invoke(j + 1, chunk, callbacks[j + 1](chunk)));
      PutsTailInvokes(f[1..]);
    }
  }

  lemma {:induction false} PutsTailInvokes(t: seq<Event>)
    requires forall j :: 0 <= j < |t| ==> t[j].Invoke?
    ensures Puts(t) == []
    decreases |t|
  {
    if |t| > 0 {
      PutsTailInvokes(t[1..]);
    }
  }

  /** Callbacks never change what reaches the queue: the callback producer puts
      exactly what the plain producer puts, so a raising callback loses no chunk
      and never suppresses the end marker. */
  lemma {:induction false} CallbacksKeepQueue(chunks: seq<string>, i: nat, stopAt: Option<nat>,
                                              callbacks: seq<Observer>)
    requires i <= |chunks|
    ensures Puts(CallbackTrace(chunks, i, stopAt, callbacks)) == ProduceFrom(chunks, i, stopAt)
    decreases |chunks| - i
  {
    if i == |chunks| || StoppedBefore(stopAt, i) {
      assert Puts([Put(EndOfStream)]) == [EndOfStream] + Puts([]);
    } else {
      var head := [Put(Chunk(chunks[i]))];
      var fan := Fanout(chunks[i], callbacks);
      var rest := CallbackTrace(chunks, i + 1, stopAt, callbacks);
      PutsAppend(head + fan, rest);
      PutsAppend(head, fan);
      PutsFanout(chunks[i], callbacks);
      assert Puts(head) == [Chunk(chunks[i])] + Puts([]);
      CallbacksKeepQueue(chunks, i + 1, stopAt, callbacks);
    }
  }

  /** Each chunk is enqueued before any callback sees it, and is immediately
      followed by one call of every callback, in registration order. */
  lemma CallbackOrder(chunks: seq<string>, i: nat, stopAt: Option<nat>, callbacks: seq<Observer>)
    requires i < |chunks| && !StoppedBefore(stopAt, i)
    ensures var t := CallbackTrace(chunks, i, stopAt, callbacks);
            && |t| > |callbacks|
            && t[0] == Put(Chunk(chunks[i]))
            && forall j :: 0 <= j < |callbacks| ==> t[1 + j] == Invoke(j, chunks[i], callbacks[j](chunks[i]))
  {
    var fan := Fanout(chunks[i], callbacks);
    var rest := CallbackTrace(chunks, i + 1, stopAt, callbacks);
    var t := CallbackTrace(chunks, i, stopAt, callbacks);
    assert t == [Put(Chunk(chunks[i]))] + fan + rest;
    forall j | 0 <= j < |callbacks| ensures t[1 + j] == fan[j] {
      assert ([Put(Chunk(chunks[i]))] + fan)[1 + j] == fan[j];
    }
  }

  /** The events one iteration of the callback producer takes: a put and one
      call per callback. */
  function BlockSize(callbacks: seq<Observer>): nat
  {
    |callbacks| + 1
  }

  /** One iteration of the callback producer takes `BlockSize` events, after
      which the trace continues as the trace from the next iteration. */
  lemma TraceShift(chunks: seq<string>, i: nat, stopAt: Option<nat>, callbacks: seq<Observer>)
    requires i < |chunks| && !StoppedBefore(stopAt, i)
    ensures Shifted(CallbackTrace(chunks, i, stopAt, callbacks),
                    CallbackTrace(chunks, i + 1, stopAt, callbacks), BlockSize(callbacks))
  {
    var head := [Put(Chunk(chunks[i]))] + Fanout(chunks[i], callbacks);
    var rest := CallbackTrace(chunks, i + 1, stopAt, callbacks);
    assert CallbackTrace(chunks, i, stopAt, callbacks) == head + rest;
    assert |head| == |callbacks| + 1;
  }

  /** In the whole run of the callback producer, chunk `i` is put at position
      `i * (callbacks + 1)`, and the call of every callback on it follows at
      once, in registration order: chunks are handled one at a time, in order. */
  lemma CallbacksInRun(chunks: seq<string>, stopAt: Option<nat>, callbacks: seq<Observer>, i: nat)
    requires i < Emitted(stopAt, |chunks|)
    ensures var t := CallbackTrace(chunks, 0, stopAt, callbacks);
            var p := i * (|callbacks| + 1);
            && p + |callbacks| < |t|
            && t[p] == Put(Chunk(chunks[i]))
            && forall j :: 0 <= j < |callbacks| ==> t[p + 1 + j] == Invoke(j, chunks[i], callbacks[j](chunks[i]))
  {
    MulIsRepeatedAdd(i, |callbacks| + 1);
    ChunkBlock(chunks, stopAt, callbacks, i, Offset(i, |callbacks| + 1));
  }

  /** `CallbacksInRun` with the position reached by repeated addition. */
  lemma ChunkBlock(chunks: seq<string>, stopAt: Option<nat>, callbacks: seq<Observer>, i: nat, p: nat)
    requires i < Emitted(stopAt, |chunks|)
    requires p == Offset(i, |callbacks| + 1)
    ensures var t := CallbackTrace(chunks, 0, stopAt, callbacks);
            && p + |callbacks| < |t|
            && t[p] == Put(Chunk(chunks[i]))
            && forall j :: 0 <= j < |callbacks| ==> t[p + 1 + j] == Invoke(j, chunks[i], callbacks[j](chunks[i]))
  {
    assert !StoppedBefore(stopAt, i);
    CallbackOrder(chunks, i, stopAt, callbacks);
    RunIndex(chunks, stopAt, callbacks, i, p, 0);
    RunIndex(chunks, stopAt, callbacks, i, p, |callbacks|);
    forall j | 0 <= j < |callbacks|
      ensures CallbackTrace(chunks, 0, stopAt, callbacks)[p + 1 + j]
              == Invoke(j, chunks[i], callbacks[j](chunks[i]))
    {
      BlockElem(chunks, stopAt, callbacks, i, p, j);
    }
  }

  /** One call inside chunk `i`'s block of the whole run. */
  lemma BlockElem(chunks: seq<string>, stopAt: Option<nat>, callbacks: seq<Observer>, i: nat, p: nat, j: nat)
    requires i < Emitted(stopAt, |chunks|)
    requires p == Offset(i, |callbacks| + 1)
    requires j < |callbacks|
    ensures p + 1 + j < |CallbackTrace(chunks, 0, stopAt, callbacks)|
    ensures CallbackTrace(chunks, 0, stopAt, callbacks)[p + 1 + j] == Invoke(j, chunks[i], callbacks[j](chunks[i]))
  {
    assert !StoppedBefore(stopAt, i);
    CallbackOrder(chunks, i, stopAt, callbacks);
    RunIndex(chunks, stopAt, callbacks, i, p, 1 + j);
  }

  /** The traces from every iteration, as one family. */
  function Traces(chunks: seq<string>, stopAt: Option<nat>, callbacks: seq<Observer>): nat -> seq<Event>
  {
    (a: nat) => if a <= |chunks| then CallbackTrace(chunks, a, stopAt, callbacks) else []
  }

  /** Each iteration before the producer stops drops one block from the trace. */
  lemma TracesShifted(chunks: seq<string>, stopAt: Option<nat>, callbacks: seq<Observer>, i: nat)
    requires i <= Emitted(stopAt, |chunks|)
    ensures forall a :: 0 <= a < i ==> ShiftedAt(Traces(chunks, stopAt, callbacks), a, BlockSize(callbacks))
  {
    forall a | 0 <= a < i
      ensures ShiftedAt(Traces(chunks, stopAt, callbacks), a, BlockSize(callbacks))
    {
      TraceShift(chunks, a, stopAt, callbacks);
    }
  }

  /** The trace from the start runs one put and one fan-out per chunk up to
      iteration `i`, then continues as the trace from `i`. */
  lemma RunIndex(chunks: seq<string>, stopAt: Option<nat>, callbacks: seq<Observer>, i: nat, p: nat, x: nat)
    requires i <= Emitted(stopAt, |chunks|)
    requires p == Offset(i, |callbacks| + 1)
    requires x < |CallbackTrace(chunks, i, stopAt, callbacks)|
    ensures p + x < |CallbackTrace(chunks, 0, stopAt, callbacks)|
    ensures CallbackTrace(chunks, 0, stopAt, callbacks)[p + x] == CallbackTrace(chunks, i, stopAt, callbacks)[x]
  {
    var tr := Traces(chunks, stopAt, callbacks);
    TracesShifted(chunks, stopAt, callbacks, i);
    ShiftIndex(tr, BlockSize(callbacks), 0, i, x);
    assert tr(0) == CallbackTrace(chunks, 0, stopAt, callbacks);
    assert tr(i) == CallbackTrace(chunks, i, stopAt, callbacks);
  }

  /** `start_streaming_with_callbacks(content)` observed once its producer has
      finished: a no-op while streaming; otherwise the callbacks see the whole
      trace of the callback producer and the queue receives what the plain
      producer would put. */
  function StartStreamingWithCallbacks(rs: RealTimeStreamer, content: string, stopAt: Option<nat>)
    : (r: (RealTimeStreamer, seq<Event>))
    ensures rs.base.isStreaming ==> r.0 == rs && r.1 == []
    ensures !rs.base.isStreaming ==> r.0.base == StartStreaming(rs.base, content, stopAt)
    ensures !rs.base.isStreaming ==> r.1 == CallbackTrace(ChunksOf(content), 0, stopAt, rs.callbacks)
    ensures r.0.callbacks == rs.callbacks
  {
    if rs.base.isStreaming then (rs, [])
    else
      var trace := CallbackTrace(ChunksOf(content), 0, stopAt, rs.callbacks);
      CallbacksKeepQueue(ChunksOf(content), 0, stopAt, rs.callbacks);
      (rs.(base := Streamer(rs.base.queue + Puts(trace), stopAt.None?)), trace)
  }
}
