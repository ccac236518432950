/** `BatchStreamProcessor`: the inputs are cut into consecutive batches of
    `max_concurrent_streams`; each batch starts one `StreamOutput` per input and
    polls all live streamers in rounds until every one has seen its end marker.

    The timing of the producer threads is a parameter: for each streamer, the
    sequence `arrivals` says how many further items its producer has put on the
    queue before each poll (once the sequence is used up, the producer has put
    everything). Since `streamers[:]` is a snapshot, one round polls every live
    streamer exactly once, in list order, and a streamer that finishes is
    removed without disturbing the order of the others. A result is appended
    when its streamer finishes, so a batch's results come out in completion order.
 */
module Batch {
  import opened Wrappers
  import opened PySeq
  import opened Stream

  /** One streamer of `_process_batch`, with the progress of its producer. */
  datatype Worker = Worker(
    slot: nat,            // position of its input in the batch
    payload: string,      // the input it was started on
    stream: Streamer,     // queue and `is_streaming`
    pending: seq<Item>,   // what the producer has yet to put
    arrivals: seq<nat>,   // items put before each coming poll
    collected: string)    // `collected_content`

  /** A finished streamer: its input's position and the content it collected. */
  datatype Finished = Finished(slot: nat, content: string)

  /** The concatenated chunk texts of a run of queue entries. */
  function Text(items: seq<Item>): string
  {
    if |items| == 0 then ""
    else (if items[0].Chunk? then items[0].text else "") + Text(items[1..])
  }

  lemma {:induction false} TextItems(chunks: seq<string>)
    ensures Text(Items(chunks) + [EndOfStream]) == Flatten(chunks)
    decreases |chunks|
  {
    var items := Items(chunks) + [EndOfStream];
    if |chunks| == 0 {
      assert items == [EndOfStream];
      assert Text(items) == "" + Text([]);
    } else {
      assert items[1..] == Items(chunks[1..]) + [EndOfStream];
      TextItems(chunks[1..]);
    }
  }

  /** What is still to be read: non-empty chunks, then exactly one end marker. */
  predicate WellFormed(items: seq<Item>)
  {
    && |items| > 0
    && items[|items| - 1] == EndOfStream
    && forall j :: 0 <= j < |items| - 1 ==> items[j].Chunk? && items[j].text != ""
  }

  /** A live streamer: still streaming, its unread items well formed, and what it
      collected followed by what is still to come spells its input. */
  predicate Valid(w: Worker)
  {
    && w.stream.isStreaming
    && WellFormed(w.stream.queue + w.pending)
    && w.collected + Text(w.stream.queue + w.pending) == w.payload
  }

  predicate AllValid(ws: seq<Worker>)
  {
    forall j :: 0 <= j < |ws| ==> Valid(ws[j])
  }

  /** The producer puts the items that arrive before this poll. */
  function Deliver(w: Worker): (d: Worker)
    ensures d.stream.queue + d.pending == w.stream.queue + w.pending
    ensures d.slot == w.slot && d.payload == w.payload && d.collected == w.collected
    ensures d.stream.isStreaming == w.stream.isStreaming
    ensures |d.arrivals| == if |w.arrivals| > 0 then |w.arrivals| - 1 else 0
    ensures |w.arrivals| == 0 ==> d.pending == []
  {
    var k := if |w.arrivals| > 0 then Min(w.arrivals[0], |w.pending|) else |w.pending|;
    assert w.pending[..k] + w.pending[k..] == w.pending;
    w.(stream := w.stream.(queue := w.stream.queue + w.pending[..k]),
       pending := w.pending[k..],
       arrivals := if |w.arrivals| > 0 then w.arrivals[1..] else [])
  }

  /** The outcome of polling one streamer within a round. */
  datatype Step = Continue(next: Worker) | Retire(content: string)

  /** One iteration of the inner loop: `get_next_chunk(timeout=0.1)`; a non-empty
      chunk is collected; otherwise a streamer whose flag is clear is finished
      with the content it collected (a timeout leaves it live). */
  function PollWorker(w: Worker): (r: Step)
    ensures var q := Deliver(w).stream.queue;
            r.Retire? <==> || (q != [] && q[0] == EndOfStream)
                           || (!w.stream.isStreaming && (q == [] || q[0] == Chunk("")))
    ensures r.Retire? ==> r.content == w.collected
    ensures r.Continue? ==> && r.next.slot == w.slot && r.next.payload == w.payload
                            && w.collected <= r.next.collected
  {
    var d := Deliver(w);
    var p := GetNextChunk(d.stream);
    if p.chunk != "" then Continue(d.(stream := p.after, collected := d.collected + p.chunk))
    else if !p.after.isStreaming then Retire(d.collected)
    else Continue(d.(stream := p.after))
  }

  /** The work a streamer has left: polls its producer's timing still allows, plus unread items. */
  function Need(w: Worker): nat
  {
    |w.arrivals| + |w.stream.queue| + |w.pending|
  }

  function TotalNeed(ws: seq<Worker>): nat
  {
    if |ws| == 0 then 0 else Need(ws[0]) + TotalNeed(ws[1..])
  }

  /** A poll keeps a live streamer valid and strictly reduces its remaining work,
      and a streamer retires only on its end marker, having collected exactly its input. */
  lemma PollProgress(w: Worker)
    requires Valid(w)
    ensures PollWorker(w).Continue? ==>
              var n := PollWorker(w).next;
              Valid(n) && n.slot == w.slot && n.payload == w.payload && Need(n) < Need(w)
    ensures PollWorker(w).Retire? ==> PollWorker(w).content == w.payload
  {
    var d := Deliver(w);
    if d.stream.queue == [] {
      PollTimeout(w);
    } else if d.stream.queue[0] == EndOfStream {
      PollEnd(w);
    } else {
      PollChunk(w);
    }
  }

  /** The front of a well-formed run of items: a chunk with more to come, or the
      end marker alone. */
  lemma FrontItem(items: seq<Item>)
    requires WellFormed(items)
    ensures items[0].Chunk? ==>
              |items| > 1 && WellFormed(items[1..]) && Text(items) == items[0].text + Text(items[1..])
              && items[0].text != ""
    ensures items[0] == EndOfStream ==> items == [EndOfStream] && Text(items) == ""
  {
    if items[0] == EndOfStream {
      assert |items| == 1;
      assert Text(items) == "" + Text(items[1..]);
    }
  }

  /** Nothing has arrived: the poll times out, and the producer's next step is one poll nearer. */
  lemma PollTimeout(w: Worker)
    requires Valid(w) && Deliver(w).stream.queue == []
    ensures PollWorker(w) == Continue(Deliver(w))
    ensures Valid(Deliver(w)) && Need(Deliver(w)) < Need(w)
  {
    var d := Deliver(w);
    assert d.stream.queue + d.pending == d.pending;
    assert |w.arrivals| > 0;
  }

  /** The end marker: the streamer retires having collected its whole input. */
  lemma PollEnd(w: Worker)
    requires Valid(w) && Deliver(w).stream.queue != [] && Deliver(w).stream.queue[0] == EndOfStream
    ensures PollWorker(w) == Retire(w.collected) && w.collected == w.payload
  {
    var d := Deliver(w);
    var items := d.stream.queue + d.pending;
    assert items[0] == d.stream.queue[0];
    FrontItem(items);
  }

  /** A chunk: it is collected, and the streamer stays live with one item fewer to read. */
  lemma PollChunk(w: Worker)
    requires Valid(w) && Deliver(w).stream.queue != [] && Deliver(w).stream.queue[0].Chunk?
    ensures var d := Deliver(w);
            var n := d.(stream := Streamer(d.stream.queue[1..], true), collected := d.collected + d.stream.queue[0].text);
            PollWorker(w) == Continue(n) && Valid(n) && Need(n) < Need(w)
  {
    var d := Deliver(w);
    var items := d.stream.queue + d.pending;
    assert items[0] == d.stream.queue[0];
    assert items[1..] == d.stream.queue[1..] + d.pending;
    FrontItem(items);
  }

  /** The tag a streamer would finish with. */
  function Tags(ws: seq<Worker>): (r: seq<Finished>)
    ensures |r| == |ws|
    ensures forall j :: 0 <= j < |ws| ==> r[j] == Finished(ws[j].slot, ws[j].payload)
  {
    seq(|ws|, j requires 0 <= j < |ws| => Finished(ws[j].slot, ws[j].payload))
  }

  function Payloads(ws: seq<Worker>): (r: seq<string>)
    ensures |r| == |ws|
    ensures forall j :: 0 <= j < |ws| ==> r[j] == ws[j].payload
  {
    seq(|ws|, j requires 0 <= j < |ws| => ws[j].payload)
  }

  function Contents(fs: seq<Finished>): (r: seq<string>)
    ensures |r| == |fs|
    ensures forall k :: 0 <= k < |fs| ==> r[k] == fs[k].content
  {
    seq(|fs|, k requires 0 <= k < |fs| => fs[k].content)
  }

  /** One pass of `for streamer in streamers[:]`: the streamers still live, in
      their order, and those finished in this pass, in the order they finished.
      Every live streamer is polled once, so the remaining work drops by at least
      one per streamer. */
  function Round(ws: seq<Worker>): (r: (seq<Worker>, seq<Finished>))
    requires AllValid(ws)
    ensures AllValid(r.0)
    ensures TotalNeed(r.0) + |ws| <= TotalNeed(ws)
    decreases |ws|
  {
    if |ws| == 0 then ([], [])
    else
      var w := ws[0];
      PollProgress(w);
      var rest := Round(ws[1..]);
      Cons(w, ws[1..]);
      assert [w] + ws[1..] == ws;
      var st := PollWorker(w);
      if st.Continue? then
        Cons(st.next, rest.0);
        Place(st, w.slot, rest)
      else
        Place(st, w.slot, rest)
  }

  /** Where a polled streamer goes: back into the live list, or onto the results. */
  function Place(st: Step, slot: nat, rest: (seq<Worker>, seq<Finished>)): (seq<Worker>, seq<Finished>)
  {
    match st
    case Continue(n) => ([n] + rest.0, rest.1)
    case Retire(c) => (rest.0, [Finished(slot, c)] + rest.1)
  }

  /** How the work and validity of a list of streamers split at its head. */
  lemma Cons(w: Worker, ws: seq<Worker>)
    ensures TotalNeed([w] + ws) == Need(w) + TotalNeed(ws)
    ensures AllValid([w] + ws) <==> Valid(w) && AllValid(ws)
  {
    assert ([w] + ws)[1..] == ws;
    if Valid(w) && AllValid(ws) {
      forall j | 0 <= j < |ws| + 1 ensures Valid(([w] + ws)[j]) {
        if j > 0 { assert ([w] + ws)[j] == ws[j - 1]; }
      }
    }
    if AllValid([w] + ws) {
      forall j | 0 <= j < |ws| ensures Valid(ws[j]) {
        assert ([w] + ws)[j + 1] == ws[j];
      }
    }
  }

  /** How the tags and inputs of a list of streamers split at its head. */
  lemma ConsTags(w: Worker, ws: seq<Worker>)
    ensures multiset(Tags([w] + ws)) == multiset{Finished(w.slot, w.payload)} + multiset(Tags(ws))
    ensures multiset(Payloads([w] + ws)) == multiset{w.payload} + multiset(Payloads(ws))
  {
    assert Tags([w] + ws) == [Finished(w.slot, w.payload)] + Tags(ws);
    assert Payloads([w] + ws) == [w.payload] + Payloads(ws);
  }

  /** The head of a round: the first streamer's poll placed in front of the rest of the round. */
  lemma RoundHead(ws: seq<Worker>)
    requires AllValid(ws) && |ws| > 0
    ensures AllValid(ws[1..])
    ensures Round(ws) == Place(PollWorker(ws[0]), ws[0].slot, Round(ws[1..]))
    ensures PollWorker(ws[0]).Continue? ==>
              PollWorker(ws[0]).next.slot == ws[0].slot && PollWorker(ws[0]).next.payload == ws[0].payload
    ensures PollWorker(ws[0]).Retire? ==> PollWorker(ws[0]).content == ws[0].payload
  {
    PollProgress(ws[0]);
    Cons(ws[0], ws[1..]);
    assert [ws[0]] + ws[1..] == ws;
  }

  /** Placing a polled streamer keeps its tag and its input: either it is live
      again with both, or it is finished with its own slot and input. */
  lemma PlaceTags(st: Step, slot: nat, payload: string, rest: (seq<Worker>, seq<Finished>))
    requires st.Continue? ==> st.next.slot == slot && st.next.payload == payload
    requires st.Retire? ==> st.content == payload
    ensures var p := Place(st, slot, rest);
            multiset(Tags(p.0)) + multiset(p.1)
              == multiset{Finished(slot, payload)} + multiset(Tags(rest.0)) + multiset(rest.1)
    ensures var p := Place(st, slot, rest);
            multiset(Payloads(p.0)) + multiset(Contents(p.1))
              == multiset{payload} + multiset(Payloads(rest.0)) + multiset(Contents(rest.1))
  {
    if st.Continue? {
      ConsTags(st.next, rest.0);
    } else {
      ContentsCons(Finished(slot, st.content), rest.1);
    }
  }

  /** The inductive step of a round: if the rest of the round keeps the tags and
      inputs of the streamers after the head, placing the head keeps them all. */
  lemma StepTags(ws: seq<Worker>, st: Step, rest: (seq<Worker>, seq<Finished>), p: (seq<Worker>, seq<Finished>))
    requires |ws| > 0 && p == Place(st, ws[0].slot, rest)
    requires st.Continue? ==> st.next.slot == ws[0].slot && st.next.payload == ws[0].payload
    requires st.Retire? ==> st.content == ws[0].payload
    ensures multiset(Tags(rest.0)) + multiset(rest.1) == multiset(Tags(ws[1..])) ==>
              multiset(Tags(p.0)) + multiset(p.1) == multiset(Tags(ws))
    ensures multiset(Payloads(rest.0)) + multiset(Contents(rest.1)) == multiset(Payloads(ws[1..])) ==>
              multiset(Payloads(p.0)) + multiset(Contents(p.1)) == multiset(Payloads(ws))
  {
    var w := ws[0];
    ConsTags(w, ws[1..]);
    assert [w] + ws[1..] == ws;
    PlaceTags(st, w.slot, w.payload, rest);
  }

  /** A round loses no streamer and invents none: each one is either still live or
      finished, and a finished one carries its own slot and input. */
  lemma {:induction false} RoundPreserves(ws: seq<Worker>)
    requires AllValid(ws)
    ensures multiset(Tags(Round(ws).0)) + multiset(Round(ws).1) == multiset(Tags(ws))
    decreases |ws|
  {
    if |ws| > 0 {
      RoundHead(ws);
      RoundPreserves(ws[1..]);
      StepTags(ws, PollWorker(ws[0]), Round(ws[1..]), Round(ws));
    }
  }

  /** The same for the inputs alone: the finished contents and the inputs of the
      streamers still live are together the inputs the round started with. */
  lemma {:induction false} RoundKeepsPayloads(ws: seq<Worker>)
    requires AllValid(ws)
    ensures multiset(Payloads(Round(ws).0)) + multiset(Contents(Round(ws).1)) == multiset(Payloads(ws))
    decreases |ws|
  {
    if |ws| > 0 {
      RoundHead(ws);
      RoundKeepsPayloads(ws[1..]);
      StepTags(ws, PollWorker(ws[0]), Round(ws[1..]), Round(ws));
    }
  }

  lemma ContentsCons(f: Finished, fs: seq<Finished>)
    ensures multiset([f] + fs) == multiset{f} + multiset(fs)
    ensures multiset(Contents([f] + fs)) == multiset{f.content} + multiset(Contents(fs))
  {
    assert Contents([f] + fs) == [f.content] + Contents(fs);
  }

  lemma ContentsAppend(a: seq<Finished>, b: seq<Finished>)
    ensures multiset(Contents(a + b)) == multiset(Contents(a)) + multiset(Contents(b))
  {
    assert Contents(a + b) == Contents(a) + Contents(b);
  }

  /** `while streamers:` — rounds until no streamer is live; the results in
      completion order. Every streamer finishes exactly once, with its own input. */
  function Run(ws: seq<Worker>): (r: seq<Finished>)
    requires AllValid(ws)
    ensures multiset(r) == multiset(Tags(ws))
    ensures multiset(Contents(r)) == multiset(Payloads(ws))
    decreases TotalNeed(ws)
  {
    if |ws| == 0 then []
    else
      var rd := Round(ws);
      var later := Run(rd.0);
      RoundPreserves(ws);
      RoundKeepsPayloads(ws);
      ContentsAppend(rd.1, later);
      rd.1 + later
  }

  /** The inputs numbered by position: what each streamer must finish with. */
  function Numbered(batch: seq<string>): (r: seq<Finished>)
    ensures |r| == |batch|
    ensures forall i :: 0 <= i < |batch| ==> r[i] == Finished(i, batch[i])
  {
    seq(|batch|, i requires 0 <= i < |batch| => Finished(i, batch[i]))
  }

  /** The producer timing of the `i`-th streamer; a streamer without an entry
      finds its producer's whole output on the queue at its first poll. */
  function ArrivalsAt(timing: seq<seq<nat>>, i: nat): seq<nat>
  {
    if i < |timing| then timing[i] else []
  }

  /** The first loop of `_process_batch`: one started streamer per input, its
      queue still empty and its producer's whole output pending. */
  function StartWorkers(batch: seq<string>, timing: seq<seq<nat>>): (ws: seq<Worker>)
    ensures AllValid(ws) && Tags(ws) == Numbered(batch) && Payloads(ws) == batch
  {
    var ws := seq(|batch|, i requires 0 <= i < |batch| => StartWorker(i, batch[i], ArrivalsAt(timing, i)));
    forall i | 0 <= i < |batch| ensures Valid(ws[i]) {
      StartValid(i, batch[i], ArrivalsAt(timing, i));
    }
    ws
  }

  /** A just-started streamer: empty queue, flag set, its producer's whole output pending. */
  function StartWorker(slot: nat, content: string, arrivals: seq<nat>): Worker
  {
    Worker(slot, content, Streamer([], true), Produce(content, None), arrivals, "")
  }

  lemma StartValid(slot: nat, content: string, arrivals: seq<nat>)
    ensures Valid(StartWorker(slot, content, arrivals))
  {
    var w := StartWorker(slot, content, arrivals);
    var chunks := ChunksOf(content);
    var items := Items(chunks) + [EndOfStream];
    assert w.stream.queue + w.pending == items by {
      assert w.pending == items;
    }
    assert WellFormed(items) by {
      forall j | 0 <= j < |items| - 1 ensures items[j].Chunk? && items[j].text != "" {
        assert items[j] == Chunk(chunks[j]);
      }
    }
    assert Text(items) == content by {
      TextItems(chunks);
      SlicesFlatten(content, DefaultChunkSize);
    }
    assert w.collected + Text(items) == content;
  }

  /** `_process_batch(batch)` with the finishing order made explicit: every input
      finishes exactly once, each result is the content of the input at its slot. */
  function RunBatch(batch: seq<string>, timing: seq<seq<nat>>): (fs: seq<Finished>)
    ensures multiset(fs) == multiset(Numbered(batch))
    ensures multiset(Contents(fs)) == multiset(batch)
    ensures |fs| == |batch|
  {
    var fs := Run(StartWorkers(batch, timing));
    assert |fs| == |multiset(fs)| == |multiset(Numbered(batch))| == |batch|;
    fs
  }

  /** Each input of a batch finishes exactly once: every result names a slot of
      the batch and carries that slot's input, and no slot finishes twice. */
  lemma RunBatchSlots(batch: seq<string>, timing: seq<seq<nat>>)
    ensures var fs := RunBatch(batch, timing);
            && (forall k :: 0 <= k < |fs| ==> fs[k].slot < |batch| && fs[k].content == batch[fs[k].slot])
            && (forall k, l :: 0 <= k < l < |fs| ==> fs[k].slot != fs[l].slot)
  {
    NumberedPermutation(batch, RunBatch(batch, timing));
  }

  /** A permutation of the numbered inputs visits every slot once, each with its own input. */
  lemma NumberedPermutation(batch: seq<string>, fs: seq<Finished>)
    requires multiset(fs) == multiset(Numbered(batch))
    ensures |fs| == |batch|
    ensures forall k :: 0 <= k < |fs| ==> fs[k].slot < |batch| && fs[k].content == batch[fs[k].slot]
    ensures forall k, l :: 0 <= k < l < |fs| ==> fs[k].slot != fs[l].slot
  {
    var nb := Numbered(batch);
    assert |fs| == |multiset(fs)| == |multiset(nb)| == |batch|;
    forall k | 0 <= k < |fs| ensures fs[k].slot < |batch| && fs[k].content == batch[fs[k].slot] {
      assert fs[k] in multiset(nb);
    }
    forall k, l | 0 <= k < l < |fs| ensures fs[k].slot != fs[l].slot {
      if fs[k].slot == fs[l].slot {
        var i := fs[k].slot;
        assert fs[k] == fs[l] == nb[i];
        NumberedOnce(batch, i);
        TwiceInSeq(fs, k, l);
      }
    }
  }

  /** Each numbered input occurs once among the numbered inputs. */
  lemma {:induction false} NumberedOnce(batch: seq<string>, i: nat)
    requires i < |batch|
    ensures multiset(Numbered(batch))[Finished(i, batch[i])] == 1
    decreases |batch|
  {
    var nb := Numbered(batch);
    var last := |batch| - 1;
    var front := batch[..last];
    assert nb == Numbered(front) + [Finished(last, batch[last])];
    if i < last {
      NumberedOnce(front, i);
      assert front[i] == batch[i];
    } else {
      assert Finished(i, batch[i]) !in multiset(Numbered(front));
    }
  }

  lemma TwiceInSeq<T>(s: seq<T>, k: nat, l: nat)
    requires k < l < |s| && s[k] == s[l]
    ensures multiset(s)[s[k]] >= 2
  {
    assert s == s[..k] + [s[k]] + s[k + 1..l] + [s[l]] + s[l + 1..];
  }

  /** `_process_batch(batch)`: one result per input. The results are the inputs
      rearranged into the order the streamers finished. */
  function ProcessBatch(batch: seq<string>, timing: seq<seq<nat>>): (r: seq<string>)
    ensures |r| == |batch|
    ensures multiset(r) == multiset(batch)
  {
    Contents(RunBatch(batch, timing))
  }

  /** A batch's results follow completion order, not input order: with every
      producer done before the first poll, the empty input finishes in the first
      round and `"ab"` only in the second. */
  lemma CompletionOrderExample()
    ensures ProcessBatch(["ab", ""], []) == ["", "ab"]
  {
    ExampleRunBatch();
    ExampleContents();
  }

  lemma ExampleContents()
    ensures Contents([Finished(1, ""), Finished(0, "ab")]) == ["", "ab"]
  {
  }

  lemma ExampleRunBatch()
    ensures RunBatch(["ab", ""], []) == [Finished(1, ""), Finished(0, "ab")]
  {
    ExampleRun();
  }

  lemma ExampleRun()
    ensures Run(StartWorkers(["ab", ""], [])) == [Finished(1, ""), Finished(0, "ab")]
  {
    ExampleStart();
    ExampleRunFrom();
  }

  lemma ExampleRunFrom()
    ensures var w0 := Worker(0, "ab", Streamer([], true), [Chunk("ab"), EndOfStream], [], "");
            var w1 := Worker(1, "", Streamer([], true), [EndOfStream], [], "");
            AllValid([w0, w1]) && Run([w0, w1]) == [Finished(1, ""), Finished(0, "ab")]
  {
    var w0 := Worker(0, "ab", Streamer([], true), [Chunk("ab"), EndOfStream], [], "");
    var w1 := Worker(1, "", Streamer([], true), [EndOfStream], [], "");
    ExampleFirstRound();
    var w0' := Worker(0, "ab", Streamer([EndOfStream], true), [], [], "ab");
    ExampleLastRun();
    assert Run([w0, w1]) == [Finished(1, "")] + Run([w0']);
  }

  lemma ExampleLastRun()
    ensures AllValid([Worker(0, "ab", Streamer([EndOfStream], true), [], [], "ab")])
    ensures Run([Worker(0, "ab", Streamer([EndOfStream], true), [], [], "ab")]) == [Finished(0, "ab")]
  {
    ExampleSecondRound();
    var w0' := Worker(0, "ab", Streamer([EndOfStream], true), [], [], "ab");
    assert Run([]) == [];
    assert Run([w0']) == [Finished(0, "ab")] + Run([]);
  }

  lemma ExampleStart()
    ensures StartWorkers(["ab", ""], []) ==
              [Worker(0, "ab", Streamer([], true), [Chunk("ab"), EndOfStream], [], ""),
               Worker(1, "", Streamer([], true), [EndOfStream], [], "")]
  {
    assert ChunksOf("ab") == ["ab"];
    assert ChunksOf("") == [];
    assert Produce("ab", None) == [Chunk("ab"), EndOfStream];
    assert Produce("", None) == [EndOfStream];
  }

  lemma ExampleFirstRound()
    ensures var w0 := Worker(0, "ab", Streamer([], true), [Chunk("ab"), EndOfStream], [], "");
            var w1 := Worker(1, "", Streamer([], true), [EndOfStream], [], "");
            AllValid([w0, w1]) &&
            Round([w0, w1]) == ([Worker(0, "ab", Streamer([EndOfStream], true), [], [], "ab")], [Finished(1, "")])
  {
    var w0 := Worker(0, "ab", Streamer([], true), [Chunk("ab"), EndOfStream], [], "");
    var w1 := Worker(1, "", Streamer([], true), [EndOfStream], [], "");
    var w0' := Worker(0, "ab", Streamer([EndOfStream], true), [], [], "ab");
    var ws := [w0, w1];
    assert Text([EndOfStream]) == "" + Text([]);
    assert Text([Chunk("ab"), EndOfStream]) == "ab" + Text([EndOfStream]);
    assert w0.stream.queue + w0.pending == [Chunk("ab"), EndOfStream];
    assert w1.stream.queue + w1.pending == [EndOfStream];
    assert Valid(w0) && Valid(w1);
    assert AllValid(ws);
    assert PollWorker(w0) == Continue(w0');
    assert PollWorker(w1) == Retire("");
    assert [w1][1..] == [];
    assert ws[1..] == [w1];
    RoundHead([w1]);
    assert Round([]) == ([], []);
    assert [Finished(1, "")] + [] == [Finished(1, "")];
    assert Round([w1]) == ([], [Finished(1, "")]);
    RoundHead(ws);
    assert [w0'] + [] == [w0'];
  }

  lemma ExampleSecondRound()
    ensures var w0' := Worker(0, "ab", Streamer([EndOfStream], true), [], [], "ab");
            AllValid([w0']) && Round([w0']) == ([], [Finished(0, "ab")])
  {
    var w0' := Worker(0, "ab", Streamer([EndOfStream], true), [], [], "ab");
    assert Text([EndOfStream]) == "" + Text([]);
    assert w0'.stream.queue + w0'.pending == [EndOfStream];
    assert Valid(w0');
    assert PollWorker(w0') == Retire("ab");
    assert [w0'][1..] == [];
    RoundHead([w0']);
    assert Round([]) == ([], []);
    assert [Finished(0, "ab")] + [] == [Finished(0, "ab")];
  }

  // ----- process_multiple_streams ----------------------------------------------

  /** `self._process_batch(batch)` for each batch in order, collected per batch;
      `timing` lists the producer timings of all inputs, so batch `b` sees them from
      the position of its first input on. Each batch's results are a
      rearrangement of that batch. */
  function BatchResults(batches: seq<seq<string>>, timing: seq<seq<nat>>): (rs: seq<seq<string>>)
    ensures |rs| == |batches|
    ensures forall b :: 0 <= b < |rs| ==> |rs[b]| == |batches[b]| && multiset(rs[b]) == multiset(batches[b])
  {
    seq(|batches|, b requires 0 <= b < |batches| =>
          ProcessBatch(batches[b], Tail(timing, |Flatten(batches[..b])|)))
  }

  /** The `b`-th block of `max` positions of `xs`, as Python slices it. */
  function Segment<T>(xs: seq<T>, b: nat, max: nat): seq<T>
  {
    xs[Min(b * max, |xs|)..Min(b * max + max, |xs|)]
  }

  /** `process_multiple_streams(contents)`: `range(0, len, max)` raises for a zero
      limit and yields nothing for a negative one. Otherwise the results of the
      batches are appended in batch order, so there is one result per input, and
      each block of `max` consecutive results is a rearrangement (in completion
      order) of the same block of inputs. */
  function ProcessMultipleStreams(contents: seq<string>, max: int, timing: seq<seq<nat>>)
    : (r: Result<seq<string>>)
    ensures r.Err? <==> max == 0
    ensures max < 0 ==> r == Ok([])
    ensures max > 0 ==> r.Ok? && |r.value| == |contents|
    ensures max > 0 ==> forall b :: 0 <= b < |Slices(contents, max)| ==>
              multiset(Segment(r.value, b, max)) == multiset(Segment(contents, b, max))
  {
    if max == 0 then Err(ZeroStep)
    else if max < 0 then Ok([])
    else
      var batches := Slices(contents, max);
      var rs := BatchResults(batches, timing);
      SlicesFlatten(contents, max);
      FlattenLength(rs, batches);
      forall b | 0 <= b < |batches|
        ensures multiset(Segment(Flatten(rs), b, max)) == multiset(Segment(contents, b, max))
      {
        BlockIsSegment(contents, max, rs, b);
      }
      Ok(Flatten(rs))
  }

  /** The `b`-th block of the output is exactly the `b`-th batch's results. */
  lemma BlockIsSegment(contents: seq<string>, max: nat, rs: seq<seq<string>>, b: nat)
    requires max > 0 && b < |Slices(contents, max)|
    requires |rs| == |Slices(contents, max)|
    requires forall i :: 0 <= i < |rs| ==> |rs[i]| == |Slices(contents, max)[i]|
    ensures Segment(Flatten(rs), b, max) == rs[b]
    ensures Segment(contents, b, max) == Slices(contents, max)[b]
  {
    var lo := b * max;
    var hi := Min(lo + max, |contents|);
    BlockBounds(contents, max, rs, b);
    assert Flatten(rs)[lo..hi] == rs[b] by {
      FlattenAt(rs, b);
    }
    SegmentOf(Flatten(rs), b, max, lo, hi);
    SegmentOf(contents, b, max, lo, hi);
  }

  /** Where the `b`-th block lies, in the inputs and in the flattened results. */
  lemma BlockBounds(contents: seq<string>, max: nat, rs: seq<seq<string>>, b: nat)
    requires max > 0 && b < |Slices(contents, max)|
    requires |rs| == |Slices(contents, max)|
    requires forall i :: 0 <= i < |rs| ==> |rs[i]| == |Slices(contents, max)[i]|
    ensures var lo := b * max;
            var hi := Min(lo + max, |contents|);
            && lo < |contents| && Slices(contents, max)[b] == contents[lo..hi]
            && |Flatten(rs)| == |contents| && |Flatten(rs[..b])| == lo && |rs[b]| == hi - lo
  {
    var batches := Slices(contents, max);
    SliceAt(contents, max, b);
    FlattenLength(rs, batches);
    SlicesFlatten(contents, max);
    FlattenLength(rs[..b], batches[..b]);
    SlicesOffset(contents, max, b);
  }

  lemma SegmentOf<T>(xs: seq<T>, b: nat, max: nat, lo: nat, hi: nat)
    requires lo == b * max && lo <= hi == Min(lo + max, |xs|)
    ensures Segment(xs, b, max) == xs[lo..hi]
  {
  }

  /** Every result is the collected content of one input: over the whole run, the
      results are a rearrangement of the inputs. */
  lemma ProcessMultipleStreamsPermutation(contents: seq<string>, max: nat, timing: seq<seq<nat>>)
    requires max > 0
    ensures multiset(ProcessMultipleStreams(contents, max, timing).value) == multiset(contents)
  {
    var batches := Slices(contents, max);
    var rs := BatchResults(batches, timing);
    FlattenMultiset(rs, batches);
    SlicesFlatten(contents, max);
  }

  lemma {:induction false} FlattenMultiset(rs: seq<seq<string>>, xs: seq<seq<string>>)
    requires |rs| == |xs|
    requires forall i :: 0 <= i < |rs| ==> multiset(rs[i]) == multiset(xs[i])
    ensures multiset(Flatten(rs)) == multiset(Flatten(xs))
    decreases |rs|
  {
    if |rs| > 0 {
      FlattenMultiset(rs[1..], xs[1..]);
    }
  }
}
