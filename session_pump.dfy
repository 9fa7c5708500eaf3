/**
 * A live SSH session as the service tracks it, the per-session output
 * buffers, and the latency bookkeeping done by the output pump.
 *
 * Time is a number of milliseconds. The pump's reads are given as input: each
 * read event is what one bounded read of the session's stdout returned, and
 * when.
 */
module SessionPump {
  import opened Outcomes
  import opened Models

  /**
   * A session: its ID, its host, whether it is active, the last measured
   * latency in milliseconds, and when the last input or keepalive probe was
   * sent if no output has been seen since.
   */
  datatype Session = Session(
    id: string,
    host: Host,
    isActive: bool,
    ping: int,
    lastPingSentAt: Option<int>)

  /** What one read of the session's stdout returned. */
  datatype ReadResult =
    | Chunk(data: string)
    | Timeout
    | EOF
    | OtherErr(cause: string)

  /** A read result and the time it came back. */
  datatype ReadEvent = ReadEvent(result: ReadResult, at: int)

  /** The text a read contributes to the buffer: the bytes of a chunk, nothing otherwise. */
  function ChunkText(r: ReadResult): string {
    if r.Chunk? then r.data else ""
  }

  /**
   * Latency bookkeeping when output arrives at `now`: a pending probe becomes
   * the new ping (the time elapsed since it was sent) and stops pending.
   */
  function ObserveOutput(s: Session, now: int): (r: Session)
    ensures r.lastPingSentAt.None?
    ensures r.id == s.id && r.host == s.host && r.isActive == s.isActive
    ensures s.lastPingSentAt.Some? ==> r.ping == now - s.lastPingSentAt.value
    ensures s.lastPingSentAt.None? ==> r == s
  {
    if s.lastPingSentAt.Some? then s.(ping := now - s.lastPingSentAt.value, lastPingSentAt := None) else s
  }

  /** The session after one pump read: only a read of at least one byte touches it. */
  function AfterRead(s: Session, e: ReadEvent): Session {
    if ChunkText(e.result) != "" then ObserveOutput(s, e.at) else s
  }

  /** The session after a run of pump reads, in order. */
  function AfterReads(s: Session, events: seq<ReadEvent>): (r: Session)
    ensures r.id == s.id && r.host == s.host && r.isActive == s.isActive
  {
    if events == [] then s else AfterRead(AfterReads(s, events[..|events| - 1]), events[|events| - 1])
  }

  /** Everything a run of reads delivers, in order. */
  function Received(events: seq<ReadEvent>): string {
    if events == [] then "" else Received(events[..|events| - 1]) + ChunkText(events[|events| - 1].result)
  }

  /** What the pump delivers over two consecutive runs is what it delivers over their concatenation. */
  lemma {:induction false} ReceivedConcat(a: seq<ReadEvent>, b: seq<ReadEvent>)
    ensures Received(a + b) == Received(a) + Received(b)
    decreases |b|
  {
    if b == [] {
      assert a + b == a;
    } else {
      var b' := b[..|b| - 1];
      var last := b[|b| - 1];
      assert (a + b)[..|a + b| - 1] == a + b';
      assert (a + b)[|a + b| - 1] == last;
      ReceivedConcat(a, b');
      calc {
        Received(a + b);
        Received(a + b') + ChunkText(last.result);
        (Received(a) + Received(b')) + ChunkText(last.result);
        Received(a) + (Received(b') + ChunkText(last.result));
        Received(a) + Received(b);
      }
    }
  }

  /** Running the pump over two consecutive runs is running it over their concatenation. */
  lemma {:induction false} AfterReadsConcat(s: Session, a: seq<ReadEvent>, b: seq<ReadEvent>)
    ensures AfterReads(s, a + b) == AfterReads(AfterReads(s, a), b)
    decreases |b|
  {
    if b == [] {
      assert a + b == a;
    } else {
      var b' := b[..|b| - 1];
      assert (a + b)[..|a + b| - 1] == a + b';
      AfterReadsConcat(s, a, b');
    }
  }

  /** Reads that deliver nothing (timeouts, errors, empty reads, EOF) leave the session as it was. */
  lemma {:induction false} SilentReadsChangeNothing(s: Session, events: seq<ReadEvent>)
    requires Received(events) == ""
    ensures AfterReads(s, events) == s
    decreases |events|
  {
    if events != [] {
      var pre := events[..|events| - 1];
      assert Received(pre) == "" && ChunkText(events[|events| - 1].result) == "";
      SilentReadsChangeNothing(s, pre);
    }
  }

  /** Once no probe is pending, further reads change neither the ping nor the pending probe. */
  lemma {:induction false} NoProbeNoChange(s: Session, events: seq<ReadEvent>)
    requires s.lastPingSentAt.None?
    ensures AfterReads(s, events) == s
    decreases |events|
  {
    if events != [] {
      NoProbeNoChange(s, events[..|events| - 1]);
    }
  }

  /**
   * The latency heuristic: with a probe sent at `sentAt`, the ping the pump
   * records is the time from the probe to the first read that returned any
   * bytes, whatever that output was, and later output does not change it.
   */
  lemma PingIsTimeToFirstOutput(s: Session, sentAt: int, events: seq<ReadEvent>, k: nat)
    requires s.lastPingSentAt == Some(sentAt)
    requires k < |events| && ChunkText(events[k].result) != ""
    requires forall j :: 0 <= j < k ==> ChunkText(events[j].result) == ""
    ensures AfterReads(s, events).ping == events[k].at - sentAt
    ensures AfterReads(s, events).lastPingSentAt.None?
  {
    var before, hit, after := events[..k], events[k], events[k + 1..];
    assert events == before + [hit] + after;
    assert Received(before) == "" by {
      SilentPrefix(events, k);
    }
    SilentReadsChangeNothing(s, before);
    AfterReadsConcat(s, before, [hit]);
    assert AfterReads(s, before + [hit]) == ObserveOutput(s, hit.at) by {
      assert (before + [hit])[..|before + [hit]| - 1] == before;
    }
    AfterReadsConcat(s, before + [hit], after);
    NoProbeNoChange(ObserveOutput(s, hit.at), after);
  }

  /** A prefix of reads that each deliver nothing delivers nothing. */
  lemma {:induction false} SilentPrefix(events: seq<ReadEvent>, k: nat)
    requires k <= |events|
    requires forall j :: 0 <= j < k ==> ChunkText(events[j].result) == ""
    ensures Received(events[..k]) == ""
    decreases k
  {
    if k > 0 {
      assert events[..k][..k - 1] == events[..k - 1];
      SilentPrefix(events, k - 1);
    }
  }

  /** The index of the first end of stream in `events` at or after `i`, or `|events|` if there is none. */
  function FirstEndFrom(events: seq<ReadEvent>, i: nat): (k: nat)
    requires i <= |events|
    ensures i <= k <= |events|
    decreases |events| - i
  {
    if i == |events| || events[i].result.EOF? then i else FirstEndFrom(events, i + 1)
  }

  /** The index of the first end of stream in `events`, or `|events|` if there is none. */
  function FirstEnd(events: seq<ReadEvent>): nat {
    FirstEndFrom(events, 0)
  }

  /** `FirstEndFrom` finds an end of stream when it stops short, and none before it. */
  lemma {:induction false} FirstEndFromIsFirst(events: seq<ReadEvent>, i: nat)
    requires i <= |events|
    ensures FirstEndFrom(events, i) < |events| ==> events[FirstEndFrom(events, i)].result.EOF?
    ensures forall j :: i <= j < FirstEndFrom(events, i) ==> !events[j].result.EOF?
    decreases |events| - i
  {
    if i < |events| && !events[i].result.EOF? {
      FirstEndFromIsFirst(events, i + 1);
    }
  }

  /** Read `k`, with no end of stream before it, is an end of stream exactly when it is the first one. */
  lemma FirstEndAt(events: seq<ReadEvent>, k: nat)
    requires k < |events| && k <= FirstEnd(events)
    ensures events[k].result.EOF? <==> k == FirstEnd(events)
  {
    FirstEndFromIsFirst(events, 0);
  }

  /** How many of `events` the pump of a session that stays active reads: up to and including the first end of stream. */
  function PumpReads(events: seq<ReadEvent>): (n: nat)
    ensures n <= |events|
    ensures n == |events| || (0 < n && events[n - 1].result.EOF?)
    ensures forall j :: 0 <= j < n - 1 ==> !events[j].result.EOF?
  {
    FirstEndFromIsFirst(events, 0);
    if FirstEnd(events) < |events| then FirstEnd(events) + 1 else |events|
  }

  /** The text buffered for `id`; a session that never produced output has "". */
  function BufferOf(buffers: map<string, string>, id: string): string {
    if id in buffers then buffers[id] else ""
  }

  /** The buffers after `output` is appended to the one of `id`. */
  function Appended(buffers: map<string, string>, id: string, output: string): (r: map<string, string>)
    ensures r.Keys == buffers.Keys + {id}
    ensures BufferOf(r, id) == BufferOf(buffers, id) + output
    ensures forall other :: other != id ==> BufferOf(r, other) == BufferOf(buffers, other)
  {
    buffers[id := BufferOf(buffers, id) + output]
  }

  /** Two appends to the same buffer are one append of both texts, in order. */
  lemma AppendedTwice(buffers: map<string, string>, id: string, x: string, y: string)
    ensures Appended(Appended(buffers, id, x), id, y) == Appended(buffers, id, x + y)
  {
    assert BufferOf(buffers, id) + x + y == BufferOf(buffers, id) + (x + y);
  }

  /** The buffers after a run of reads of `id`: what they delivered is appended, if anything. */
  function BuffersAfter(buffers: map<string, string>, id: string, events: seq<ReadEvent>): map<string, string> {
    if Received(events) == "" then buffers else Appended(buffers, id, Received(events))
  }

  /** One more read appends its bytes, if any, to the buffers a run of reads left. */
  lemma BuffersAfterStep(buffers: map<string, string>, id: string, events: seq<ReadEvent>, e: ReadEvent)
    ensures var b := BuffersAfter(buffers, id, events);
      BuffersAfter(buffers, id, events + [e]) == if ChunkText(e.result) == "" then b else Appended(b, id, ChunkText(e.result))
  {
    assert (events + [e])[..|events|] == events;
    assert Received(events + [e]) == Received(events) + ChunkText(e.result);
    if ChunkText(e.result) != "" && Received(events) != "" {
      AppendedTwice(buffers, id, Received(events), ChunkText(e.result));
    } else if ChunkText(e.result) != "" {
      assert Received(events + [e]) == ChunkText(e.result);
    } else {
      assert Received(events + [e]) == Received(events);
    }
  }

  /** One more read acts on the session a run of reads left. */
  lemma AfterReadsStep(s: Session, events: seq<ReadEvent>, e: ReadEvent)
    ensures AfterReads(s, events + [e]) == AfterRead(AfterReads(s, events), e)
  {
    assert (events + [e])[..|events|] == events;
  }

  /**
   * Read `n` of `events` takes the session filed under `id` from what the
   * first `n` reads left (still active) to what the first `n + 1` reads leave.
   */
  lemma PumpStepSession(start: map<string, Session>, first: Session, id: string, events: seq<ReadEvent>, n: nat)
    requires n < |events| && first.isActive
    ensures AfterReads(first, events[..n]).isActive
    ensures start[id := AfterReads(first, events[..n + 1])]
         == start[id := AfterReads(first, events[..n])][id := AfterRead(AfterReads(first, events[..n]), events[n])]
  {
    var before := events[..n];
    assert events[..n + 1] == before + [events[n]];
    AfterReadsStep(first, before, events[n]);
    var s := AfterRead(AfterReads(first, before), events[n]);
    assert start[id := AfterReads(first, before)][id := s] == start[id := s];
  }

  /** Read `n` of `events` moves the buffers from what the first `n` reads left to what the first `n + 1` leave. */
  lemma PumpStepBuffers(buffers: map<string, string>, id: string, events: seq<ReadEvent>, n: nat)
    requires n < |events|
    ensures BuffersAfter(buffers, id, events[..n + 1])
         == if ChunkText(events[n].result) == "" then BuffersAfter(buffers, id, events[..n])
            else Appended(BuffersAfter(buffers, id, events[..n]), id, ChunkText(events[n].result))
  {
    var before := events[..n];
    assert events[..n + 1] == before + [events[n]];
    BuffersAfterStep(buffers, id, before, events[n]);
  }
}
