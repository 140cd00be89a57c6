/** The queue that plays the audio chunks of the live session back to back
    (App.tsx:189, App.tsx:266-280). Each decoded chunk is started at the
    later of the queue's `nextStartTime` and the output clock's current
    time, and `nextStartTime` then moves past the chunk, so chunks never
    overlap. Times are seconds on the output context's clock, as reals. */
module Playback {

  function Max(a: real, b: real): real
  {
    if a >= b then a else b
  }

  /** Where one chunk is placed: it starts at `start` and ends at `end`. */
  datatype Slot = Slot(start: real, end: real)

  /** One scheduling step: `nextStartTime = Math.max(nextStartTime, currentTime)`,
      start there, then `nextStartTime += duration`. */
  function ScheduleStep(nextStart: real, now: real, duration: real): (r: Slot)
    ensures r.start >= now && r.start >= nextStart
    ensures r.start == nextStart || r.start == now
    ensures r.end - r.start == duration
    ensures duration >= 0.0 ==> r.end >= nextStart && r.end >= r.start
  {
    var start := Max(nextStart, now);
    Slot(start, start + duration)
  }

  /** A chunk as the session delivers it: the output clock's time when it
      arrives and the decoded buffer's length. */
  datatype Chunk = Chunk(arrivedAt: real, duration: real)

  /** The slots of a run of chunks handled one after the other, starting
      from the queue position `nextStart`. */
  function ScheduleAll(nextStart: real, chunks: seq<Chunk>): seq<Slot>
    decreases |chunks|
  {
    if chunks == [] then []
    else
      var first := ScheduleStep(nextStart, chunks[0].arrivedAt, chunks[0].duration);
      [first] + ScheduleAll(first.end, chunks[1..])
  }

  /** Durations of decoded audio are never negative. */
  predicate Durations(chunks: seq<Chunk>)
  {
    forall i :: 0 <= i < |chunks| ==> chunks[i].duration >= 0.0
  }

  /** Back-to-back playback: one slot per chunk; no chunk starts before it
      arrives nor before the queue position; each lasts exactly its
      duration; and every chunk ends before any later one starts. */
  lemma {:induction false} ScheduleAllNeverOverlaps(nextStart: real, chunks: seq<Chunk>)
    requires Durations(chunks)
    ensures var slots := ScheduleAll(nextStart, chunks);
      && |slots| == |chunks|
      && (forall i :: 0 <= i < |slots| ==>
            slots[i].start >= chunks[i].arrivedAt && slots[i].start >= nextStart
            && slots[i].end == slots[i].start + chunks[i].duration)
      && (forall i, j :: 0 <= i < j < |slots| ==> slots[i].end <= slots[j].start)
    decreases |chunks|
  {
    if chunks != [] {
      var first := ScheduleStep(nextStart, chunks[0].arrivedAt, chunks[0].duration);
      var rest := ScheduleAll(first.end, chunks[1..]);
      assert Durations(chunks[1..]) by {
        forall i | 0 <= i < |chunks[1..]| ensures chunks[1..][i].duration >= 0.0 {
          assert chunks[1..][i] == chunks[i + 1];
        }
      }
      ScheduleAllNeverOverlaps(first.end, chunks[1..]);
      var slots := [first] + rest;
      assert slots == ScheduleAll(nextStart, chunks);
      forall i | 0 <= i < |slots|
        ensures slots[i].start >= chunks[i].arrivedAt && slots[i].start >= nextStart
        ensures slots[i].end == slots[i].start + chunks[i].duration
      {
        if i > 0 {
          assert slots[i] == rest[i - 1] && chunks[i] == chunks[1..][i - 1];
        }
      }
      forall i, j | 0 <= i < j < |slots|
        ensures slots[i].end <= slots[j].start
      {
        assert slots[j] == rest[j - 1];
        if i > 0 {
          assert slots[i] == rest[i - 1];
        }
      }
    }
  }

  /** An `AudioBufferSourceNode` once started: when it starts and how long
      its buffer plays. */
  class SourceNode {
    const startAt: real
    const duration: real

    constructor (startAt: real, duration: real)
      ensures this.startAt == startAt && this.duration == duration
    {
      this.startAt := startAt;
      this.duration := duration;
    }

    function End(): real
    {
      startAt + duration
    }
  }

  /** The mutable part of `audioContextsRef.current`: the queue position
      and the set of started sources. */
  class Player {
    var nextStartTime: real
    var sources: set<SourceNode>

    /** No two started sources overlap, and every one of them has finished
        by `nextStartTime`. */
    ghost predicate Valid()
      reads this
    {
      && (forall a :: a in sources ==> a.duration >= 0.0 && a.End() <= nextStartTime)
      && (forall a, b :: a in sources && b in sources && a != b ==>
            a.End() <= b.startAt || b.End() <= a.startAt)
    }

    /** `{ ..., nextStartTime: 0, sources: new Set() }` when a call starts. */
    constructor ()
      ensures Valid()
      ensures nextStartTime == 0.0 && sources == {}
    {
      nextStartTime := 0.0;
      sources := {};
    }

    /** Plays one decoded chunk: starts a new source at the later of the
        queue position and the current time, moves the queue position past
        it, and records the source. */
    method Play(currentTime: real, duration: real) returns (source: SourceNode)
      requires Valid()
      requires duration >= 0.0
      modifies this
      ensures Valid()
      ensures fresh(source)
      ensures source.startAt == ScheduleStep(old(nextStartTime), currentTime, duration).start
      ensures source.duration == duration
      ensures nextStartTime == ScheduleStep(old(nextStartTime), currentTime, duration).end
      ensures source.startAt >= currentTime && source.startAt >= old(nextStartTime)
      ensures nextStartTime >= old(nextStartTime)
      ensures sources == old(sources) + {source}
    {
      nextStartTime := Max(nextStartTime, currentTime);
      source := new SourceNode(nextStartTime, duration);
      nextStartTime := nextStartTime + duration;
      sources := sources + {source};
    }
  }
}
