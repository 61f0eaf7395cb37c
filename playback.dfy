/** The scheduling rule of the audio playback cursor: every decoded chunk is
    started at the later of the audio clock's current time and the cursor,
    and the cursor moves to the end of that chunk.  Time is the audio
    context's clock in seconds, taken as a real number. */
module Playback {

  /** The length of a decoded buffer in seconds. */
  type Duration = d: real | d >= 0.0

  /** A decoded chunk: the audio-clock time at which its decode finished and
      the duration of its buffer. */
  datatype Chunk = Chunk(arrival: real, duration: Duration)

  /** `Math.max(now, nextAudioStartTime.current)`: a chunk starts now if the
      cursor is behind, and right where the previous one ends otherwise. */
  function StartTime(now: real, cursor: real): (start: real)
    ensures start >= now && start >= cursor
    ensures start == now || start == cursor
  {
    if now >= cursor then now else cursor
  }

  /** The cursor after scheduling a chunk: the end of that chunk, measured in
      buffer time. */
  function Advance(now: real, cursor: real, duration: Duration): (next: real)
    ensures next >= cursor && next >= now
    ensures next - duration == StartTime(now, cursor)
  {
    StartTime(now, cursor) + duration
  }

  /** The start times of a sequence of chunks scheduled one after the other
      from the cursor `cursor`. */
  function Starts(cursor: real, chunks: seq<Chunk>): (starts: seq<real>)
    ensures |starts| == |chunks|
    decreases |chunks|
  {
    if chunks == [] then []
    else
      var s := StartTime(chunks[0].arrival, cursor);
      [s] + Starts(s + chunks[0].duration, chunks[1..])
  }

  /** The cursor after scheduling a sequence of chunks. */
  function FinalCursor(cursor: real, chunks: seq<Chunk>): real
    decreases |chunks|
  {
    if chunks == [] then cursor
    else FinalCursor(Advance(chunks[0].arrival, cursor, chunks[0].duration), chunks[1..])
  }

  /** No chunk starts before it has arrived, nor before the cursor it was
      scheduled from. */
  lemma {:induction false} StartsAfterArrival(cursor: real, chunks: seq<Chunk>)
    ensures forall i :: 0 <= i < |chunks| ==> Starts(cursor, chunks)[i] >= chunks[i].arrival
    ensures forall i :: 0 <= i < |chunks| ==> Starts(cursor, chunks)[i] >= cursor
    decreases |chunks|
  {
    if chunks != [] {
      var s := StartTime(chunks[0].arrival, cursor);
      StartsAfterArrival(s + chunks[0].duration, chunks[1..]);
      var starts := Starts(cursor, chunks);
      assert starts == [s] + Starts(s + chunks[0].duration, chunks[1..]);
      forall i | 1 <= i < |chunks| ensures starts[i] >= chunks[i].arrival && starts[i] >= cursor {
        assert starts[i] == Starts(s + chunks[0].duration, chunks[1..])[i - 1];
        assert chunks[i] == chunks[1..][i - 1];
      }
    }
  }

  /** Successive chunks never overlap in buffer time: each starts no earlier
      than the end of the one before it; in particular the start times never
      decrease. */
  lemma {:induction false} NonOverlapping(cursor: real, chunks: seq<Chunk>)
    ensures forall i :: 0 <= i && i + 1 < |chunks| ==>
      Starts(cursor, chunks)[i] + chunks[i].duration <= Starts(cursor, chunks)[i + 1]
    ensures forall i :: 0 <= i && i + 1 < |chunks| ==> Starts(cursor, chunks)[i] <= Starts(cursor, chunks)[i + 1]
    decreases |chunks|
  {
    if chunks != [] {
      var s := StartTime(chunks[0].arrival, cursor);
      var rest := Starts(s + chunks[0].duration, chunks[1..]);
      NonOverlapping(s + chunks[0].duration, chunks[1..]);
      StartsAfterArrival(s + chunks[0].duration, chunks[1..]);
      var starts := Starts(cursor, chunks);
      assert starts == [s] + rest;
      forall i | 0 <= i && i + 1 < |chunks| ensures starts[i] + chunks[i].duration <= starts[i + 1] {
        if i == 0 {
          assert starts[1] == rest[0] >= s + chunks[0].duration;
        } else {
          assert chunks[i] == chunks[1..][i - 1];
          assert starts[i] == rest[i - 1] && starts[i + 1] == rest[i];
          assert rest[i - 1] + chunks[1..][i - 1].duration <= rest[i];
        }
      }
    }
  }

  /** A chunk follows the previous one without a gap exactly when it arrived
      before the previous one finished; otherwise it starts when it arrives. */
  lemma {:induction false} GaplessIffEarly(cursor: real, chunks: seq<Chunk>, i: nat)
    requires i + 1 < |chunks|
    ensures var starts := Starts(cursor, chunks);
      var end := starts[i] + chunks[i].duration;
      (starts[i + 1] == end <==> chunks[i + 1].arrival <= end) &&
      (chunks[i + 1].arrival > end ==> starts[i + 1] == chunks[i + 1].arrival)
    decreases i
  {
    var s := StartTime(chunks[0].arrival, cursor);
    var rest := Starts(s + chunks[0].duration, chunks[1..]);
    assert Starts(cursor, chunks) == [s] + rest;
    if i == 0 {
      assert chunks[1..][0] == chunks[1];
    } else {
      GaplessIffEarly(s + chunks[0].duration, chunks[1..], i - 1);
      assert chunks[1..][i - 1] == chunks[i] && chunks[1..][i] == chunks[i + 1];
    }
  }

  /** The cursor after a sequence of chunks is the end of the last one, and
      it never moves back. */
  lemma {:induction false} FinalCursorIsLastEnd(cursor: real, chunks: seq<Chunk>)
    ensures FinalCursor(cursor, chunks) >= cursor
    ensures chunks != [] ==>
      FinalCursor(cursor, chunks) == Starts(cursor, chunks)[|chunks| - 1] + chunks[|chunks| - 1].duration
    decreases |chunks|
  {
    if chunks != [] {
      var s := StartTime(chunks[0].arrival, cursor);
      FinalCursorIsLastEnd(s + chunks[0].duration, chunks[1..]);
      var starts := Starts(cursor, chunks);
      assert starts == [s] + Starts(s + chunks[0].duration, chunks[1..]);
      if |chunks| > 1 {
        assert chunks[|chunks| - 1] == chunks[1..][|chunks| - 2];
      }
    }
  }

  /** Three chunks: the second arrives while the first plays and is queued
      right behind it; the third arrives after a silence and starts at once. */
  lemma ExampleTimeline()
    ensures var chunks := [Chunk(0.0, 1.0), Chunk(0.3, 0.7), Chunk(3.0, 1.2)];
      Starts(0.0, chunks) == [0.0, 1.0, 3.0] && FinalCursor(0.0, chunks) == 4.2
  {
    var chunks := [Chunk(0.0, 1.0), Chunk(0.3, 0.7), Chunk(3.0, 1.2)];
    assert chunks[1..] == [Chunk(0.3, 0.7), Chunk(3.0, 1.2)];
    assert chunks[1..][1..] == [Chunk(3.0, 1.2)];
    assert chunks[1..][1..][1..] == [];
  }

  /** After an interrupt the cursor is 0, so the next chunk starts at the
      current time of the audio clock, which never runs below 0. */
  lemma NextAfterResetStartsNow(now: real)
    requires now >= 0.0
    ensures StartTime(now, 0.0) == now
  {
  }

  /** Nonlinear-arithmetic step of `QuotientBounds`: a product of two
      positive reals is positive. */
  lemma ProductPositive(a: real, b: real)
    requires a > 0.0 && b > 0.0
    ensures a * b > 0.0
  {
  }

  /** Dividing a positive length by a rate below 1 lengthens it, by a rate
      above 1 shortens it. */
  lemma QuotientBounds(d: real, rate: real)
    requires rate > 0.0 && d > 0.0
    ensures rate < 1.0 ==> d / rate > d
    ensures rate > 1.0 ==> d / rate < d
  {
    var t := d / rate;
    assert t * rate == d;
    assert t > 0.0;
    if rate < 1.0 {
      var lag := 1.0 - rate;
      ProductPositive(t, lag);
      var extra := t * lag;
      assert extra == t - t * rate;
      assert t - d == extra;
    } else if rate > 1.0 {
      var lead := rate - 1.0;
      ProductPositive(t, lead);
      var saved := t * lead;
      assert saved == t * rate - t;
      assert d - t == saved;
    }
  }

  /** How long a buffer of `d` seconds sounds when played at rate `rate`:
      slower than 1 stretches it, faster compresses it. */
  function PlayingTime(d: Duration, rate: real): (t: real)
    requires rate > 0.0
    ensures t * rate == d
    ensures rate < 1.0 && d > 0.0 ==> t > d
    ensures rate > 1.0 && d > 0.0 ==> t < d
  {
    if d > 0.0 then QuotientBounds(d, rate); d / rate else 0.0
  }

  /** The cursor moves by the buffer duration whatever the playback rate, so
      at a rate below 1 a chunk is still sounding when the chunk queued right
      behind it starts, and at a rate above 1 a silence opens between them. */
  lemma RateIgnoredByCursor(now: real, cursor: real, d: Duration, rate: real, nextArrival: real)
    requires rate > 0.0 && d > 0.0
    requires nextArrival <= Advance(now, cursor, d)
    ensures StartTime(nextArrival, Advance(now, cursor, d)) == StartTime(now, cursor) + d
    ensures rate < 1.0 ==> StartTime(now, cursor) + PlayingTime(d, rate) > StartTime(nextArrival, Advance(now, cursor, d))
    ensures rate > 1.0 ==> StartTime(now, cursor) + PlayingTime(d, rate) < StartTime(nextArrival, Advance(now, cursor, d))
  {
  }
}
