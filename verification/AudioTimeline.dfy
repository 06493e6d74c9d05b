/** Placing received audio on the input's timeline (benchmarking_tools/Full-Duplex-Bench-Eval/inference_realtime.py).
    Times are exact and counted in samples of the benchmark rate. */
module AudioTimeline {
  import opened Wrappers

  type Sample = int
  type Chunk = seq<Sample>

  /** Fifty milliseconds at 16 kHz. */
  const BURST_GAP := 800.0

  /** Python's `round`: to the nearest integer, halves to the even one. */
  function Round(x: real): int {
    var n, rest := x.Floor, x - x.Floor as real;
    if rest < 0.5 || (rest == 0.5 && n % 2 == 0) then n else n + 1
  }

  lemma RoundAbove(x: real, n: int)
    requires x >= n as real
    ensures Round(x) >= n
  {
  }

  // ----- Where each chunk goes -----

  /** A chunk goes on directly after the one before it, unless it came more than one and a half of its own
      lengths later. */
  function Start(next: Option<int>, chunk: Chunk, time: real): int {
    if next.Some? && time - next.value as real <= |chunk| as real * 1.5 then Round(next.value as real)
    else Round(time)
  }

  lemma StartAbove(next: Option<int>, chunk: Chunk, time: real)
    requires time >= 0.0 && (next.Some? ==> next.value >= 0)
    ensures Start(next, chunk, time) >= if next.Some? then next.value else 0
  {
    RoundAbove(time, if next.Some? && time >= next.value as real then next.value else 0);
  }

  /** To the nearest whole number, and to the even one of two. */
  lemma RoundNearest(x: real)
    ensures var n := Round(x);
            -0.5 <= x - n as real <= 0.5 && (x - n as real == 0.5 || n as real - x == 0.5 ==> n % 2 == 0)
  {
  }

  /** Every chunk lies directly after its predecessor, if it came at most one and a half of its own lengths after the
      end of that, and otherwise, like the first, where it arrived. */
  ghost predicate PlacedByTime(starts: seq<int>, chunks: seq<Chunk>, times: seq<real>)
    requires |starts| == |chunks| == |times|
  {
    forall k | 0 <= k < |chunks| ::
      var late := k == 0 || times[k] - (starts[k - 1] + |chunks[k - 1]|) as real > 1.5 * |chunks[k]| as real;
      starts[k] == if late then Round(times[k]) else starts[k - 1] + |chunks[k - 1]|
  }

  lemma {:induction false} StartsByTime(chunks: seq<Chunk>, times: seq<real>, next: Option<int>)
    requires |chunks| == |times|
    ensures |Starts(chunks, times, next)| == |chunks|
    ensures forall k | 0 <= k < |chunks| ::
              var starts := Starts(chunks, times, next);
              var end := if k == 0 then next else Some(starts[k - 1] + |chunks[k - 1]|);
              starts[k] ==
                if end.None? || times[k] - end.value as real > 1.5 * |chunks[k]| as real then Round(times[k])
                else end.value
  {
    if chunks != [] {
      var s := Start(next, chunks[0], times[0]);
      StartsByTime(chunks[1..], times[1..], Some(s + |chunks[0]|));
    }
  }

  lemma {:induction false} StartsPlacedByTime(chunks: seq<Chunk>, times: seq<real>)
    requires |chunks| == |times|
    ensures var starts := Starts(chunks, times, None);
            |starts| == |chunks| && PlacedByTime(starts, chunks, times)
  {
    StartsByTime(chunks, times, None);
  }

  function Starts(chunks: seq<Chunk>, times: seq<real>, next: Option<int>): seq<int>
    requires |chunks| == |times|
  {
    if chunks == [] then []
    else
      var s := Start(next, chunks[0], times[0]);
      [s] + Starts(chunks[1..], times[1..], Some(s + |chunks[0]|))
  }

  /** The largest sample end that the sizing pass meets. */
  function PackedEnd(chunks: seq<Chunk>, times: seq<real>, next: Option<int>, sofar: int): int
    requires |chunks| == |times|
  {
    if chunks == [] then sofar
    else
      var end := Start(next, chunks[0], times[0]) + |chunks[0]|;
      PackedEnd(chunks[1..], times[1..], Some(end), if end > sofar then end else sofar)
  }

  /** The track after `chunk` is written from `start`, as far as the track goes. */
  function Write(track: seq<Sample>, start: nat, chunk: Chunk): seq<Sample>
    requires start <= |track|
  {
    if start + |chunk| <= |track| then track[..start] + chunk + track[start + |chunk|..]
    else track[..start] + chunk[..|track| - start]
  }

  lemma WriteLength(track: seq<Sample>, start: nat, chunk: Chunk)
    requires start <= |track|
    ensures |Write(track, start, chunk)| == |track|
  {
  }

  predicate Schedules(chunks: seq<Chunk>, times: seq<real>, next: Option<int>) {
    |chunks| == |times| && (forall k | 0 <= k < |times| :: times[k] >= 0.0) && (next.Some? ==> next.value >= 0)
  }

  /** Where a chunk ends on the track. */
  function EndOn(track: seq<Sample>, start: nat, chunk: Chunk): nat
    requires start < |track|
  {
    if start + |chunk| < |track| then start + |chunk| else |track|
  }

  /** The track after all the chunks are placed. */
  function Assembled(track: seq<Sample>, chunks: seq<Chunk>, times: seq<real>, next: Option<int>): seq<Sample>
    requires Schedules(chunks, times, next)
    decreases |chunks|
  {
    if chunks == [] then track
    else
      var start := Start(next, chunks[0], times[0]);
      StartAbove(next, chunks[0], times[0]);
      if start >= |track| then Assembled(track, chunks[1..], times[1..], next)
      else
        Assembled(Write(track, start, chunks[0]), chunks[1..], times[1..], Some(EndOn(track, start, chunks[0])))
  }

  function Silence(n: nat): seq<Sample> {
    seq(n, _ => 0)
  }

  // ----- What was received -----

  class Received {
    var chunks: seq<Chunk>
    var times: seq<real>
    var lastArrival: Option<real>

    /** Every chunk has an arrival time since the start. */
    predicate Valid()
      reads this
    {
      && |chunks| == |times|
      && (forall k | 0 <= k < |times| :: times[k] >= 0.0)
      && (forall k | 0 <= k < |chunks| :: chunks[k] != [])
      && (chunks != [] ==> lastArrival.Some?)
    }

    constructor ()
      ensures Valid() && chunks == []
    {
      chunks, times, lastArrival := [], [], None;
    }

    /** A decoded chunk arrives `now` samples after the start; a burst continues the chunk before it. */
    method Arrive(chunk: Chunk, now: real)
      requires Valid() && now >= 0.0
      modifies this
      ensures Valid()
      ensures chunk == [] ==> chunks == old(chunks) && times == old(times) && lastArrival == old(lastArrival)
      ensures chunk != [] ==>
        chunks == old(chunks) + [chunk] && times[..|times| - 1] == old(times) && lastArrival == Some(now)
      ensures chunk != [] ==> 
        times[|times| - 1] == (if old(chunks) != [] && now - old(lastArrival).value < BURST_GAP
          then old(times)[|old(times)| - 1] + |old(chunks)[|old(chunks)| - 1]| as real else now)
    {
      if chunk == [] {
        return;
      }
      var time := now;
      if times != [] {
        var expected := times[|times| - 1] + |chunks[|chunks| - 1]| as real;
        time := if now - lastArrival.value < BURST_GAP then expected else now;
      }
      chunks := chunks + [chunk];
      times := times + [time];
      lastArrival := Some(now);
    }

    /** `_truncate_output_at`: what was scheduled at or after the interruption is discarded. */
    method TruncateAt(cutoff: real)
      requires Valid()
      modifies this`chunks, this`times
      ensures Valid() && lastArrival == old(lastArrival)
      ensures chunks == Truncated(old(chunks), old(times), cutoff).0
      ensures times == Truncated(old(chunks), old(times), cutoff).1
    {
      hide Truncated, KeepSamples;
      var keptChunks: seq<Chunk>, keptTimes: seq<real> := [], [];
      ghost var rest := Truncated(chunks, times, cutoff);
      for i := 0 to |chunks|
        invariant Valid() && chunks == old(chunks) && times == old(times)
        invariant |keptChunks| == |keptTimes| && (i == 0 ==> keptChunks == [])
        invariant forall k | 0 <= k < |keptTimes| :: keptTimes[k] >= 0.0 && keptChunks[k] != []
        invariant rest == Truncated(chunks[i..], times[i..], cutoff)
        invariant keptChunks + rest.0 == Truncated(chunks, times, cutoff).0
        invariant keptTimes + rest.1 == Truncated(chunks, times, cutoff).1
      {
        var chunk, time := chunks[i], times[i];
        TruncatedStep(chunks[i..], times[i..], cutoff);
        if time >= cutoff {
          break;
        }
        var keep := KeepSamples(chunk, time, cutoff);
        if keep > 0 {
          keptChunks := keptChunks + [chunk[..keep]];
          keptTimes := keptTimes + [time];
        }
        rest := if keep < |chunk| then ([], []) else Truncated(chunks[i..][1..], times[i..][1..], cutoff);
        if keep < |chunk| {
          break;
        }
        assert chunks[i..][1..] == chunks[i + 1..] && times[i..][1..] == times[i + 1..];
      }
      TruncatedNone(cutoff);
      assert rest == ([], []);
      assert keptChunks + [] == keptChunks && keptTimes + [] == keptTimes;
      chunks := keptChunks;
      times := keptTimes;
    }

    /** `_packed_output_end`. */
    method PackedOutputEnd() returns (packedEnd: int)
      requires Valid()
      ensures packedEnd == PackedEnd(chunks, times, None, 0)
    {
      hide Start;
      var next: Option<int> := None;
      packedEnd := 0;
      for i := 0 to |chunks|
        invariant next.Some? ==> next.value >= 0
        invariant PackedEnd(chunks, times, None, 0) == PackedEnd(chunks[i..], times[i..], next, packedEnd)
      {
        var chunk, time := chunks[i], times[i];
        var start := Start(next, chunk, time);
        StartAbove(next, chunk, time);
        var end := start + |chunk|;
        packedEnd := if end > packedEnd then end else packedEnd;
        next := Some(end);
        assert chunks[i..][1..] == chunks[i + 1..] && times[i..][1..] == times[i + 1..];
      }
    }

    /** The latest of the input's end, the ends by arrival time and the end of the packed chunks. */
    predicate LongestEnd(length: int, inputEnd: int)
      requires Valid()
      reads this
    {
      && length >= inputEnd && length >= PackedEnd(chunks, times, None, 0)
      && (forall i | 0 <= i < |chunks| :: length >= Round(times[i]) + |chunks[i]|)
      && (length == inputEnd || length == PackedEnd(chunks, times, None, 0) ||
          exists i | 0 <= i < |chunks| :: length == Round(times[i]) + |chunks[i]|)
    }

    /** `assemble_output`. */
    method AssembleOutput(inputDuration: real, preserveLateOutput: bool) returns (output: array<Sample>)
      requires Valid() && inputDuration >= 0.0
      ensures fresh(output)
      ensures output[..] == Assembled(Silence(output.Length), chunks, times, None)
      ensures !preserveLateOutput || chunks == [] ==> output.Length == Round(inputDuration)
      ensures preserveLateOutput && chunks != [] ==> LongestEnd(output.Length, Round(inputDuration))
      ensures preserveLateOutput ==> Holds(output[..], Silence(output.Length), Starts(chunks, times, None), chunks)
    {
      RoundAbove(inputDuration, 0);
      var target := Round(inputDuration);
      if preserveLateOutput && chunks != [] {
        var timestampEnd := TimestampEnd();
        var packedEnd := PackedOutputEnd();
        target := if timestampEnd > target then timestampEnd else target;
        target := if packedEnd > target then packedEnd else target;
      }
      output := new Sample[target](_ => 0);
      assert output[..] == Silence(target);
      PlaceAll(output);
      if preserveLateOutput {
        LateOutputPreserved(chunks, times, output.Length);
      }
    }

    method PlaceAll(output: array<Sample>)
      requires Valid()
      modifies output
      ensures output[..] == Assembled(old(output[..]), chunks, times, None)
    {
      hide Start, Write;
      ghost var all := Assembled(output[..], chunks, times, None);
      var next: Option<int> := None;
      for i := 0 to |chunks|
        invariant next.Some? ==> next.value >= 0
        invariant all == Assembled(output[..], chunks[i..], times[i..], next)
      {
        var chunk, time := chunks[i], times[i];
        var start := Start(next, chunk, time);
        StartAbove(next, chunk, time);
        assert chunks[i..][1..] == chunks[i + 1..] && times[i..][1..] == times[i + 1..];
        if start < output.Length {
          var end := if start + |chunk| < output.Length then start + |chunk| else output.Length;
          Place(output, start, end, chunk);
          next := Some(end);
        }
      }
    }

    method TimestampEnd() returns (end: int)
      requires Valid() && chunks != []
      ensures forall i | 0 <= i < |chunks| :: end >= Round(times[i]) + |chunks[i]|
      ensures exists i | 0 <= i < |chunks| :: end == Round(times[i]) + |chunks[i]|
    {
      end := Round(times[0]) + |chunks[0]|;
      for i := 1 to |chunks|
        invariant forall j | 0 <= j < i :: end >= Round(times[j]) + |chunks[j]|
        invariant exists j | 0 <= j < i :: end == Round(times[j]) + |chunks[j]|
      {
        if Round(times[i]) + |chunks[i]| > end {
          end := Round(times[i]) + |chunks[i]|;
        }
      }
    }

    /** `output[start:end] = chunk[:end - start]`. */
    static method Place(output: array<Sample>, start: nat, end: nat, chunk: Chunk)
      requires start < output.Length
      requires end == if start + |chunk| < output.Length then start + |chunk| else output.Length
      modifies output
      ensures output[..] == Write(old(output[..]), start, chunk)
    {
      ghost var was := output[..];
      for i := start to end
        invariant forall k | 0 <= k < output.Length :: output[k] == if start <= k < i then chunk[k - start] else was[k]
      {
        output[i] := chunk[i - start];
      }
    }
  }

  // ----- Cutting at an interruption -----

  function KeepSamples(chunk: Chunk, time: real, cutoff: real): (n: nat)
    ensures n <= |chunk|
  {
    var due := Round(cutoff - time);
    if due < 0 then 0 else if due < |chunk| then due else |chunk|
  }

  /** Sample `j` is kept exactly if it begins more than half a sample before the cutoff, or just half a sample and it is
      the second of a pair, as rounding has it. */
  lemma KeepsWhatWasDue(chunk: Chunk, time: real, cutoff: real, j: nat)
    requires j < |chunk|
    ensures var ahead := cutoff - time - j as real;
            j < KeepSamples(chunk, time, cutoff) <==> ahead > 0.5 || (ahead == 0.5 && j % 2 == 1)
  {
    RoundNearest(cutoff - time);
  }

  function Truncated(chunks: seq<Chunk>, times: seq<real>, cutoff: real): (r: (seq<Chunk>, seq<real>))
    requires |chunks| == |times|
    ensures |r.0| == |r.1|
  {
    if chunks == [] || times[0] >= cutoff then ([], [])
    else
      var keep := KeepSamples(chunks[0], times[0], cutoff);
      var head := if keep > 0 then ([chunks[0][..keep]], [times[0]]) else ([], []);
      if keep < |chunks[0]| then head
      else
        var rest := Truncated(chunks[1..], times[1..], cutoff);
        (head.0 + rest.0, head.1 + rest.1)
  }

  lemma TruncatedNone(cutoff: real)
    ensures Truncated([], [], cutoff) == ([], [])
  {
  }

  lemma TruncatedStep(chunks: seq<Chunk>, times: seq<real>, cutoff: real)
    requires |chunks| == |times| && chunks != []
    ensures var r, keep := Truncated(chunks, times, cutoff), KeepSamples(chunks[0], times[0], cutoff);
            if times[0] >= cutoff then r == ([], [])
            else
              var rest := if keep < |chunks[0]| then ([], []) else Truncated(chunks[1..], times[1..], cutoff);
              && r.0 == (if keep > 0 then [chunks[0][..keep]] else []) + rest.0
              && r.1 == (if keep > 0 then [times[0]] else []) + rest.1
  {
  }

  /** Exactly the first few chunks are kept, in full but for the last one, and of each exactly the samples due
      before the cutoff; the first sample dropped was due at the cutoff or later. */
  ghost predicate WhatWasDue(kept: seq<Chunk>, keptTimes: seq<real>, chunks: seq<Chunk>, times: seq<real>, cutoff: real)
    requires |chunks| == |times|
  {
    var n := |kept|;
    && n <= |chunks| && keptTimes == times[..n]
    && (forall k | 0 <= k < n :: times[k] < cutoff && kept[k] != []
          && kept[k] == chunks[k][..KeepSamples(chunks[k], times[k], cutoff)])
    && (forall k | 0 <= k < n - 1 :: kept[k] == chunks[k])
    && (n < |chunks| ==>
          (n > 0 && |kept[n - 1]| < |chunks[n - 1]|) || times[n] >= cutoff ||
            KeepSamples(chunks[n], times[n], cutoff) == 0)
  }

  lemma {:induction false} TruncatedIsWhatWasDue(chunks: seq<Chunk>, times: seq<real>, cutoff: real)
    requires |chunks| == |times| && forall k | 0 <= k < |chunks| :: chunks[k] != []
    ensures WhatWasDue(Truncated(chunks, times, cutoff).0, Truncated(chunks, times, cutoff).1, chunks, times, cutoff)
  {
    hide Truncated, KeepSamples;
    if chunks == [] {
      TruncatedNone(cutoff);
    } else {
      TruncatedStep(chunks, times, cutoff);
      var keep := KeepSamples(chunks[0], times[0], cutoff);
      if times[0] < cutoff && keep == |chunks[0]| {
        var (rest, restTimes) := Truncated(chunks[1..], times[1..], cutoff);
        TruncatedIsWhatWasDue(chunks[1..], times[1..], cutoff);
        DueCons(rest, restTimes, chunks, times, cutoff);
      }
    }
  }

  lemma DueCons(rest: seq<Chunk>, restTimes: seq<real>, chunks: seq<Chunk>, times: seq<real>, cutoff: real)
    requires |chunks| == |times| && chunks != [] && chunks[0] != [] && times[0] < cutoff
    requires KeepSamples(chunks[0], times[0], cutoff) == |chunks[0]|
    requires WhatWasDue(rest, restTimes, chunks[1..], times[1..], cutoff)
    ensures WhatWasDue([chunks[0]] + rest, [times[0]] + restTimes, chunks, times, cutoff)
  {
    hide KeepSamples;
    forall k | 0 < k <= |rest|
      ensures ([chunks[0]] + rest)[k] == rest[k - 1] && chunks[k] == chunks[1..][k - 1] && times[k] == times[1..][k - 1]
    {
    }
    assert chunks[0][..|chunks[0]|] == chunks[0];
  }

  /** The same interruption cuts nothing more. */
  lemma {:induction false} TruncatedTwice(chunks: seq<Chunk>, times: seq<real>, cutoff: real)
    requires |chunks| == |times|
    ensures var (kept, keptTimes) := Truncated(chunks, times, cutoff);
            Truncated(kept, keptTimes, cutoff) == (kept, keptTimes)
  {
    hide Truncated;
    TruncatedNone(cutoff);
    if chunks != [] {
      TruncatedStep(chunks, times, cutoff);
      if times[0] < cutoff {
        var keep := KeepSamples(chunks[0], times[0], cutoff);
        TruncatedTwice(chunks[1..], times[1..], cutoff);
        var (kept, keptTimes) := Truncated(chunks, times, cutoff);
        var rest := if keep < |chunks[0]| then ([], []) else Truncated(chunks[1..], times[1..], cutoff);
        if keep > 0 {
          assert kept[1..] == rest.0 && keptTimes[1..] == rest.1;
          assert kept[0] == chunks[0][..keep] == chunks[0][..keep][..keep];
          TruncatedStep(kept, keptTimes, cutoff);
        } else {
          assert kept == rest.0 && keptTimes == rest.1;
        }
      }
    }
  }

  // ----- Nothing is lost when late output is preserved -----

  ghost predicate Timed(chunks: seq<Chunk>, times: seq<real>) {
    |chunks| == |times| && forall k | 0 <= k < |times| :: times[k] >= 0.0
  }

  /** The chunks lie one after the other from `from` on. */
  ghost predicate Ascending(starts: seq<int>, chunks: seq<Chunk>, from: int)
    requires |starts| == |chunks|
  {
    && (forall i | 0 <= i < |starts| :: from <= starts[i])
    && (forall i, j | 0 <= i < j < |starts| :: starts[i] + |chunks[i]| <= starts[j])
  }

  lemma {:induction false} StartsAscend(chunks: seq<Chunk>, times: seq<real>, next: Option<int>)
    requires Timed(chunks, times) && (next.Some? ==> next.value >= 0)
    ensures |Starts(chunks, times, next)| == |chunks|
    ensures Ascending(Starts(chunks, times, next), chunks, if next.Some? then next.value else 0)
  {
    hide Start;
    if chunks != [] {
      var s := Start(next, chunks[0], times[0]);
      StartAbove(next, chunks[0], times[0]);
      StartsAscend(chunks[1..], times[1..], Some(s + |chunks[0]|));
    }
  }

  /** The sizing pass finds the end of the last chunk. */
  lemma {:induction false} PackedEndCovers(chunks: seq<Chunk>, times: seq<real>, next: Option<int>, sofar: int)
    requires Timed(chunks, times) && (next.Some? ==> next.value >= 0) && sofar <= (if next.Some? then next.value else 0)
    ensures |Starts(chunks, times, next)| == |chunks|
    ensures PackedEnd(chunks, times, next, sofar) ==
      if chunks == [] then sofar else Starts(chunks, times, next)[|chunks| - 1] + |chunks[|chunks| - 1]|
  {
    hide Start;
    StartsAscend(chunks, times, next);
    if chunks != [] {
      var s := Start(next, chunks[0], times[0]);
      StartAbove(next, chunks[0], times[0]);
      var end := s + |chunks[0]|;
      PackedEndCovers(chunks[1..], times[1..], Some(end), if end > sofar then end else sofar);
    }
  }

  /** Sample `p` belongs to no chunk. */
  ghost predicate Uncovered(starts: seq<int>, chunks: seq<Chunk>, p: int)
    requires |starts| == |chunks|
  {
    forall i | 0 <= i < |chunks| :: !(starts[i] <= p < starts[i] + |chunks[i]|)
  }

  /** The track holds every chunk whole at its place, and elsewhere what it held before. */
  ghost predicate Holds(track: seq<Sample>, was: seq<Sample>, starts: seq<int>, chunks: seq<Chunk>) {
    && |track| == |was| && |starts| == |chunks|
    && (forall i | 0 <= i < |chunks| :: 0 <= starts[i] && starts[i] + |chunks[i]| <= |track|
          && track[starts[i]..starts[i] + |chunks[i]|] == chunks[i])
    && (forall p | 0 <= p < |track| && Uncovered(starts, chunks, p) :: track[p] == was[p])
  }

  lemma HoldsCons(out: seq<Sample>, track: seq<Sample>, s: nat, chunk: Chunk, rest: seq<int>, chunks: seq<Chunk>)
    requires s + |chunk| <= |track| && Holds(out, Write(track, s, chunk), rest, chunks)
    requires forall i | 0 <= i < |rest| :: s + |chunk| <= rest[i]
    ensures Holds(out, track, [s] + rest, [chunk] + chunks)
  {
    hide Uncovered, Write;
    WriteLength(track, s, chunk);
    FirstHolds(out, track, s, chunk, rest, chunks);
    forall p | 0 <= p < |track| && Uncovered([s] + rest, [chunk] + chunks, p) ensures out[p] == track[p] {
      UncoveredTail(s, chunk, rest, chunks, p);
      WriteReads(track, s, chunk, p);
    }
    forall i | 0 < i <= |chunks| ensures ([s] + rest)[i] == rest[i - 1] && ([chunk] + chunks)[i] == chunks[i - 1] {
    }
  }

  lemma WriteReads(track: seq<Sample>, s: nat, chunk: Chunk, p: nat)
    requires s + |chunk| <= |track| && p < |track|
    ensures |Write(track, s, chunk)| == |track|
    ensures Write(track, s, chunk)[p] == if s <= p < s + |chunk| then chunk[p - s] else track[p]
  {
  }

  lemma UncoveredTail(s: nat, chunk: Chunk, rest: seq<int>, chunks: seq<Chunk>, p: nat)
    requires |rest| == |chunks|
    ensures Uncovered([s] + rest, [chunk] + chunks, p) ==> Uncovered(rest, chunks, p) && !(s <= p < s + |chunk|)
    ensures p < s + |chunk| && (forall i | 0 <= i < |rest| :: s + |chunk| <= rest[i]) ==> Uncovered(rest, chunks, p)
  {
    if Uncovered([s] + rest, [chunk] + chunks, p) {
      assert !(([s] + rest)[0] <= p < ([s] + rest)[0] + |([chunk] + chunks)[0]|);
      forall i | 0 <= i < |chunks| ensures !(rest[i] <= p < rest[i] + |chunks[i]|) {
        assert ([s] + rest)[i + 1] == rest[i] && ([chunk] + chunks)[i + 1] == chunks[i];
      }
    }
  }

  lemma FirstHolds(out: seq<Sample>, track: seq<Sample>, s: nat, chunk: Chunk, rest: seq<int>, chunks: seq<Chunk>)
    requires s + |chunk| <= |track| && Holds(out, Write(track, s, chunk), rest, chunks)
    requires forall i | 0 <= i < |rest| :: s + |chunk| <= rest[i]
    ensures |out| == |track| && out[s..s + |chunk|] == chunk
  {
    hide Uncovered, Write;
    WriteLength(track, s, chunk);
    forall p | s <= p < s + |chunk| ensures out[p] == chunk[p - s] {
      UncoveredTail(s, chunk, rest, chunks, p);
      WriteReads(track, s, chunk, p);
    }
  }

  /** Chunks without samples leave the track as it was. */
  lemma {:induction false} EmptyChunks(track: seq<Sample>, chunks: seq<Chunk>, times: seq<real>, next: Option<int>)
    requires Timed(chunks, times) && (next.Some? ==> next.value >= 0) && forall i | 0 <= i < |chunks| :: chunks[i] == []
    ensures Assembled(track, chunks, times, next) == track
    decreases |chunks|
  {
    if chunks != [] {
      var start := Start(next, chunks[0], times[0]);
      StartAbove(next, chunks[0], times[0]);
      if start >= |track| {
        EmptyChunks(track, chunks[1..], times[1..], next);
      } else {
        assert Write(track, start, chunks[0]) == track;
        EmptyChunks(track, chunks[1..], times[1..], Some(start));
      }
    }
  }

  lemma HoldsEmpty(track: seq<Sample>, starts: seq<int>, chunks: seq<Chunk>)
    requires |starts| == |chunks| && forall i | 0 <= i < |chunks| :: 0 <= starts[i] <= |track| && chunks[i] == []
    ensures Holds(track, track, starts, chunks)
  {
    forall i | 0 <= i < |chunks| ensures track[starts[i]..starts[i] + |chunks[i]|] == chunks[i] {
      assert track[starts[i]..starts[i]] == [];
    }
  }

  ghost predicate Fits(starts: seq<int>, chunks: seq<Chunk>, length: nat) {
    |starts| == |chunks| && forall i | 0 <= i < |starts| :: starts[i] + |chunks[i]| <= length
  }

  lemma {:induction false} AssembledHolds(track: seq<Sample>, chunks: seq<Chunk>, times: seq<real>, next: Option<int>)
    requires Timed(chunks, times) && (next.Some? ==> next.value >= 0)
    requires Fits(Starts(chunks, times, next), chunks, |track|)
    ensures Holds(Assembled(track, chunks, times, next), track, Starts(chunks, times, next), chunks)
    decreases |chunks|
  {
    hide Holds, Start, Write;
    StartsAscend(chunks, times, next);
    var starts := Starts(chunks, times, next);
    if chunks == [] {
      HoldsEmpty(track, starts, chunks);
    } else if starts[0] < |track| {
      var s := starts[0];
      var end := s + |chunks[0]|;
      var written := Write(track, s, chunks[0]);
      WriteLength(track, s, chunks[0]);
      assert starts[1..] == Starts(chunks[1..], times[1..], Some(end));
      AssembledHolds(written, chunks[1..], times[1..], Some(end));
      HoldsCons(Assembled(track, chunks, times, next), track, s, chunks[0], starts[1..], chunks[1..]);
      assert [s] + starts[1..] == starts && [chunks[0]] + chunks[1..] == chunks;
    } else {
      EmptyChunks(track, chunks, times, next);
      HoldsEmpty(track, starts, chunks);
    }
  }

  /** With a track as long as the sizing pass says, the assembling pass puts every chunk, whole, where the sizing
      pass placed it: the places follow one another without overlap, and everything else is silence. */
  lemma LateOutputPreserved(chunks: seq<Chunk>, times: seq<real>, length: nat)
    requires Timed(chunks, times) && length >= PackedEnd(chunks, times, None, 0)
    ensures var starts := Starts(chunks, times, None);
            && |starts| == |chunks| && Ascending(starts, chunks, 0)
            && Holds(Assembled(Silence(length), chunks, times, None), Silence(length), starts, chunks)
  {
    StartsAscend(chunks, times, None);
    PackedEndCovers(chunks, times, None, 0);
    var starts := Starts(chunks, times, None);
    forall i | 0 <= i < |chunks| ensures starts[i] + |chunks[i]| <= length {
      assert i < |chunks| - 1 ==> starts[i] + |chunks[i]| <= starts[|chunks| - 1];
    }
    AssembledHolds(Silence(length), chunks, times, None);
  }

  // ----- A track that is cut at the end of the input -----

  /** All these chunks start at `n` or later, if each of them were next. */
  ghost predicate AllLate(n: nat, chunks: seq<Chunk>, times: seq<real>, next: Option<int>)
    requires |chunks| == |times|
  {
    forall k | 0 <= k < |chunks| :: Start(next, chunks[k], times[k]) >= n
  }

  /** Once a chunk starts behind the first `n` samples, no later one would start within them in its stead. */
  ghost predicate LateStaysLate(n: nat, chunks: seq<Chunk>, times: seq<real>, next: Option<int>)
    requires |chunks| == |times|
    decreases |chunks|
  {
    chunks == [] ||
      var start := Start(next, chunks[0], times[0]);
      if start >= n then AllLate(n, chunks, times, next)
      else start + |chunks[0]| >= n || LateStaysLate(n, chunks[1..], times[1..], Some(start + |chunks[0]|))
  }

  lemma AssembledNext(track: seq<Sample>, chunks: seq<Chunk>, times: seq<real>, next: Option<int>)
    requires Schedules(chunks, times, next) && chunks != []
    ensures var start := Start(next, chunks[0], times[0]);
            && start >= 0
            && Assembled(track, chunks, times, next) ==
                 if start >= |track| then Assembled(track, chunks[1..], times[1..], next)
                 else Assembled(Write(track, start, chunks[0]), chunks[1..], times[1..],
                                Some(EndOn(track, start, chunks[0])))
  {
    hide Start, Write;
    StartAbove(next, chunks[0], times[0]);
  }

  lemma {:induction false} LateLeavesAlone(
    n: nat, track: seq<Sample>, chunks: seq<Chunk>, times: seq<real>, next: Option<int>)
    requires Schedules(chunks, times, next) && n <= |track| && AllLate(n, chunks, times, next)
    ensures |Assembled(track, chunks, times, next)| == |track|
    ensures Assembled(track, chunks, times, next)[..n] == track[..n]
    decreases |chunks|
  {
    if chunks != [] {
      hide Start, Write, Assembled;
      AssembledNext(track, chunks, times, next);
      var start := Start(next, chunks[0], times[0]);
      if start >= |track| {
        LateLeavesAlone(n, track, chunks[1..], times[1..], next);
      } else {
        AllAfter(n, chunks[1..], times[1..], EndOn(track, start, chunks[0]));
        WriteBehind(track, start, chunks[0], n);
        LateLeavesAlone(n, Write(track, start, chunks[0]), chunks[1..], times[1..],
                        Some(EndOn(track, start, chunks[0])));
      }
    }
  }

  lemma WriteBehind(track: seq<Sample>, start: nat, chunk: Chunk, n: nat)
    requires n <= start <= |track|
    ensures |Write(track, start, chunk)| == |track| && Write(track, start, chunk)[..n] == track[..n]
  {
  }

  lemma WriteBoth(short: seq<Sample>, long: seq<Sample>, start: nat, chunk: Chunk)
    requires start < |short| <= |long| && long[..|short|] == short
    ensures |Write(short, start, chunk)| == |short| && |Write(long, start, chunk)| == |long|
    ensures Write(long, start, chunk)[..|short|] == Write(short, start, chunk)
  {
    var s, l := Write(short, start, chunk), Write(long, start, chunk);
    forall p | 0 <= p < |short| ensures l[p] == s[p] {
      assert long[..|short|][p] == long[p];
    }
  }

  lemma LateLeavesAll(track: seq<Sample>, chunks: seq<Chunk>, times: seq<real>, next: Option<int>)
    requires Schedules(chunks, times, next) && AllLate(|track|, chunks, times, next)
    ensures Assembled(track, chunks, times, next) == track
  {
    hide Assembled, Start;
    LateLeavesAlone(|track|, track, chunks, times, next);
    assert track[..|track|] == track;
    var out := Assembled(track, chunks, times, next);
    assert out[..|track|] == out;
  }

  lemma AllAfter(n: nat, chunks: seq<Chunk>, times: seq<real>, end: int)
    requires Schedules(chunks, times, None) && end >= n
    ensures AllLate(n, chunks, times, Some(end))
  {
    hide Start;
    forall k | 0 <= k < |chunks| ensures Start(Some(end), chunks[k], times[k]) >= n {
      StartAbove(Some(end), chunks[k], times[k]);
    }
  }

  /** A track that is cut at the end of the input is the beginning of the longer one, unless a chunk takes the place of
      an earlier one that comes too late for the cut track. */
  lemma {:induction false} CutTrackIsPrefix(
    short: seq<Sample>, long: seq<Sample>, chunks: seq<Chunk>, times: seq<real>, next: Option<int>)
    requires Schedules(chunks, times, next) && |short| <= |long| && long[..|short|] == short
    requires LateStaysLate(|short|, chunks, times, next)
    ensures |Assembled(long, chunks, times, next)| == |long|
    ensures Assembled(long, chunks, times, next)[..|short|] == Assembled(short, chunks, times, next)
    decreases |chunks|
  {
    if chunks == [] {
      return;
    }
    hide Start, Write, Assembled, AllLate, LateStaysLate, Schedules;
    CutNext(|short|, chunks, times, next);
    var start := Start(next, chunks[0], times[0]);
    AssembledNext(short, chunks, times, next);
    AssembledNext(long, chunks, times, next);
    if start >= |short| {
      LateLeavesAll(short, chunks, times, next);
      LateLeavesAlone(|short|, long, chunks, times, next);
    } else {
      WriteBoth(short, long, start, chunks[0]);
      var short', long' := Write(short, start, chunks[0]), Write(long, start, chunks[0]);
      if start + |chunks[0]| >= |short| {
        BothFull(short', long', chunks[1..], times[1..], EndOn(long, start, chunks[0]));
      } else {
        CutTrackIsPrefix(short', long', chunks[1..], times[1..], Some(start + |chunks[0]|));
      }
    }
  }

  /** Once the cut track is full nothing changes it, nor that part of the longer one. */
  lemma BothFull(short: seq<Sample>, long: seq<Sample>, chunks: seq<Chunk>, times: seq<real>, end: int)
    requires Schedules(chunks, times, None) && |short| <= end && |short| <= |long| && long[..|short|] == short
    ensures Assembled(short, chunks, times, Some(|short|)) == short
    ensures |Assembled(long, chunks, times, Some(end))| == |long|
    ensures Assembled(long, chunks, times, Some(end))[..|short|] == short
  {
    hide Start, Assembled, AllLate;
    AllAfter(|short|, chunks, times, |short|);
    LateLeavesAll(short, chunks, times, Some(|short|));
    AllAfter(|short|, chunks, times, end);
    LateLeavesAlone(|short|, long, chunks, times, Some(end));
  }

  /** Where the chunks start on a track of `n` samples; nowhere if they come too late for it. */
  function CutPlaces(n: nat, chunks: seq<Chunk>, times: seq<real>, next: Option<int>): seq<Option<int>>
    requires |chunks| == |times|
  {
    if chunks == [] then []
    else
      var start := Start(next, chunks[0], times[0]);
      if start >= n then [None] + CutPlaces(n, chunks[1..], times[1..], next)
      else
        var end := if start + |chunks[0]| < n then start + |chunks[0]| else n;
        [Some(start)] + CutPlaces(n, chunks[1..], times[1..], Some(end))
  }

  /** The places within the first `n` samples. */
  function Within(n: nat, starts: seq<int>): seq<Option<int>> {
    seq(|starts|, k requires 0 <= k < |starts| => if starts[k] < n then Some(starts[k]) else None)
  }

  function Nowhere(k: nat): seq<Option<int>> {
    seq(k, _ => None)
  }

  lemma {:induction false} NowhereIfLate(n: nat, chunks: seq<Chunk>, times: seq<real>, next: Option<int>)
    requires |chunks| == |times|
    ensures CutPlaces(n, chunks, times, next) == Nowhere(|chunks|) <==> AllLate(n, chunks, times, next)
  {
    if chunks != [] {
      hide Start;
      NowhereIfLate(n, chunks[1..], times[1..], next);
      var start := Start(next, chunks[0], times[0]);
      assert CutPlaces(n, chunks, times, next)[0] == if start >= n then None else Some(start);
      assert Nowhere(|chunks|) == [None] + Nowhere(|chunks| - 1);
      if start >= n {
        var rest := CutPlaces(n, chunks[1..], times[1..], next);
        assert CutPlaces(n, chunks, times, next)[1..] == rest && Nowhere(|chunks|)[1..] == Nowhere(|chunks| - 1);
        LateCons(n, chunks, times, next);
      } else {
        assert Nowhere(|chunks|)[0] == None;
      }
    }
  }

  lemma LateCons(n: nat, chunks: seq<Chunk>, times: seq<real>, next: Option<int>)
    requires |chunks| == |times| && chunks != []
    ensures AllLate(n, chunks, times, next) <==>
      Start(next, chunks[0], times[0]) >= n && AllLate(n, chunks[1..], times[1..], next)
  {
    hide Start;
    if AllLate(n, chunks, times, next) {
      forall k | 0 <= k < |chunks[1..]| ensures Start(next, chunks[1..][k], times[1..][k]) >= n {
        assert Start(next, chunks[k + 1], times[k + 1]) >= n;
      }
    } else {
      var k :| 0 <= k < |chunks| && Start(next, chunks[k], times[k]) < n;
      assert k > 0 ==> chunks[1..][k - 1] == chunks[k] && times[1..][k - 1] == times[k];
    }
  }

  lemma {:induction false} BehindIsNowhere(n: nat, chunks: seq<Chunk>, times: seq<real>, end: int)
    requires Schedules(chunks, times, None) && end >= n
    ensures Within(n, Starts(chunks, times, Some(end))) == Nowhere(|chunks|)
  {
    if chunks != [] {
      var start := Start(Some(end), chunks[0], times[0]);
      StartAbove(Some(end), chunks[0], times[0]);
      BehindIsNowhere(n, chunks[1..], times[1..], start + |chunks[0]|);
      WithinCons(n, start, Starts(chunks[1..], times[1..], Some(start + |chunks[0]|)));
      assert Nowhere(|chunks|) == [None] + Nowhere(|chunks| - 1);
    }
  }

  lemma WithinCons(n: nat, start: int, starts: seq<int>)
    ensures Within(n, [start] + starts) == [if start < n then Some(start) else None] + Within(n, starts)
  {
  }

  lemma CutNext(n: nat, chunks: seq<Chunk>, times: seq<real>, next: Option<int>)
    requires Schedules(chunks, times, next) && chunks != []
    ensures var start := Start(next, chunks[0], times[0]); var end := start + |chunks[0]|;
            && end >= start >= 0 && |chunks| == |times|
            && Schedules(chunks[1..], times[1..], None) && Schedules(chunks[1..], times[1..], Some(end))
            && Starts(chunks, times, next) == [start] + Starts(chunks[1..], times[1..], Some(end))
            && CutPlaces(n, chunks, times, next) ==
                 (if start >= n then [None] + CutPlaces(n, chunks[1..], times[1..], next)
                  else [Some(start)] + CutPlaces(n, chunks[1..], times[1..], Some(if end < n then end else n)))
            && (LateStaysLate(n, chunks, times, next) <==>
                  if start >= n then AllLate(n, chunks, times, next)
                  else end >= n || LateStaysLate(n, chunks[1..], times[1..], Some(end)))
  {
    hide Start, AllLate;
    StartAbove(next, chunks[0], times[0]);
  }

  /** Behind a chunk that comes too late everything has to come too late. */
  lemma CutAtLate(n: nat, chunks: seq<Chunk>, times: seq<real>, next: Option<int>, end: int)
    requires Schedules(chunks, times, None) && end >= n
    ensures [None] + CutPlaces(n, chunks, times, next) == [None] + Within(n, Starts(chunks, times, Some(end))) <==>
      AllLate(n, chunks, times, next)
  {
    hide *;
    SchedulesSize(chunks, times);
    BehindIsNowhere(n, chunks, times, end);
    NowhereIfLate(n, chunks, times, next);
    SameTail([None], CutPlaces(n, chunks, times, next), Nowhere(|chunks|));
  }

  lemma SchedulesSize(chunks: seq<Chunk>, times: seq<real>)
    requires Schedules(chunks, times, None)
    ensures |chunks| == |times|
  {
  }

  /** Behind a chunk that fills the track everything comes too late. */
  lemma CutAtFull(n: nat, chunks: seq<Chunk>, times: seq<real>, start: int, end: int)
    requires Schedules(chunks, times, None) && end >= n
    ensures |chunks| == |times|
    ensures [Some(start)] + CutPlaces(n, chunks, times, Some(n)) ==
      [Some(start)] + Within(n, Starts(chunks, times, Some(end)))
  {
    hide *;
    SchedulesSize(chunks, times);
    BehindIsNowhere(n, chunks, times, end);
    AllAfter(n, chunks, times, n);
    NowhereIfLate(n, chunks, times, Some(n));
  }

  /** The cut track has each chunk where the whole track has it, as far as that is within it, exactly if late chunks
      stay late. */
  lemma {:induction false} CutTrackExactly(n: nat, chunks: seq<Chunk>, times: seq<real>, next: Option<int>)
    requires Schedules(chunks, times, next)
    ensures CutPlaces(n, chunks, times, next) == Within(n, Starts(chunks, times, next)) <==>
      LateStaysLate(n, chunks, times, next)
  {
    if chunks == [] {
      return;
    }
    hide Start, AllLate, Within, CutPlaces, Starts, LateStaysLate, Schedules;
    CutNext(n, chunks, times, next);
    var start, rest, restTimes := Start(next, chunks[0], times[0]), chunks[1..], times[1..];
    var end := start + |chunks[0]|;
    WithinCons(n, start, Starts(rest, restTimes, Some(end)));
    if start >= n {
      CutAtLate(n, rest, restTimes, next, end);
      LateCons(n, chunks, times, next);
    } else if end >= n {
      CutAtFull(n, rest, restTimes, start, end);
    } else {
      CutTrackExactly(n, rest, restTimes, Some(end));
      SameTail([Some(start)], CutPlaces(n, rest, restTimes, Some(end)), Within(n, Starts(rest, restTimes, Some(end))));
    }
  }

  lemma SameTail(head: seq<Option<int>>, a: seq<Option<int>>, b: seq<Option<int>>)
    ensures head + a == head + b <==> a == b
  {
    if head + a == head + b {
      assert (head + a)[|head|..] == a && (head + b)[|head|..] == b;
    }
  }

  lemma StartsOf(chunk: Chunk)
    requires |chunk| >= 14
    ensures Start(None, [1], 0.0) == 0 && Start(Some(1), [2], 20.0) == 20 && Start(Some(21), chunk, 21.0) == 21
    ensures Start(Some(1), chunk, 21.0) == 1
  {
  }

  /** It happens: of a short chunk that comes late and a longer one directly after it, the cut track drops the first and
      has the second directly after the chunk before, long before it came. */
  lemma LateChunkMovesForward(chunk: Chunk)
    requires |chunk| >= 14
    ensures var chunks: seq<Chunk>, times := [[1], [2], chunk], [0.0, 20.0, 21.0];
            && Starts(chunks, times, None) == [0, 20, 21]
            && Assembled(Silence(10), chunks, times, None) == [1] + chunk[..9]
  {
    var chunks: seq<Chunk>, times := [[1], [2], chunk], [0.0, 20.0, 21.0];
    assert chunks[1..] == [[2], chunk] && times[1..] == [20.0, 21.0];
    assert chunks[1..][1..] == [chunk] && times[1..][1..] == [21.0];
    StartsOf(chunk);
    ghost var written := Write(Silence(10), 0, [1]);
    AssembledNext(Silence(10), chunks, times, None);
    AssembledNext(written, [[2], chunk], [20.0, 21.0], Some(1));
    AssembledNext(written, [chunk], [21.0], Some(1));
    assert Write(written, 1, chunk) == [1] + chunk[..9];
    hide Start, Write;
    assert Starts([chunk], [21.0], Some(21)) == [21];
  }
}
