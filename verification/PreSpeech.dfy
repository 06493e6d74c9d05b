/** Buffering of the user's audio (src/examples/omni_assistant/nvidia_omni_multimodal_service.py): a rolling
    window of what was heard before the user spoke, and the audio of the utterance itself. */
module PreSpeech {
  import opened Wrappers

  type Chunk = seq<bv8>

  function Joined(chunks: seq<Chunk>): Chunk {
    if chunks == [] then [] else chunks[0] + Joined(chunks[1..])
  }

  function Bytes(chunks: seq<Chunk>): nat {
    if chunks == [] then 0 else |chunks[0]| + Bytes(chunks[1..])
  }

  /** Python's `int()` of a number. */
  function Truncate(x: real): int {
    if x >= 0.0 then x.Floor else -(-x).Floor
  }

  datatype Format = Format(rate: int, channels: int)

  /** How many bytes of 16-bit audio the given time takes. */
  function BytesFor(format: Format, secs: real): int {
    var perSecond := if format.rate * format.channels * 2 > 1 then format.rate * format.channels * 2 else 1;
    Truncate(perSecond as real * secs)
  }

  lemma {:induction false} BytesAppend(s: seq<Chunk>, c: Chunk)
    ensures Bytes(s + [c]) == Bytes(s) + |c|
  {
    if s == [] {
      assert s + [c] == [c];
    } else {
      assert (s + [c])[1..] == s[1..] + [c];
      BytesAppend(s[1..], c);
    }
  }

  /** Joining keeps every byte, chunk after chunk: byte `i` of chunk `k` stands behind all bytes of earlier chunks. */
  lemma {:induction false} JoinedBytes(chunks: seq<Chunk>)
    ensures |Joined(chunks)| == Bytes(chunks)
    ensures InPlace(Joined(chunks), chunks)
  {
    if chunks != [] {
      JoinedBytes(chunks[1..]);
      InPlaceCons(Joined(chunks[1..]), chunks);
    }
  }

  lemma InPlaceCons(rest: Chunk, chunks: seq<Chunk>)
    requires chunks != [] && InPlace(rest, chunks[1..])
    ensures InPlace(chunks[0] + rest, chunks)
  {
    hide Bytes;
    forall k, i | 0 <= k < |chunks| && 0 <= i < |chunks[k]|
      ensures Bytes(chunks[..k]) + i < |chunks[0] + rest| && (chunks[0] + rest)[Bytes(chunks[..k]) + i] == chunks[k][i]
    {
      BytesBefore(chunks, k);
      if k > 0 {
        assert chunks[1..][k - 1] == chunks[k] && chunks[1..][k - 1][i] == chunks[k][i];
        assert rest[Bytes(chunks[1..][..k - 1]) + i] == chunks[k][i];
      }
    }
  }

  lemma BytesBefore(chunks: seq<Chunk>, k: nat)
    requires k < |chunks|
    ensures Bytes(chunks[..k]) == if k == 0 then 0 else |chunks[0]| + Bytes(chunks[1..][..k - 1])
  {
    if k > 0 {
      assert chunks[..k][1..] == chunks[1..][..k - 1];
    }
  }

  /** The bytes of the chunks stand one after the other. */
  ghost predicate InPlace(joined: Chunk, chunks: seq<Chunk>) {
    forall k, i | 0 <= k < |chunks| && 0 <= i < |chunks[k]| ::
      Bytes(chunks[..k]) + i < |joined| && joined[Bytes(chunks[..k]) + i] == chunks[k][i]
  }

  /** The bytes of 16-bit audio that last as long as given, the last incomplete one not counted; a format without rate
      or channels counts as a byte a second. */
  lemma BytesForLasts(format: Format, secs: real)
    requires secs >= 0.0
    ensures var perSecond := if format.rate * format.channels > 0 then format.rate * format.channels * 2 else 1;
            BytesFor(format, secs) as real <= perSecond as real * secs < BytesFor(format, secs) as real + 1.0
  {
    var twice := format.rate * format.channels * 2;
    var perSecond := if twice > 1 then twice else 1;
    assert twice == 2 * (format.rate * format.channels);
    TimesSecs(perSecond as real, secs);
  }

  lemma TimesSecs(perSecond: real, secs: real)
    requires perSecond >= 0.0 && secs >= 0.0
    ensures perSecond * secs >= 0.0
  {
  }

  // ----- The rolling window -----

  /** The chunks left after dropping from the front until at most `window` bytes, or nothing, remain. */
  function Fit(s: seq<Chunk>, window: int): seq<Chunk> {
    if s == [] || Bytes(s) <= window then s else Fit(s[1..], window)
  }

  /** It is the longest suffix that fits. */
  lemma {:induction false} FitIsLongest(s: seq<Chunk>, window: int) returns (k: nat)
    ensures k <= |s| && Fit(s, window) == s[k..]
    ensures s[k..] == [] || Bytes(s[k..]) <= window
    ensures forall j | 0 <= j < k :: Bytes(s[j..]) > window
  {
    if s == [] || Bytes(s) <= window {
      k := 0;
    } else {
      var k' := FitIsLongest(s[1..], window);
      k := k' + 1;
      assert s[1..][k'..] == s[k..];
      forall j | 0 <= j < k ensures Bytes(s[j..]) > window {
        if j == 0 {
          assert s[0..] == s;
        } else {
          assert s[1..][j - 1..] == s[j..];
        }
      }
    }
  }

  /** Dropping before or after one more chunk arrives makes no difference. */
  lemma {:induction false} FitAgain(s: seq<Chunk>, c: Chunk, window: int)
    ensures Fit(Fit(s, window) + [c], window) == Fit(s + [c], window)
  {
    if s != [] && Bytes(s) > window {
      BytesAppend(s, c);
      assert (s + [c])[1..] == s[1..] + [c];
      FitAgain(s[1..], c, window);
    }
  }

  /** A chunk that arrived outside speech, and the window its format gave. */
  datatype Heard = Heard(chunk: Chunk, window: int)

  function ChunksOf(hs: seq<Heard>): seq<Chunk> {
    seq(|hs|, k requires 0 <= k < |hs| => hs[k].chunk)
  }

  /** The buffer after the given arrivals. */
  function Rolling(hs: seq<Heard>): seq<Chunk> {
    if hs == [] then []
    else
      var h := hs[|hs| - 1];
      Fit(Rolling(hs[..|hs| - 1]) + [h.chunk], h.window)
  }

  lemma ChunksNext(hs: seq<Heard>, h: Heard)
    ensures ChunksOf(hs + [h]) == ChunksOf(hs) + [h.chunk]
    ensures Rolling(hs + [h]) == Fit(Rolling(hs) + [h.chunk], h.window)
  {
    assert (hs + [h])[..|hs|] == hs;
  }

  /** Whatever the formats, the buffer is a suffix of what arrived. */
  lemma {:induction false} RollingIsSuffix(hs: seq<Heard>) returns (k: nat)
    ensures k <= |ChunksOf(hs)| == |hs| && Rolling(hs) == ChunksOf(hs)[k..]
  {
    if hs == [] {
      k := 0;
    } else {
      hide *;
      var front, h := hs[..|hs| - 1], hs[|hs| - 1];
      var all := ChunksOf(front);
      assert hs == front + [h];
      ChunksNext(front, h);
      var k' := RollingIsSuffix(front);
      var j := FitIsLongest(all[k'..] + [h.chunk], h.window);
      k := k' + j;
      SuffixOfSuffix(all, h.chunk, k', j);
    }
  }

  lemma SuffixOfSuffix(all: seq<Chunk>, c: Chunk, k: nat, j: nat)
    requires k <= |all| && j <= |all| - k + 1
    ensures (all[k..] + [c])[j..] == (all + [c])[k + j..]
  {
  }

  /** While the window stays the same, the buffer is the longest suffix of everything heard that fits it. */
  lemma {:induction false} RollingIsLongestSuffix(hs: seq<Heard>, window: int)
    requires forall k | 0 <= k < |hs| :: hs[k].window == window
    ensures Rolling(hs) == Fit(ChunksOf(hs), window)
  {
    if hs != [] {
      var front, h := hs[..|hs| - 1], hs[|hs| - 1];
      RollingIsLongestSuffix(front, window);
      FitAgain(ChunksOf(front), h.chunk, window);
      assert ChunksOf(hs) == ChunksOf(front) + [h.chunk];
    }
  }

  // ----- The service's audio buffers -----

  /** The chunks `received[start..end]` that one audio turn was asked to answer. */
  datatype Span = Span(start: nat, end: nat)

  class AudioBuffers {
    var audioBuffer: seq<Chunk>
    var preSpeech: seq<Chunk>
    var userSpeaking: bool
    var botResponding: bool
    var format: Format

    /** Every chunk that arrived while audio input was configured. */
    ghost var received: seq<Chunk>
    /** What arrived outside speech since the last reset, and where the reset falls in `received`. */
    ghost var heard: seq<Heard>
    ghost var resetAt: nat
    /** Where the utterance in progress starts in `received`. */
    ghost var turnStart: nat
    /** The stretches of `received` that became audio turns. */
    ghost var answered: seq<Span>

    ghost predicate Valid()
      reads this
    {
      && resetAt <= |received|
      && preSpeech == Rolling(heard)
      && (userSpeaking ==>
            turnStart <= |received| && audioBuffer == received[turnStart..] && heard == [] &&
              After(answered, turnStart))
      && (!userSpeaking ==> ChunksOf(heard) == received[resetAt..] && After(answered, resetAt))
      && Disjoint(answered)
    }

    static ghost predicate After(spans: seq<Span>, at: nat) {
      forall k | 0 <= k < |spans| :: spans[k].end <= at
    }

    static ghost predicate Disjoint(spans: seq<Span>) {
      && (forall k | 0 <= k < |spans| :: spans[k].start <= spans[k].end)
      && (forall j, k | 0 <= j < k < |spans| :: spans[j].end <= spans[k].start)
    }

    /** Before speech, and while the window stays the same, the buffer is the longest suffix that fits the window
        of everything that arrived since the last reset. */
    lemma BufferIsLongestSuffix(window: int) returns (k: nat)
      requires Valid() && !userSpeaking && forall j | 0 <= j < |heard| :: heard[j].window == window
      ensures resetAt <= k <= |received| && preSpeech == received[k..]
      ensures preSpeech == [] || Bytes(preSpeech) <= window
      ensures forall j | resetAt <= j < k :: Bytes(received[j..]) > window
    {
      RollingIsLongestSuffix(heard, window);
      var since := received[resetAt..];
      var i := FitIsLongest(since, window);
      k := resetAt + i;
      assert since[i..] == received[k..];
      forall j | resetAt <= j < k ensures Bytes(received[j..]) > window {
        assert since[j - resetAt..] == received[j..];
      }
    }

    constructor (f: Format)
      ensures Valid() && received == [] && answered == []
    {
      audioBuffer, preSpeech, userSpeaking, botResponding, format := [], [], false, false, f;
      received, heard, resetAt, turnStart, answered := [], [], 0, 0, [];
    }

    method ResetAudioState()
      requires Valid()
      modifies this
      ensures Valid() && !userSpeaking && !botResponding && audioBuffer == [] && preSpeech == []
      ensures received == old(received) && answered == old(answered) && resetAt == |received|
    {
      assert userSpeaking ==> After(answered, |received|);
      audioBuffer, preSpeech, userSpeaking, botResponding := [], [], false, false;
      heard, resetAt := [], |received|;
    }

    method Interruption()
      requires Valid()
      modifies this
      ensures Valid() && !botResponding && userSpeaking == old(userSpeaking)
      ensures received == old(received) && answered == old(answered)
      ensures if userSpeaking then audioBuffer == old(audioBuffer) && turnStart == old(turnStart)
              else audioBuffer == [] && preSpeech == [] && resetAt == |received|
    {
      botResponding := false;
      if !userSpeaking {
        audioBuffer := [];
        preSpeech := [];
        heard, resetAt := [], |received|;
      }
    }

    method BotSpeaking(started: bool)
      requires Valid()
      modifies this`botResponding
      ensures Valid() && botResponding == started
    {
      botResponding := started;
    }

    /** `_handle_user_started`: the utterance starts with the window, and goes on from there. */
    method UserStarted(audioEnabled: bool)
      requires Valid()
      modifies this
      ensures Valid() && received == old(received) && answered == old(answered)
      ensures userSpeaking == (old(userSpeaking) || audioEnabled)
      ensures botResponding == (old(botResponding) && (old(userSpeaking) || !audioEnabled))
      ensures !old(userSpeaking) && audioEnabled ==>
        audioBuffer == old(preSpeech) && preSpeech == [] && turnStart == |received| - |old(preSpeech)|
      ensures old(userSpeaking) || !audioEnabled ==>
        audioBuffer == old(audioBuffer) && preSpeech == old(preSpeech) && turnStart == old(turnStart)
    {
      if userSpeaking || !audioEnabled {
        return;
      }
      if botResponding {
        botResponding := false;
      }
      ghost var k := RollingIsSuffix(heard);
      assert received[resetAt..][k..] == received[resetAt + k..];
      userSpeaking := true;
      audioBuffer := preSpeech;
      preSpeech := [];
      turnStart := resetAt + k;
      heard := [];
    }

    /** `_handle_audio_frame`. */
    method AudioFrame(chunk: Chunk, f: Format, audioEnabled: bool, preSpeechSecs: real)
      requires Valid()
      modifies this
      ensures Valid() && format == f && userSpeaking == old(userSpeaking) && answered == old(answered)
      ensures received == if audioEnabled then old(received) + [chunk] else old(received)
      ensures turnStart == old(turnStart) && resetAt == old(resetAt)
      ensures heard ==
        if audioEnabled && !userSpeaking then old(heard) + [Heard(chunk, BytesFor(f, preSpeechSecs))] else old(heard)
    {
      hide Rolling, ChunksOf, BytesFor, Fit, Disjoint, After;
      format := f;
      if !audioEnabled {
        return;
      }
      received := received + [chunk];
      if userSpeaking {
        audioBuffer := audioBuffer + [chunk];
        assert received[turnStart..] == old(received[turnStart..]) + [chunk];
      } else {
        var window := BytesFor(f, preSpeechSecs);
        AppendPreSpeech(chunk, window);
        heard := heard + [Heard(chunk, window)];
        ChunksNext(old(heard), Heard(chunk, window));
        assert received[resetAt..] == old(received[resetAt..]) + [chunk];
      }
    }

    static method TotalBytes(chunks: seq<Chunk>) returns (total: nat)
      ensures total == Bytes(chunks)
    {
      total := 0;
      for i := 0 to |chunks|
        invariant total == Bytes(chunks[..i])
      {
        assert chunks[..i + 1] == chunks[..i] + [chunks[i]];
        BytesAppend(chunks[..i], chunks[i]);
        total := total + |chunks[i]|;
      }
      assert chunks[..|chunks|] == chunks;
    }

    /** `_append_pre_speech_audio`. */
    method AppendPreSpeech(chunk: Chunk, window: int)
      modifies this`preSpeech
      ensures preSpeech == Fit(old(preSpeech) + [chunk], window)
    {
      preSpeech := preSpeech + [chunk];
      var total := TotalBytes(preSpeech);
      while preSpeech != [] && total > window
        invariant total == Bytes(preSpeech)
        invariant Fit(preSpeech, window) == Fit(old(preSpeech) + [chunk], window)
        decreases |preSpeech|
      {
        total := total - |preSpeech[0]|;
        preSpeech := preSpeech[1..];
      }
    }

    /** `_handle_user_stopped` with the start of `_maybe_run_audio_turn`: the audio sent, if the turn is answered,
        is a gap-free run of the received stream up to now, and no turn repeats a chunk of an earlier one. */
    method UserStopped(minUserAudioSecs: real) returns (payload: Option<Chunk>)
      requires Valid()
      modifies this
      ensures Valid() && !userSpeaking && received == old(received) && botResponding == old(botResponding)
      ensures payload.Some? ==> old(userSpeaking) && !botResponding
      ensures payload.Some? ==> payload.value == Joined(received[old(turnStart)..])
      ensures payload.Some? ==>
        var chunks := received[old(turnStart)..]; |payload.value| == Bytes(chunks) && InPlace(payload.value, chunks)
      ensures payload.Some? ==> answered == old(answered) + [Span(old(turnStart), |received|)]
      ensures payload.None? ==> answered == old(answered)
      ensures old(userSpeaking) && !botResponding ==>
        var joined := Joined(received[old(turnStart)..]);
        payload.Some? == (joined != [] && |joined| >= BytesFor(old(format), minUserAudioSecs))
    {
      if !userSpeaking {
        return None;
      }
      userSpeaking := false;
      heard, resetAt := [], |received|;
      if botResponding {
        return None;
      }
      var joined := Joined(audioBuffer);
      JoinedBytes(audioBuffer);
      audioBuffer := [];
      preSpeech := [];
      if joined == [] {
        return None;
      }
      if |joined| < BytesFor(format, minUserAudioSecs) {
        return None;
      }
      answered := answered + [Span(turnStart, |received|)];
      payload := Some(joined);
    }
  }
}
