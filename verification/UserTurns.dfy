/** What the client is told of the user's speech, exactly: the events of every run are those of a small machine that
    is fed the turn frames and a clock read off the audio received so far. */
module UserTurns {
  import opened Wrappers
  import opened Conversation
  import opened Lifecycle
  import opened Observer
  import opened Serializer
  import opened Protocol
  import opened UserItems

  // ----- The clock -----

  /** The bytes of 16-bit audio that an input adds: at most a minute of it at 16 kHz. */
  function BytesIn(i: Input): nat {
    match i
    case Received(AudioAppend(Success(bytes))) => if bytes <= 60 * 16000 * 2 then bytes else 0
    case _ => 0
  }

  function SamplesIn(i: Input): nat {
    BytesIn(i) / 2
  }

  function SamplesReceived(ins: seq<Input>): nat {
    if ins == [] then 0 else SamplesReceived(ins[..|ins| - 1]) + SamplesIn(ins[|ins| - 1])
  }

  /** The milliseconds of audio received so far. */
  function Reading(rate: nat, ins: seq<Input>): nat {
    SamplesReceived(ins) * 1000 / Max(rate, 1)
  }

  // ----- The user's turn -----

  /** Where the user's turn is: nothing known; only a transcript known; speaking since `startMs`, perhaps with a text
      already; or ended without one. */
  datatype Phase =
    | Quiet
    | Named(item: Id, text: string)
    | Speaking(item: Id, startMs: nat, waiting: Option<string>)
    | Ended(item: Id)

  /** What a turn frame makes of the turn, and what the client is told: `now` is the clock, `next` a new id. */
  function Turned(p: Phase, f: Frame, next: Id, now: nat): (Phase, seq<Event>) {
    match f
    case UserStartedSpeaking => Starts(p, next, now)
    case UserStoppedSpeaking => Stops(p, next, now)
    case InterimTranscription(text) =>
      (p, if p.Speaking? then [InputTranscriptDelta(p.item, text)] else [])
    case Transcription(text) => (
      match p
      case Quiet => (Named(next, text), [])
      case Named(item, _) => (Named(item, text), [])
      case Speaking(item, startMs, _) => (Speaking(item, startMs, Some(text)), [])
      case Ended(item) => (Quiet, [InputTranscriptCompleted(item, text)]))
    case _ => (p, [])
  }

  /** A turn starts once; starting it again repeats when it started. */
  function Starts(p: Phase, next: Id, now: nat): (Phase, seq<Event>) {
    match p
    case Speaking(item, startMs, _) => (p, [SpeechStarted(item, startMs)])
    case Named(item, _) => (Speaking(item, now, None), [SpeechStarted(item, now)])
    case _ => (Speaking(next, now, None), [SpeechStarted(next, now)])
  }

  /** The item is created when the turn ends, with the transcript if there is one, which then completes it. */
  function Stops(p: Phase, next: Id, now: nat): (Phase, seq<Event>) {
    match p
    case Quiet => (Ended(next), StopEvents(next, now) + [UserAudioItemCreated(next, "")])
    case Speaking(item, _, None) => (Ended(item), StopEvents(item, now) + [UserAudioItemCreated(item, "")])
    case Ended(item) => (p, StopEvents(item, now))
    case Named(item, text) => (Quiet, StopEvents(item, now) + CreateEvents(item, text))
    case Speaking(item, _, Some(text)) => (Quiet, StopEvents(item, now) + CreateEvents(item, text))
  }

  function StopEvents(item: Id, now: nat): seq<Event> {
    [SpeechStopped(item, now), AudioCommitted(item)]
  }

  function CreateEvents(item: Id, text: string): seq<Event> {
    [UserAudioItemCreated(item, text), InputTranscriptCompleted(item, text)]
  }

  /** Whether an input is a turn frame that is handled. */
  predicate Turns(s: Session, i: Input) {
    i.Pushed? && IsTurnFrame(i.push.frame) && Accepts(s.sys.watch, i.push)
  }

  /** The turn after a run. */
  function PhaseAfter(s0: Session, ins: seq<Input>): Phase {
    if ins == [] then Quiet
    else
      var n := |ins| - 1;
      var s, p := Run(s0, ins[..n]), PhaseAfter(s0, ins[..n]);
      if Turns(s, ins[n])
      then Turned(p, ins[n].push.frame, s.sys.ch.conv.nextId, Reading(s0.pipelineRate, ins[..n])).0 else p
  }

  /** What the client is told of the user's turns in a run. */
  function ToldOfTurns(s0: Session, ins: seq<Input>): seq<Event> {
    if ins == [] then []
    else
      var n := |ins| - 1;
      var s, p := Run(s0, ins[..n]), PhaseAfter(s0, ins[..n]);
      ToldOfTurns(s0, ins[..n]) + if Turns(s, ins[n])
      then Turned(p, ins[n].push.frame, s.sys.ch.conv.nextId, Reading(s0.pipelineRate, ins[..n])).1 else []
  }

  // ----- The fields stand for the phase -----

  ghost predicate StandsFor(conv: Conv, p: Phase) {
    match p
    case Quiet => conv.turn == NO_TURN
    case Named(item, text) => conv.turn == Turn(Some(item), None, None, false, false, Some(text))
    case Speaking(item, startMs, waiting) =>
      && conv.turn.start.Some? && conv.Ms(conv.turn.start.value) == startMs
      && conv.turn == Turn(Some(item), conv.turn.start, None, false, false, waiting)
    case Ended(item) =>
      conv.turn.item == Some(item) && conv.turn.stopped && conv.turn.announced && conv.turn.pending == None
  }

  /** The turn fields, the samples counted and the user events after a run. */
  ghost predicate Tracks(ch: Channel, p: Phase, samples: nat, told: seq<Event>) {
    StandsFor(ch.conv, p) && ch.conv.samples == samples && UserEvents(ch.log) == told
  }

  lemma {:induction false} AllUserEvents(es: seq<Event>)
    requires forall k | 0 <= k < |es| :: IsUserEvent(es[k])
    ensures UserEvents(es) == es
  {
    if es != [] {
      AllUserEvents(es[..|es| - 1]);
      assert es == es[..|es| - 1] + [es[|es| - 1]];
    }
  }

  /** The fields and the log after a turn frame. */
  lemma FrameTurns(s: System, f: Frame, p: Phase)
    requires IsTurnFrame(f) && StandsFor(s.ch.conv, p)
    ensures var ch, ch' := s.ch, Handle(s, f).ch;
            var (p', es) := Turned(p, f, ch.conv.nextId, ch.conv.Ms(ch.conv.samples));
            && StandsFor(ch'.conv, p') && ch'.conv.samples == ch.conv.samples && ch'.log == ch.log + es
            && forall k | 0 <= k < |es| :: IsUserEvent(es[k])
  {
    match f
    case UserStartedSpeaking => StartTurns(s.ch, p);
    case UserStoppedSpeaking => StopTurns(s.ch, p);
    case InterimTranscription(text) => assert s.ch.log + [] == s.ch.log;
    case Transcription(text) => TranscriptTurns(s.ch, p, text);
  }

  lemma StartTurns(ch: Channel, p: Phase)
    requires StandsFor(ch.conv, p)
    ensures var ch' := StartTurn(ch); var (p', es) := Starts(p, ch.conv.nextId, ch.conv.Ms(ch.conv.samples));
            StandsFor(ch'.conv, p') && ch'.conv.samples == ch.conv.samples && ch'.log == ch.log + es
  {
  }

  lemma StopTurns(ch: Channel, p: Phase)
    requires StandsFor(ch.conv, p)
    ensures var ch' := StopTurn(ch); var (p', es) := Stops(p, ch.conv.nextId, ch.conv.Ms(ch.conv.samples));
            StandsFor(ch'.conv, p') && ch'.conv.samples == ch.conv.samples && ch'.log == ch.log + es
  {
    var stops := StopEvents(ch.conv.StopUserTurn().turn.item.value, ch.conv.Ms(ch.conv.samples));
    assert ch.log + stops + [] == ch.log + (stops + []);
  }

  lemma TranscriptTurns(ch: Channel, p: Phase, text: string)
    requires StandsFor(ch.conv, p)
    ensures var ch' := ShowTranscript(ch.(conv := ch.conv.SetUserTranscript(text)));
            var (p', es) := Turned(p, Transcription(text), ch.conv.nextId, 0);
            StandsFor(ch'.conv, p') && ch'.conv.samples == ch.conv.samples && ch'.log == ch.log + es
  {
    assert ch.log + [] == ch.log;
  }

  /** The clock of the conversation is the reading of the audio received. */
  lemma NowIs(conv: Conv, rate: nat, ins: seq<Input>)
    requires ClockRuns(conv, rate) && conv.samples == SamplesReceived(ins)
    ensures conv.Ms(conv.samples) == Reading(rate, ins)
  {
  }

  /** Anything but a turn frame leaves the turn alone, and only received audio moves the clock. */
  lemma OtherTurns(s: Session, i: Input, p: Phase)
    requires !Turns(s, i) && StandsFor(s.sys.ch.conv, p) && ClockRuns(s.sys.ch.conv, s.pipelineRate)
    ensures var ch, ch' := s.sys.ch, Step(s, i).0.sys.ch;
            && StandsFor(ch'.conv, p) && UserEvents(ch'.log) == UserEvents(ch.log)
            && ch'.conv.samples == ch.conv.samples + SamplesIn(i)
  {
    hide Receive, Observe, UserEvents;
    match i
    case Pushed(push) => PushedElsewhere(s.sys, push);
    case Received(message) =>
      if message.AudioAppend? {
        AppendTurns(s, message.pcm, p);
      } else {
        OtherMessageElsewhere(s, message);
      }
    case AudioOut(_, resampled) =>
      var ch := s.sys.ch;
      AnnounceElsewhere(ch);
      if resampled.Some? {
        var said := ch.Announce();
        ElsewhereEmits(said, said.conv, [AudioDelta(said.conv.slot.response, said.conv.slot.item, resampled.value)]);
      }
    case GateOpened =>
  }

  lemma AppendTurns(s: Session, pcm: Result<nat, string>, p: Phase)
    requires StandsFor(s.sys.ch.conv, p) && ClockRuns(s.sys.ch.conv, s.pipelineRate)
    ensures var ch, ch' := s.sys.ch, Receive(s, AudioAppend(pcm)).0.sys.ch;
            && StandsFor(ch'.conv, p) && UserEvents(ch'.log) == UserEvents(ch.log)
            && ch'.conv.samples == ch.conv.samples + SamplesIn(Received(AudioAppend(pcm)))
  {
    hide UserEvents;
    if pcm.Failure? {
      RejectElsewhere(s, pcm.error);
    } else {
      RejectElsewhere(s, "input_buffer_overflow");
    }
  }

  lemma StepTracks(s0: Session, ins: seq<Input>)
    requires ins != []
    requires var s := Run(s0, ins[..|ins| - 1]);
             && UserInv(s.sys.ch, s0.pipelineRate) && s.pipelineRate == s0.pipelineRate
             && Tracks(s.sys.ch, PhaseAfter(s0, ins[..|ins| - 1]), SamplesReceived(ins[..|ins| - 1]),
                       ToldOfTurns(s0, ins[..|ins| - 1]))
    ensures Tracks(Run(s0, ins).sys.ch, PhaseAfter(s0, ins), SamplesReceived(ins), ToldOfTurns(s0, ins))
  {
    hide Step, StandsFor, UserEvents, Turned, ClockRuns, Turns, Reading;
    var n := |ins| - 1;
    var s, i, p := Run(s0, ins[..n]), ins[n], PhaseAfter(s0, ins[..n]);
    if Turns(s, i) {
      FrameSteps(s, i);
      var s' := s.sys.(watch := s.sys.watch.Remember(i.push.id));
      NowIs(s.sys.ch.conv, s0.pipelineRate, ins[..n]);
      FrameTurns(s', i.push.frame, p);
      var es := Turned(p, i.push.frame, s.sys.ch.conv.nextId, Reading(s0.pipelineRate, ins[..n])).1;
      UserEventsAppend(s.sys.ch.log, es);
      AllUserEvents(es);
    } else {
      OtherTurns(s, i, p);
    }
  }

  lemma FrameSteps(s: Session, i: Input)
    requires Turns(s, i)
    ensures SamplesIn(i) == 0 && i.Pushed? && IsTurnFrame(i.push.frame)
    ensures var s' := s.sys.(watch := s.sys.watch.Remember(i.push.id)); Step(s, i).0.sys == Handle(s', i.push.frame)
  {
    hide Handle, HandleError;
  }

  lemma {:induction false} RunTracks(s0: Session, ins: seq<Input>)
    requires UserInv(s0.sys.ch, s0.pipelineRate) && Tracks(s0.sys.ch, Quiet, 0, [])
    ensures Tracks(Run(s0, ins).sys.ch, PhaseAfter(s0, ins), SamplesReceived(ins), ToldOfTurns(s0, ins))
  {
    hide Tracks, UserInv, Step;
    if ins != [] {
      var n := |ins| - 1;
      RunTracks(s0, ins[..n]);
      RunKeepsUser(s0, ins[..n]);
      StepTracks(s0, ins);
    }
  }

  /** In every run the client is told of the user's turns exactly what the machine says: which items, with which text,
      and when speech started and ended by the audio received until then. */
  lemma {:induction false} UserTurnsExactly(rate: nat, hasResponded: bool, maxFrames: nat, ins: seq<Input>)
    ensures var s0 := Start(rate, hasResponded, maxFrames); UserEvents(Run(s0, ins).sys.ch.log) == ToldOfTurns(s0, ins)
  {
    hide *;
    StartTracks(rate, hasResponded, maxFrames);
    RunTracks(Start(rate, hasResponded, maxFrames), ins);
    TracksTold(Start(rate, hasResponded, maxFrames), ins);
  }

  lemma StartTracks(rate: nat, hasResponded: bool, maxFrames: nat)
    ensures var s0 := Start(rate, hasResponded, maxFrames);
            UserInv(s0.sys.ch, s0.pipelineRate) && Tracks(s0.sys.ch, Quiet, 0, [])
  {
  }

  lemma TracksTold(s0: Session, ins: seq<Input>)
    requires Tracks(Run(s0, ins).sys.ch, PhaseAfter(s0, ins), SamplesReceived(ins), ToldOfTurns(s0, ins))
    ensures UserEvents(Run(s0, ins).sys.ch.log) == ToldOfTurns(s0, ins)
  {
    hide UserEvents, Run, ToldOfTurns;
  }
}
