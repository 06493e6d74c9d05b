/** The life of a user audio item on the wire: started, stopped, committed, created, transcribed, in an order
    that no run of the protocol breaks. */
module UserItems {
  import opened Wrappers
  import opened Conversation
  import opened Lifecycle
  import opened Observer
  import opened Serializer
  import opened Protocol

  // ----- What the client may rely on -----

  predicate IsUserEvent(e: Event) {
    || e.SpeechStarted? || e.SpeechStopped? || e.AudioCommitted? || e.UserAudioItemCreated?
    || e.InputTranscriptDelta? || e.InputTranscriptCompleted?
  }

  /** The events of a log that are scoped to a user audio item. */
  function UserEvents(log: seq<Event>): seq<Event> {
    if log == [] then []
    else
      var last := log[|log| - 1];
      UserEvents(log[..|log| - 1]) + if IsUserEvent(last) then [last] else []
  }

  datatype Stage = Started | Stopped | Committed | Created | Transcribed

  function StageOf(e: Event): Option<Stage> {
    match e
    case SpeechStarted(_, _) => Some(Started)
    case SpeechStopped(_, _) => Some(Stopped)
    case AudioCommitted(_) => Some(Committed)
    case UserAudioItemCreated(_, _) => Some(Created)
    case InputTranscriptCompleted(_, _) => Some(Transcribed)
    case _ => None
  }

  /** The stages that items have reached in a log. */
  function Reached(log: seq<Event>): set<(Stage, Id)> {
    if log == [] then {}
    else
      var last := log[|log| - 1];
      Reached(log[..|log| - 1]) + if StageOf(last).Some? then {(StageOf(last).value, last.userItem)} else {}
  }

  /** Whether `e` may follow the user events `before`. */
  ghost predicate Legal(before: seq<Event>, e: Event) {
    var reached := Reached(before);
    match e
    case SpeechStarted(id, _) => (Stopped, id) !in reached
    case SpeechStopped(id, endMs) =>
      (Transcribed, id) !in reached && forall m: nat | SpeechStarted(id, m) in before :: m <= endMs
    case AudioCommitted(id) => (Stopped, id) in reached && (Transcribed, id) !in reached
    case UserAudioItemCreated(id, _) => (Committed, id) in reached && (Created, id) !in reached
    case InputTranscriptDelta(id, _) => (Started, id) in reached && (Stopped, id) !in reached
    case InputTranscriptCompleted(id, _) =>
      {(Stopped, id), (Committed, id), (Created, id)} <= reached && (Transcribed, id) !in reached
    case _ => true
  }

  ghost predicate AllLegal(log: seq<Event>) {
    log == [] || (AllLegal(log[..|log| - 1]) && Legal(log[..|log| - 1], log[|log| - 1]))
  }

  lemma Extend(log: seq<Event>, e: Event)
    ensures AllLegal(log + [e]) <==> AllLegal(log) && Legal(log, e)
    ensures Reached(log + [e]) == Reached(log) + if StageOf(e).Some? then {(StageOf(e).value, e.userItem)} else {}
    ensures UserEvents(log + [e]) == if IsUserEvent(e) then UserEvents(log) + [e] else UserEvents(log)
  {
    assert (log + [e])[..|log|] == log;
  }

  lemma {:induction false} UserEventsAppend(log: seq<Event>, es: seq<Event>)
    ensures UserEvents(log + es) == UserEvents(log) + UserEvents(es)
  {
    if es == [] {
      assert log + es == log;
    } else {
      var n := |es| - 1;
      assert (log + es)[..|log + es| - 1] == log + es[..n];
      UserEventsAppend(log, es[..n]);
    }
  }

  lemma {:induction false} NoUserEvents(es: seq<Event>)
    requires forall k | 0 <= k < |es| :: !IsUserEvent(es[k])
    ensures UserEvents(es) == []
  {
    if es != [] {
      NoUserEvents(es[..|es| - 1]);
    }
  }

  // ----- The invariant -----

  /** The events of the user's turns and the turn fields agree. `ms` is the clock. */
  ghost predicate TurnMatches(log: seq<Event>, turn: Turn, next: Id, ms: nat) {
    var reached := Reached(log);
    && (forall p | p in reached :: p.1 < next)
    && (forall e | e in log && e.SpeechStarted? :: e.userItem < next)
    && (match turn.item
        case None => turn == NO_TURN
        case Some(id) =>
          && id < next
          && (Transcribed, id) !in reached
          && ((Created, id) in reached <==> turn.announced)
          && ((Stopped, id) in reached <==> turn.stopped)
          && (turn.stopped ==> (Committed, id) in reached)
          && (turn.announced ==> turn.stopped)
          && (turn.start.Some? ==> (Started, id) in reached)
          && (forall m: nat | SpeechStarted(id, m) in log :: m <= ms))
  }

  /** Every second of received audio counts the same. */
  ghost predicate ClockRuns(conv: Conv, rate: nat) {
    && (conv.samples == 0 || conv.rate == Max(rate, 1))
    && (conv.turn.start.Some? ==> conv.turn.start.value <= conv.samples)
  }

  ghost predicate UserInv(ch: Channel, rate: nat) {
    var log := UserEvents(ch.log);
    && AllLegal(log)
    && TurnMatches(log, ch.conv.turn, ch.conv.nextId, ch.conv.Ms(ch.conv.samples))
    && ClockRuns(ch.conv, rate)
  }

  lemma MsMonotonic(conv: Conv, a: nat, b: nat)
    requires a <= b
    ensures conv.Ms(a) <= conv.Ms(b)
  {
    var r := Max(conv.rate, 1);
    DivMonotonic(a * 1000, b * 1000, r);
  }

  lemma DivMonotonic(a: nat, b: nat, r: int)
    requires a <= b && r >= 1
    ensures a / r <= b / r
  {
    var q, t := a / r, b / r;
    assert a == r * q + a % r && b == r * t + b % r;
    if t + 1 <= q {
      MulMonotonic(r, t + 1, q);
    }
  }

  lemma MulMonotonic(r: int, x: int, y: int)
    requires x <= y && r >= 0
    ensures r * x <= r * y
  {
    assert r * (y - x) >= 0;
  }

  /** A clock reading that covers all starts still covers them later. */
  lemma MatchesLater(log: seq<Event>, turn: Turn, next: Id, ms: nat, next': Id, ms': nat)
    requires TurnMatches(log, turn, next, ms) && next <= next' && ms <= ms'
    ensures TurnMatches(log, turn, next', ms')
  {
  }

  /** Minting the item of a turn that has none. */
  lemma MintMatches(log: seq<Event>, conv: Conv, ms: nat)
    requires TurnMatches(log, conv.turn, conv.nextId, ms)
    ensures TurnMatches(log, conv.BeginUserItem().turn, conv.BeginUserItem().nextId, ms)
  {
  }

  lemma StartMatches(log: seq<Event>, turn: Turn, turn': Turn, next: Id, ms: nat, m: nat)
    requires AllLegal(log) && TurnMatches(log, turn, next, ms) && turn.item.Some? && !turn.stopped && m <= ms
    requires turn'.item == turn.item && !turn'.stopped && !turn'.announced && turn'.start.Some?
    ensures var log' := log + [SpeechStarted(turn.item.value, m)];
            AllLegal(log') && TurnMatches(log', turn', next, ms)
  {
    Extend(log, SpeechStarted(turn.item.value, m));
  }

  lemma StopMatches(log: seq<Event>, turn: Turn, turn': Turn, next: Id, ms: nat)
    requires AllLegal(log) && TurnMatches(log, turn, next, ms) && turn.item.Some?
    requires turn' == turn.(end := turn'.end, stopped := true)
    ensures var id := turn.item.value; var log' := log + [SpeechStopped(id, ms)] + [AudioCommitted(id)];
            AllLegal(log') && TurnMatches(log', turn', next, ms)
  {
    var id := turn.item.value;
    Extend(log, SpeechStopped(id, ms));
    Extend(log + [SpeechStopped(id, ms)], AudioCommitted(id));
  }

  lemma ShowMatches(log: seq<Event>, turn: Turn, next: Id, ms: nat, text: string)
    requires AllLegal(log) && TurnMatches(log, turn, next, ms) && turn.item.Some? && turn.stopped && !turn.announced
    ensures var log' := log + [UserAudioItemCreated(turn.item.value, text)];
            AllLegal(log') && TurnMatches(log', turn.(announced := true), next, ms)
  {
    Extend(log, UserAudioItemCreated(turn.item.value, text));
  }

  lemma TranscribeMatches(log: seq<Event>, turn: Turn, next: Id, ms: nat, text: string)
    requires AllLegal(log) && TurnMatches(log, turn, next, ms) && turn.item.Some? && turn.announced
    ensures var log' := log + [InputTranscriptCompleted(turn.item.value, text)];
            AllLegal(log') && TurnMatches(log', NO_TURN, next, ms)
  {
    Extend(log, InputTranscriptCompleted(turn.item.value, text));
  }

  lemma InterimMatches(log: seq<Event>, turn: Turn, next: Id, ms: nat, text: string)
    requires AllLegal(log) && TurnMatches(log, turn, next, ms) && turn.start.Some? && !turn.stopped
    ensures var log' := log + [InputTranscriptDelta(turn.item.value, text)];
            AllLegal(log') && TurnMatches(log', turn, next, ms)
  {
    Extend(log, InputTranscriptDelta(turn.item.value, text));
  }

  lemma StartKeeps(ch: Channel, rate: nat)
    requires UserInv(ch, rate)
    ensures UserInv(StartTurn(ch), rate)
  {
    hide TurnMatches, AllLegal, UserEvents, Reached;
    var log, ms := UserEvents(ch.log), ch.conv.Ms(ch.conv.samples);
    var base := if ch.conv.turn.stopped then ch.conv.ClearUserItem() else ch.conv;
    NoTurnMatches(log, ch.conv.turn, ch.conv.nextId, ms);
    MintMatches(log, base, ms);
    var minted := base.BeginUserItem();
    var c := ch.conv.BeginUserTurn();
    MsMonotonic(c, c.turn.start.value, c.samples);
    UnstartedMatches(log, minted.turn, minted.nextId, ms);
    StartMatches(log, minted.turn, c.turn, minted.nextId, ms, c.Ms(c.turn.start.value));
    Extend(ch.log, SpeechStarted(c.turn.item.value, c.Ms(c.turn.start.value)));
  }

  lemma NoTurnMatches(log: seq<Event>, turn: Turn, next: Id, ms: nat)
    requires TurnMatches(log, turn, next, ms)
    ensures TurnMatches(log, NO_TURN, next, ms)
  {
  }

  lemma UnstartedMatches(log: seq<Event>, turn: Turn, next: Id, ms: nat)
    requires TurnMatches(log, turn, next, ms) && !turn.stopped
    ensures !turn.announced && (turn.item == None ==> turn == NO_TURN)
  {
  }

  /** The stop and the commit go out together. */
  lemma StopKeeps(ch: Channel, rate: nat)
    requires UserInv(ch, rate)
    ensures var c := ch.conv.StopUserTurn(); var id := c.turn.item.value;
            UserInv(Channel(c, ch.log + [SpeechStopped(id, c.Ms(c.samples)), AudioCommitted(id)]), rate)
  {
    hide TurnMatches, AllLegal, UserEvents, Reached;
    var log, ms := UserEvents(ch.log), ch.conv.Ms(ch.conv.samples);
    var c := ch.conv.StopUserTurn();
    var id := c.turn.item.value;
    var e, f := SpeechStopped(id, ms), AudioCommitted(id);
    MintMatches(log, ch.conv, ms);
    StopMatches(log, ch.conv.BeginUserItem().turn, c.turn, c.nextId, ms);
    assert ch.log + [e, f] == ch.log + [e] + [f];
    Extend(ch.log, e);
    Extend(ch.log + [e], f);
  }

  lemma ShowItemKeeps(ch: Channel, rate: nat, id: Id)
    requires UserInv(ch, rate) && ch.conv.turn.item == Some(id) && ch.conv.turn.stopped
    ensures UserInv(ShowUserItem(ch, id), rate)
  {
    hide TurnMatches, AllLegal, UserEvents, Reached;
    if !ch.conv.turn.announced {
      var text := ch.conv.turn.pending.GetOr("");
      ShowMatches(UserEvents(ch.log), ch.conv.turn, ch.conv.nextId, ch.conv.Ms(ch.conv.samples), text);
      Extend(ch.log, UserAudioItemCreated(id, text));
    }
  }

  lemma StoppedHasItem(log: seq<Event>, turn: Turn, next: Id, ms: nat)
    requires TurnMatches(log, turn, next, ms) && (turn.stopped || turn.start.Some?)
    ensures turn.item.Some?
  {
  }

  lemma ShowTranscriptKeeps(ch: Channel, rate: nat)
    requires UserInv(ch, rate)
    ensures UserInv(ShowTranscript(ch), rate)
  {
    hide TurnMatches, AllLegal, UserEvents, Reached;
    if ch.conv.turn.stopped && ch.conv.turn.pending != None {
      StoppedHasItem(UserEvents(ch.log), ch.conv.turn, ch.conv.nextId, ch.conv.Ms(ch.conv.samples));
      var id, text := ch.conv.turn.item.value, ch.conv.turn.pending.value;
      ShowItemKeeps(ch, rate, id);
      var shown := ShowUserItem(ch, id);
      var c := shown.conv;
      TranscribeMatches(UserEvents(shown.log), c.turn, c.nextId, c.Ms(c.samples), text);
      Extend(shown.log, InputTranscriptCompleted(id, text));
    }
  }

  lemma InterimKeeps(ch: Channel, rate: nat, text: string)
    requires UserInv(ch, rate)
    ensures UserInv(HearInterim(ch, text), rate)
  {
    hide TurnMatches, AllLegal, UserEvents, Reached;
    if ch.conv.turn.start != None && !ch.conv.turn.stopped {
      var ms := ch.conv.Ms(ch.conv.samples);
      StoppedHasItem(UserEvents(ch.log), ch.conv.turn, ch.conv.nextId, ms);
      InterimMatches(UserEvents(ch.log), ch.conv.turn, ch.conv.nextId, ms, text);
      Extend(ch.log, InputTranscriptDelta(ch.conv.turn.item.value, text));
    }
  }

  lemma TurnFrameKeeps(s: System, f: Frame, rate: nat)
    requires UserInv(s.ch, rate) && IsTurnFrame(f)
    ensures UserInv(Handle(s, f).ch, rate)
  {
    hide UserInv;
    match f
    case UserStartedSpeaking => StartKeeps(s.ch, rate);
    case UserStoppedSpeaking =>
      StopKeeps(s.ch, rate);
      var c := s.ch.conv.StopUserTurn();
      var id := c.turn.item.value;
      var told := Channel(c, s.ch.log + [SpeechStopped(id, c.Ms(c.samples)), AudioCommitted(id)]);
      ShowItemKeeps(told, rate, id);
      ShowTranscriptKeeps(ShowUserItem(told, id), rate);
    case InterimTranscription(text) => InterimKeeps(s.ch, rate, text);
    case Transcription(text) =>
      PendingKeeps(s.ch, rate, text);
      ShowTranscriptKeeps(s.ch.(conv := s.ch.conv.SetUserTranscript(text)), rate);
  }

  lemma PendingKeeps(ch: Channel, rate: nat, text: string)
    requires UserInv(ch, rate)
    ensures UserInv(ch.(conv := ch.conv.SetUserTranscript(text)), rate)
  {
  }

  lemma AudioKeeps(ch: Channel, rate: nat, bytes: nat)
    requires UserInv(ch, rate)
    ensures UserInv(ch.(conv := ch.conv.AddInputAudio(bytes, rate)), rate)
  {
    var c := ch.conv.AddInputAudio(bytes, rate);
    MsMonotonic(c, ch.conv.samples, c.samples);
    MatchesLater(UserEvents(ch.log), c.turn, c.nextId, ch.conv.Ms(ch.conv.samples), c.nextId, c.Ms(c.samples));
  }

  // ----- Everything else leaves the user's items alone -----

  ghost predicate Elsewhere(ch: Channel, ch': Channel) {
    && ch'.conv.turn == ch.conv.turn && ch'.conv.samples == ch.conv.samples && ch'.conv.rate == ch.conv.rate
    && ch'.conv.nextId >= ch.conv.nextId
    && UserEvents(ch'.log) == UserEvents(ch.log)
  }

  lemma ElsewhereEmits(ch: Channel, conv: Conv, es: seq<Event>)
    requires conv.turn == ch.conv.turn && conv.samples == ch.conv.samples && conv.rate == ch.conv.rate
    requires conv.nextId >= ch.conv.nextId && forall k | 0 <= k < |es| :: !IsUserEvent(es[k])
    ensures Elsewhere(ch, Channel(conv, ch.log + es))
  {
    UserEventsAppend(ch.log, es);
    NoUserEvents(es);
  }

  lemma ElsewhereKeeps(ch: Channel, ch': Channel, rate: nat)
    requires UserInv(ch, rate) && Elsewhere(ch, ch')
    ensures UserInv(ch', rate)
  {
  }

  lemma AnnounceElsewhere(ch: Channel)
    ensures Elsewhere(ch, ch.Announce())
  {
    ElsewhereEmits(ch, ch.Announce().conv, AnnounceEvents(ch.conv));
  }

  lemma FinishElsewhere(ch: Channel, status: Status)
    ensures Elsewhere(ch, ch.Finish(status))
  {
    if ch.conv.CanComplete() {
      ElsewhereEmits(ch, ch.Finish(status).conv, FinishEvents(ch.conv.TakeSnapshot(status)));
    }
  }

  lemma SayElsewhere(ch: Channel, text: string)
    ensures Elsewhere(ch, Say(ch, text))
  {
    ElsewhereEmits(ch, Say(ch, text).conv,
      [TranscriptDelta(Say(ch, text).conv.slot.response, Say(ch, text).conv.slot.item, text)]);
  }

  lemma ObserverFinishElsewhere(s: System, status: Status)
    ensures Elsewhere(s.ch, s.Finish(status).ch)
  {
    var text := s.watch.BufferFor(s.ch.conv.generation);
    SayElsewhere(s.ch, text);
    FinishElsewhere(s.ch, status);
    FinishElsewhere(Say(s.ch, text), status);
  }

  lemma ErrorElsewhere(s: System, fatal: bool)
    ensures Elsewhere(s.ch, HandleError(s, fatal).ch)
  {
    var told := s.On(s.ch.Emit(ErrorSent("pipeline_error")));
    ElsewhereEmits(s.ch, s.ch.conv, [ErrorSent("pipeline_error")]);
    AnnounceElsewhere(told.ch);
    ObserverFinishElsewhere(told, Failed);
    ObserverFinishElsewhere(told.On(told.ch.Announce()), Failed);
  }

  lemma PushedElsewhere(s: System, p: Push)
    requires !Accepts(s.watch, p) || !IsTurnFrame(p.frame)
    ensures Elsewhere(s.ch, Observe(s, p).ch)
  {
    var s' := s.(watch := s.watch.Remember(p.id));
    if !Accepts(s.watch, p) {
      return;
    }
    match p.frame {
      case PipelineError(fatal) => ErrorElsewhere(s', fatal);
      case Interruption => ObserverFinishElsewhere(s', Cancelled);
      case TtsText(text) =>
        AnnounceElsewhere(s.ch);
        SayElsewhere(s.ch.Announce(), text);
      case LlmText(_) => AnnounceElsewhere(s.ch);
      case BotStartedSpeaking => AnnounceElsewhere(s.ch);
      case _ => ObserverFinishElsewhere(s', Completed);
    }
  }

  lemma PushedKeeps(s: System, p: Push, rate: nat)
    requires UserInv(s.ch, rate)
    ensures UserInv(Observe(s, p).ch, rate)
  {
    hide UserInv;
    if Accepts(s.watch, p) && IsTurnFrame(p.frame) {
      TurnFrameKeeps(s.(watch := s.watch.Remember(p.id)), p.frame, rate);
    } else {
      PushedElsewhere(s, p);
      ElsewhereKeeps(s.ch, Observe(s, p).ch, rate);
    }
  }

  lemma CancelElsewhere(s: System)
    ensures Elsewhere(s.ch, CancelResponse(s).ch)
  {
    var conv := s.ch.conv;
    var text := s.watch.buffer;
    var conv' := if text != "" && conv.slot.transcript == "" then conv.AppendAssistantTranscript(text) else conv;
    FinishElsewhere(s.ch.(conv := conv'), Cancelled);
  }

  lemma RejectElsewhere(s: Session, code: string)
    ensures Elsewhere(s.sys.ch, s.Reject(code).sys.ch)
  {
    ElsewhereEmits(s.sys.ch, s.sys.ch.conv, [ErrorSent(code)]);
  }

  lemma CreateElsewhere(s: Session, overridden: bool)
    ensures Elsewhere(s.sys.ch, Create(s, overridden).0.sys.ch)
  {
    hide UserEvents, AnnounceEvents;
    var reserved := s.sys.ch.(conv := s.sys.ch.conv.(slot := s.sys.ch.conv.slot.(requested := true)));
    AnnounceElsewhere(reserved);
    RejectElsewhere(s, "response_create_rejected_pre_intro");
    RejectElsewhere(s, "unsupported_response_override");
    RejectElsewhere(s, "conversation_already_has_active_response");
  }

  lemma CreateItemElsewhere(s: Session, item: ClientItem)
    ensures Elsewhere(s.sys.ch, CreateItem(s, item).0.sys.ch)
  {
    hide UserEvents;
    RejectElsewhere(s, "invalid_item");
    RejectElsewhere(s, "unsupported_item");
    RejectElsewhere(s, "item_rejected_pre_intro");
    if item.UserMessage? && item.text.Some? {
      ElsewhereEmits(s.sys.ch, s.sys.ch.conv.(nextId := s.sys.ch.conv.nextId + if item.id.Some? then 0 else 1),
                     [UserTextItemCreated(item.id.GetOr(s.sys.ch.conv.nextId), item.text.value)]);
    }
  }

  lemma StopElsewhere(s: Session, response: Option<Id>, item: Option<Id>, audioEndMs: Option<int>)
    ensures Elsewhere(s.sys.ch, Cancel(s, response).0.sys.ch)
    ensures Elsewhere(s.sys.ch, Truncate(s, item, audioEndMs).0.sys.ch)
  {
    hide CancelResponse;
    CancelElsewhere(s.sys);
    RejectElsewhere(s, "invalid_value");
    RejectElsewhere(s, "invalid_truncate");
  }

  lemma UpdateElsewhere(s: Session, applied: Result<Option<string>, string>)
    ensures Elsewhere(s.sys.ch, UpdateSession(s, applied).0.sys.ch)
  {
    if applied.Failure? {
      RejectElsewhere(s, applied.error);
    } else {
      ElsewhereEmits(s.sys.ch, s.sys.ch.conv, [SessionUpdated]);
    }
  }

  lemma OtherMessageElsewhere(s: Session, m: Message)
    requires !m.AudioAppend?
    ensures Elsewhere(s.sys.ch, Receive(s, m).0.sys.ch)
  {
    hide Create, Cancel, Truncate, CreateItem, UpdateSession, UserEvents;
    match m
    case Unusable(code) => RejectElsewhere(s, code);
    case AudioCommit => RejectElsewhere(s, "input_audio_buffer_commit_empty");
    case AudioClear => ElsewhereEmits(s.sys.ch, s.sys.ch.conv, [AudioCleared]);
    case ResponseCreate(overridden) => CreateElsewhere(s, overridden);
    case ResponseCancel(response) => StopElsewhere(s, response, None, None);
    case ItemTruncate(item, audioEndMs) => StopElsewhere(s, None, item, audioEndMs);
    case ItemCreate(item) => CreateItemElsewhere(s, item);
    case SessionUpdate(applied) => UpdateElsewhere(s, applied);
  }

  lemma ReceivedKeeps(s: Session, m: Message)
    requires UserInv(s.sys.ch, s.pipelineRate)
    ensures UserInv(Receive(s, m).0.sys.ch, s.pipelineRate) && Receive(s, m).0.pipelineRate == s.pipelineRate
  {
    hide UserInv;
    if m.AudioAppend? {
      if m.pcm.Failure? {
        RejectElsewhere(s, m.pcm.error);
        ElsewhereKeeps(s.sys.ch, Receive(s, m).0.sys.ch, s.pipelineRate);
      } else {
        RejectElsewhere(s, "input_buffer_overflow");
        ElsewhereKeeps(s.sys.ch, s.Reject("input_buffer_overflow").sys.ch, s.pipelineRate);
        AudioKeeps(s.sys.ch, s.pipelineRate, m.pcm.value);
      }
    } else {
      OtherMessageElsewhere(s, m);
      ElsewhereKeeps(s.sys.ch, Receive(s, m).0.sys.ch, s.pipelineRate);
    }
  }

  lemma StepKeepsUser(s: Session, i: Input)
    requires UserInv(s.sys.ch, s.pipelineRate)
    ensures UserInv(Step(s, i).0.sys.ch, s.pipelineRate) && Step(s, i).0.pipelineRate == s.pipelineRate
  {
    hide UserInv, Receive, Observe;
    match i
    case Pushed(push) => PushedKeeps(s.sys, push, s.pipelineRate);
    case Received(message) => ReceivedKeeps(s, message);
    case AudioOut(_, resampled) =>
      var ch := s.sys.ch;
      AnnounceElsewhere(ch);
      if resampled.Some? {
        var said := ch.Announce();
        ElsewhereEmits(said, said.conv, [AudioDelta(said.conv.slot.response, said.conv.slot.item, resampled.value)]);
      }
      ElsewhereKeeps(ch, Step(s, i).0.sys.ch, s.pipelineRate);
    case GateOpened => ElsewhereKeeps(s.sys.ch, Step(s, i).0.sys.ch, s.pipelineRate);
  }

  // ----- The main result -----

  lemma {:induction false} RunKeepsUser(s0: Session, ins: seq<Input>)
    requires UserInv(s0.sys.ch, s0.pipelineRate)
    ensures UserInv(Run(s0, ins).sys.ch, s0.pipelineRate) && Run(s0, ins).pipelineRate == s0.pipelineRate
  {
    hide UserInv, Step;
    if ins != [] {
      var n := |ins| - 1;
      RunKeepsUser(s0, ins[..n]);
      StepKeepsUser(Run(s0, ins[..n]), ins[n]);
    }
  }

  /** In every run every event of a user item is legal given the ones before it. */
  lemma {:induction false} UserItemOrder(rate: nat, hasResponded: bool, maxFrames: nat, ins: seq<Input>)
    ensures AllLegal(UserEvents(Run(Start(rate, hasResponded, maxFrames), ins).sys.ch.log))
  {
    RunKeepsUser(Start(rate, hasResponded, maxFrames), ins);
  }

  /** A stage that has been reached was reached at some point. */
  lemma {:induction false} ReachedAt(log: seq<Event>, stage: Stage, id: Id) returns (k: nat)
    requires (stage, id) in Reached(log)
    ensures k < |log| && StageOf(log[k]) == Some(stage) && log[k].userItem == id
  {
    k := |log| - 1;
    if StageOf(log[k]) != Some(stage) || log[k].userItem != id {
      k := ReachedAt(log[..k], stage, id);
    }
  }

  lemma {:induction false} LegalAt(log: seq<Event>, k: nat)
    requires AllLegal(log) && k < |log|
    ensures Legal(log[..k], log[k]) && AllLegal(log[..k])
  {
    if k < |log| - 1 {
      LegalAt(log[..|log| - 1], k);
      assert log[..|log| - 1][..k] == log[..k];
    }
  }

  lemma {:induction false} ReachedFrom(log: seq<Event>, j: nat)
    requires j < |log| && StageOf(log[j]).Some?
    ensures (StageOf(log[j]).value, log[j].userItem) in Reached(log)
  {
    if j < |log| - 1 {
      ReachedFrom(log[..|log| - 1], j);
    }
  }

  /** A completed transcription was stopped, committed and created before, in this order. */
  lemma TranscribedLast(log: seq<Event>, k: nat) returns (stopped: nat, committed: nat, created: nat)
    requires AllLegal(log) && k < |log| && log[k].InputTranscriptCompleted?
    ensures stopped < committed < created < k
    ensures log[stopped].SpeechStopped? && log[stopped].userItem == log[k].userItem
    ensures log[committed].AudioCommitted? && log[committed].userItem == log[k].userItem
    ensures log[created].UserAudioItemCreated? && log[created].userItem == log[k].userItem
  {
    var id := log[k].userItem;
    LegalAt(log, k);
    created := ReachedAt(log[..k], Created, id);
    LegalAt(log, created);
    committed := ReachedAt(log[..created], Committed, id);
    LegalAt(log, committed);
    stopped := ReachedAt(log[..committed], Stopped, id);
  }

  /** No item is created twice or transcribed twice. */
  lemma OncePerItem(log: seq<Event>, j: nat, k: nat)
    requires AllLegal(log) && j < k < |log|
    requires (log[j].UserAudioItemCreated? && log[k].UserAudioItemCreated?)
          || (log[j].InputTranscriptCompleted? && log[k].InputTranscriptCompleted?)
    ensures log[j].userItem != log[k].userItem
  {
    LegalAt(log, k);
    ReachedFrom(log[..k], j);
  }

  /** The end of an item's speech is never before its start, wherever the two events are. */
  lemma EndAfterStart(log: seq<Event>, j: nat, k: nat)
    requires AllLegal(log) && j < |log| && k < |log|
    requires log[j].SpeechStarted? && log[k].SpeechStopped? && log[j].userItem == log[k].userItem
    ensures j < k && log[j].startMs <= log[k].endMs
  {
    if k < j {
      LegalAt(log, j);
      ReachedFrom(log[..j], k);
    } else {
      LegalAt(log, k);
      assert log[..k][j] == log[j];
    }
  }

  // ----- The clock and its rate -----

  /** A conversation after some more audio, each chunk with its number of bytes and its rate. */
  function Heard(c: Conv, chunks: seq<(int, int)>): Conv {
    if chunks == [] then c
    else
      var n := |chunks| - 1;
      Heard(c, chunks[..n]).AddInputAudio(chunks[n].0, chunks[n].1)
  }

  lemma {:induction false} HeardMore(c: Conv, chunks: seq<(int, int)>)
    ensures c.samples <= Heard(c, chunks).samples
  {
    if chunks != [] {
      HeardMore(c, chunks[..|chunks| - 1]);
    }
  }

  /** However much audio comes between two readings of the clock, and at whatever rates, the later reading is not the
      smaller one exactly if the samples of the later reading last, at its rate, as long as the earlier reading says;
      and so it always is when the rate has not grown. */
  lemma {:induction false} LaterReading(c: Conv, chunks: seq<(int, int)>)
    ensures var c', ms := Heard(c, chunks), c.Ms(c.samples);
            && (ms <= c'.Ms(c'.samples) <==> Max(c'.rate, 1) * ms <= c'.samples * 1000)
            && (Max(c'.rate, 1) <= Max(c.rate, 1) ==> ms <= c'.Ms(c'.samples))
  {
    var c', ms := Heard(c, chunks), c.Ms(c.samples);
    HeardMore(c, chunks);
    AtLeast(c'.samples * 1000, Max(c'.rate, 1), ms);
    AtLeast(c.samples * 1000, Max(c.rate, 1), ms);
    if Max(c'.rate, 1) <= Max(c.rate, 1) {
      MulMonotonic(ms, Max(c'.rate, 1), Max(c.rate, 1));
    }
  }

  lemma AtLeast(a: nat, r: int, m: nat)
    requires r > 0
    ensures m <= a / r <==> r * m <= a
  {
    var q := a / r;
    assert a == r * q + a % r;
    if m <= q {
      MulMonotonic(r, m, q);
    } else {
      MulMonotonic(r, q + 1, m);
    }
  }

  /** The clock reads no less after any audio at the second rate, whatever it read at the first, exactly if the second
      rate is not the larger one: a session's fixed rate is what lets speech end no earlier than it starts. */
  lemma ClockNeedsFixedRate(rate: nat, next: nat)
    requires rate > 0 && next > 0
    ensures (forall c: Conv, bytes | c.rate == rate :: NoReadingBack(c, bytes, next)) <==> next <= rate
  {
    if next <= rate {
      forall c: Conv, bytes | c.rate == rate ensures NoReadingBack(c, bytes, next) {
        LaterReading(c, [(bytes, next)]);
        assert Heard(c, [(bytes, next)]) == Heard(c, []).AddInputAudio(bytes, next);
      }
    } else {
      var c := InitialConv(true).(rate := rate, samples := rate * next);
      var c' := c.AddInputAudio(1, next);
      assert c'.samples == rate * next;
      Quotient(next * 1000, rate);
      Quotient(rate * 1000, next);
      assert c.samples * 1000 == next * 1000 * rate && c'.samples * 1000 == rate * 1000 * next;
      assert !NoReadingBack(c, 1, next);
    }
  }

  predicate NoReadingBack(c: Conv, bytes: int, rate: int) {
    var c' := c.AddInputAudio(bytes, rate);
    c.Ms(c.samples) <= c'.Ms(c'.samples)
  }

  lemma Quotient(a: nat, r: nat)
    requires r > 0
    ensures a * r / r == a
  {
    AtLeast(a * r, r, a);
    AtLeast(a * r, r, a + 1);
    assert r * (a + 1) == a * r + r;
  }

  /** One second of audio at 16 kHz, then one more sample at 48 kHz: the clock runs back. */
  lemma ClockRunsBack()
    ensures var c := InitialConv(true).AddInputAudio(32000, 16000); var c' := c.AddInputAudio(2, 48000);
            c.Ms(c.samples) == 1000 && c'.Ms(c'.samples) == 333
  {
    var c := InitialConv(true).AddInputAudio(32000, 16000);
    var c' := c.AddInputAudio(2, 48000);
    assert c.samples == 16000 && c'.samples == 16001;
  }

  // ----- The text of a completed transcription -----

  /** The item and text of the last final transcription that a run handled. */
  function LastFinal(s0: Session, ins: seq<Input>): Option<(Id, string)> {
    if ins == [] then None
    else
      var n := |ins| - 1;
      var s, i := Run(s0, ins[..n]), ins[n];
      if i.Pushed? && i.push.frame.Transcription? && Accepts(s.sys.watch, i.push)
      then Some((s.sys.ch.conv.BeginUserItem().turn.item.value, i.push.frame.text)) else LastFinal(s0, ins[..n])
  }

  /** A pending transcript is the last final one, set for the item of the turn. */
  ghost predicate PendingIs(turn: Turn, last: Option<(Id, string)>) {
    turn.pending.Some? ==> turn.item.Some? && last == Some((turn.item.value, turn.pending.value))
  }

  ghost predicate CompletesAs(before: seq<Event>, after: seq<Event>, last: Option<(Id, string)>) {
    && |before| <= |after|
    && forall k | |before| <= k < |after| && after[k].InputTranscriptCompleted? ::
      last == Some((after[k].userItem, after[k].heard))
  }

  lemma ShowTranscriptCompletes(ch: Channel, before: seq<Event>, last: Option<(Id, string)>)
    requires PendingIs(ch.conv.turn, last) && CompletesAs(before, UserEvents(ch.log), last)
    ensures PendingIs(ShowTranscript(ch).conv.turn, last)
    ensures CompletesAs(before, UserEvents(ShowTranscript(ch).log), last)
  {
    hide UserEvents;
    if ch.conv.turn.stopped && ch.conv.turn.pending.Some? {
      var id, text := ch.conv.turn.item.value, ch.conv.turn.pending.value;
      ShowItemCompletes(ch, id, before, last);
      var shown := ShowUserItem(ch, id);
      EventCompletes(before, shown.log, InputTranscriptCompleted(id, text), last);
    }
  }

  lemma UserEventsNext(log: seq<Event>, e: Event)
    ensures UserEvents(log + [e]) == UserEvents(log) + if IsUserEvent(e) then [e] else []
  {
    assert (log + [e])[..|log|] == log;
  }

  lemma EventCompletes(before: seq<Event>, log: seq<Event>, e: Event, last: Option<(Id, string)>)
    requires CompletesAs(before, UserEvents(log), last)
    requires e.InputTranscriptCompleted? ==> last == Some((e.userItem, e.heard))
    ensures CompletesAs(before, UserEvents(log + [e]), last)
  {
    hide UserEvents;
    UserEventsNext(log, e);
  }

  lemma ShowItemCompletes(ch: Channel, id: Id, before: seq<Event>, last: Option<(Id, string)>)
    requires CompletesAs(before, UserEvents(ch.log), last)
    ensures CompletesAs(before, UserEvents(ShowUserItem(ch, id).log), last)
    ensures ShowUserItem(ch, id).conv.turn.(announced := true) == ch.conv.turn.(announced := true)
  {
    hide UserEvents;
    if !ch.conv.turn.announced {
      EventCompletes(before, ch.log, UserAudioItemCreated(id, ch.conv.turn.pending.GetOr("")), last);
    }
  }

  lemma StopCompletes(ch: Channel, last: Option<(Id, string)>)
    requires PendingIs(ch.conv.turn, last)
    ensures PendingIs(StopTurn(ch).conv.turn, last)
    ensures CompletesAs(UserEvents(ch.log), UserEvents(StopTurn(ch).log), last)
  {
    hide UserEvents, ShowTranscript;
    var c := ch.conv.StopUserTurn();
    var id := c.turn.item.value;
    var stopped, committed := SpeechStopped(id, c.Ms(c.samples)), AudioCommitted(id);
    EventCompletes(UserEvents(ch.log), ch.log, stopped, last);
    EventCompletes(UserEvents(ch.log), ch.log + [stopped], committed, last);
    assert ch.log + [stopped] + [committed] == ch.log + [stopped, committed];
    var told := Channel(c, ch.log + [stopped, committed]);
    ShowItemCompletes(told, id, UserEvents(ch.log), last);
    ShowTranscriptCompletes(ShowUserItem(told, id), UserEvents(ch.log), last);
  }

  lemma TurnFrameCompletes(s: System, f: Frame, last: Option<(Id, string)>)
    requires IsTurnFrame(f) && !f.Transcription? && PendingIs(s.ch.conv.turn, last)
    ensures PendingIs(Handle(s, f).ch.conv.turn, last)
    ensures CompletesAs(UserEvents(s.ch.log), UserEvents(Handle(s, f).ch.log), last)
  {
    hide UserEvents;
    match f
    case UserStartedSpeaking =>
      var c := s.ch.conv.BeginUserTurn();
      EventCompletes(UserEvents(s.ch.log), s.ch.log, SpeechStarted(c.turn.item.value, c.Ms(c.turn.start.value)), last);
    case UserStoppedSpeaking => StopCompletes(s.ch, last);
    case InterimTranscription(text) =>
      var c := s.ch.conv.BeginUserItem();
      EventCompletes(UserEvents(s.ch.log), s.ch.log, InputTranscriptDelta(c.turn.item.value, text), last);
  }

  lemma TranscriptionCompletes(s: System, text: string)
    ensures var last := Some((s.ch.conv.BeginUserItem().turn.item.value, text));
            var s' := Handle(s, Transcription(text));
            PendingIs(s'.ch.conv.turn, last) && CompletesAs(UserEvents(s.ch.log), UserEvents(s'.ch.log), last)
  {
    var last := Some((s.ch.conv.BeginUserItem().turn.item.value, text));
    ShowTranscriptCompletes(s.ch.(conv := s.ch.conv.SetUserTranscript(text)), UserEvents(s.ch.log), last);
  }

  /** A step that is no turn frame leaves the turn and its events alone. */
  lemma OtherStepElsewhere(s: Session, i: Input)
    requires !(i.Pushed? && Accepts(s.sys.watch, i.push) && IsTurnFrame(i.push.frame))
    ensures var ch, ch' := s.sys.ch, Step(s, i).0.sys.ch;
            ch'.conv.turn == ch.conv.turn && UserEvents(ch'.log) == UserEvents(ch.log)
  {
    hide Observe, Receive;
    match i
    case Pushed(push) => PushedElsewhere(s.sys, push);
    case Received(message) =>
      if message.AudioAppend? {
        AppendElsewhere(s, message);
      } else {
        OtherMessageElsewhere(s, message);
      }
    case AudioOut(_, resampled) =>
      var ch := s.sys.ch;
      AnnounceElsewhere(ch);
      if resampled.Some? {
        var said := ch.Announce();
        ElsewhereEmits(said, said.conv, [AudioDelta(said.conv.slot.response, said.conv.slot.item, resampled.value)]);
      }
    case GateOpened =>
  }

  lemma AppendElsewhere(s: Session, m: Message)
    requires m.AudioAppend?
    ensures var ch, ch' := s.sys.ch, Receive(s, m).0.sys.ch;
            ch'.conv.turn == ch.conv.turn && UserEvents(ch'.log) == UserEvents(ch.log)
  {
    RejectElsewhere(s, "input_buffer_overflow");
    if m.pcm.Failure? {
      RejectElsewhere(s, m.pcm.error);
    }
  }

  lemma StepCompletes(s: Session, i: Input, last: Option<(Id, string)>)
    requires PendingIs(s.sys.ch.conv.turn, last)
    ensures var final := i.Pushed? && i.push.frame.Transcription? && Accepts(s.sys.watch, i.push);
            var last' := if final then Some((s.sys.ch.conv.BeginUserItem().turn.item.value, i.push.frame.text))
              else last;
            && PendingIs(Step(s, i).0.sys.ch.conv.turn, last')
            && CompletesAs(UserEvents(s.sys.ch.log), UserEvents(Step(s, i).0.sys.ch.log), last')
  {
    hide Receive, Handle, PendingIs;
    if i.Pushed? && Accepts(s.sys.watch, i.push) && IsTurnFrame(i.push.frame) {
      var s' := s.sys.(watch := s.sys.watch.Remember(i.push.id));
      if i.push.frame.Transcription? {
        TranscriptionCompletes(s', i.push.frame.text);
      } else {
        TurnFrameCompletes(s', i.push.frame, last);
      }
    } else {
      OtherStepElsewhere(s, i);
    }
  }

  /** In every run a transcription that a step completes is the last final transcription that was handled, set for
      the very item it is completed for. */
  lemma {:induction false} CompletedIsLastFinal(rate: nat, hasResponded: bool, maxFrames: nat, ins: seq<Input>)
    ensures var s0 := Start(rate, hasResponded, maxFrames);
            && PendingIs(Run(s0, ins).sys.ch.conv.turn, LastFinal(s0, ins))
            && (ins != [] ==>
                  var before := Run(s0, ins[..|ins| - 1]);
                  CompletesAs(UserEvents(before.sys.ch.log), UserEvents(Run(s0, ins).sys.ch.log), LastFinal(s0, ins)))
  {
    hide Step, PendingIs, CompletesAs;
    var s0 := Start(rate, hasResponded, maxFrames);
    if ins == [] {
      NothingPending(rate, hasResponded, maxFrames);
    } else {
      var n := |ins| - 1;
      CompletedIsLastFinal(rate, hasResponded, maxFrames, ins[..n]);
      StepCompletes(Run(s0, ins[..n]), ins[n], LastFinal(s0, ins[..n]));
    }
  }

  lemma NothingPending(rate: nat, hasResponded: bool, maxFrames: nat)
    ensures PendingIs(Start(rate, hasResponded, maxFrames).sys.ch.conv.turn, None)
  {
  }
}
