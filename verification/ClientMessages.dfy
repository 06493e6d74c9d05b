/** What the client can expect of its messages, told from what it has seen on the wire and sent itself. */
module ClientMessages {
  import opened Wrappers
  import opened Conversation
  import opened Lifecycle
  import opened Observer
  import opened Serializer
  import opened Protocol
  import opened ResponseStream
  import UserItems
  import UserTurns

  // ----- What is expected -----

  /** A message changes nothing; is refused with an error; or is heeded, with the frame that the pipeline gets and what
      the client is told beside the events of responses. */
  datatype Answer = Ignored | Refused(code: string) | Heeded(out: Option<OutFrame>, told: seq<Event>)

  /** The answer to a message: `g` is what the client has seen of responses, `gate` whether it may take part yet,
      `pending` whether it has sent audio since it last committed or cleared, and `next` a new id. */
  ghost function Expected(g: Ledger, gate: bool, pending: bool, next: Id, m: Message): Answer {
    match m
    case Unusable(code) => Refused(code)
    case AudioAppend(Failure(code)) => Refused(code)
    case AudioAppend(Success(bytes)) =>
      if bytes == 0 then Ignored
      else if bytes > 60 * 16000 * 2 then Refused("input_buffer_overflow")
      else Heeded(Some(InputAudio(bytes)), [])
    case AudioCommit => if pending then Heeded(None, []) else Refused("input_audio_buffer_commit_empty")
    case AudioClear => Heeded(None, [AudioCleared])
    case ResponseCreate(overridden) =>
      if !gate then Refused("response_create_rejected_pre_intro")
      else if overridden then Refused("unsupported_response_override")
      else if g.open.Some? then Refused("conversation_already_has_active_response")
      else Heeded(Some(LlmRun), [])
    case ResponseCancel(response) =>
      if g.open == None then Ignored
      else if response.Some? && response.value != g.open.value.response then Refused("invalid_value")
      else Heeded(Some(Interrupt), [])
    case ItemTruncate(item, audioEndMs) =>
      if item == None || audioEndMs == None || audioEndMs.value < 0 || !KnownItem(g, item.value)
      then Refused("invalid_truncate")
      else if g.open == None then Ignored
      else Heeded(Some(Interrupt), [])
    case ItemCreate(item) => ExpectedItem(gate, next, item)
    case SessionUpdate(Failure(code)) => Refused(code)
    case SessionUpdate(Success(None)) => Heeded(None, [SessionUpdated])
    case SessionUpdate(Success(Some(voice))) => Heeded(Some(UpdateVoice(voice)), [SessionUpdated])
  }

  /** The client has seen the item of the open response, and those of the others that said something. */
  ghost predicate KnownItem(g: Ledger, item: Id) {
    || (g.open.Some? && g.open.value.item == item)
    || exists k | 0 <= k < |g.bs| :: g.bs[k].item == item && g.bs[k].transcript != ""
  }

  function ExpectedItem(gate: bool, next: Id, item: ClientItem): Answer {
    match item
    case UserMessage(id, Some(text)) =>
      if !gate then Refused("item_rejected_pre_intro")
      else Heeded(Some(AppendUserText(text)), [UserTextItemCreated(id.GetOr(next), text)])
    case UserMessage(_, None) => Refused("invalid_item")
    case NotAnObject => Refused("invalid_item")
    case _ => Refused("unsupported_item")
  }

  predicate Resets(i: Input) {
    i.Received? && (i.message.AudioCommit? || i.message.AudioClear?)
  }

  /** Audio was received that was neither committed nor cleared since. */
  ghost predicate AudioPending(ins: seq<Input>) {
    exists k | 0 <= k < |ins| :: UserTurns.BytesIn(ins[k]) > 0 && forall j | k < j < |ins| :: !Resets(ins[j])
  }

  /** The events that concern neither a response nor the user's speech. */
  function OtherEvents(log: seq<Event>): seq<Event> {
    if log == [] then []
    else
      var last := log[|log| - 1];
      OtherEvents(log[..|log| - 1]) + if IsResponseEvent(last) || UserItems.IsUserEvent(last) then [] else [last]
  }

  /** The message is answered as expected. */
  ghost predicate Answered(s: Session, m: Message, expected: Answer) {
    var (s', out) := Step(s, Received(m));
    match expected
    case Ignored => s' == s && out == None
    case Refused(code) => out == None && OnlyTold(s, s', [ErrorSent(code)])
    case Heeded(frame, told) => out == frame && OtherEvents(s'.sys.ch.log) == OtherEvents(s.sys.ch.log) + told
  }

  /** The client is told so, and nothing else changes. */
  ghost predicate OnlyTold(s: Session, s': Session, told: seq<Event>) {
    s' == s.(sys := s.sys.(ch := s.sys.ch.(log := s.sys.ch.log + told)))
  }

  // ----- Audio that waits to be committed -----

  lemma PendingNext(ins: seq<Input>, i: Input)
    ensures AudioPending(ins + [i]) <==> UserTurns.BytesIn(i) > 0 || (AudioPending(ins) && !Resets(i))
  {
    var all := ins + [i];
    if UserTurns.BytesIn(i) > 0 {
      assert all[|ins|] == i;
    }
    if AudioPending(ins) && !Resets(i) {
      var k: nat :| k < |ins| && UserTurns.BytesIn(ins[k]) > 0 && forall j | k < j < |ins| :: !Resets(ins[j]);
      assert all[k] == ins[k] && forall j | k < j < |all| :: !Resets(all[j]);
    }
    if k: nat :| k < |all| && UserTurns.BytesIn(all[k]) > 0 && forall j | k < j < |all| :: !Resets(all[j]) {
      if k < |ins| {
        assert !Resets(all[|ins|]);
        assert forall j | k < j < |ins| :: ins[j] == all[j];
      }
    }
  }

  lemma StepUncommitted(s: Session, i: Input)
    ensures Step(s, i).0.uncommitted == if Resets(i) then 0 else s.uncommitted + UserTurns.BytesIn(i)
  {
    hide Observe, SendAudio, CancelResponse;
  }

  lemma {:induction false} RunPending(s0: Session, ins: seq<Input>)
    requires s0.uncommitted == 0
    ensures Run(s0, ins).uncommitted > 0 <==> AudioPending(ins)
  {
    hide Step, AudioPending;
    if ins == [] {
      NothingPending();
    } else {
      var n := |ins| - 1;
      RunPending(s0, ins[..n]);
      StepUncommitted(Run(s0, ins[..n]), ins[n]);
      PendingNext(ins[..n], ins[n]);
      ResetAddsNothing(ins[n]);
      assert ins == ins[..n] + [ins[n]];
    }
  }

  lemma ResetAddsNothing(i: Input)
    ensures Resets(i) ==> UserTurns.BytesIn(i) == 0
  {
  }

  lemma NothingPending()
    ensures !AudioPending([])
  {
  }

  // ----- Other events -----

  lemma {:induction false} OthersAppend(log: seq<Event>, es: seq<Event>)
    ensures OtherEvents(log + es) == OtherEvents(log) + OtherEvents(es)
  {
    if es == [] {
      assert log + es == log;
    } else {
      var n := |es| - 1;
      assert (log + es)[..|log + es| - 1] == log + es[..n];
      OthersAppend(log, es[..n]);
    }
  }

  lemma {:induction false} NoOthers(es: seq<Event>)
    requires forall k | 0 <= k < |es| :: IsResponseEvent(es[k]) || UserItems.IsUserEvent(es[k])
    ensures OtherEvents(es) == []
  {
    if es != [] {
      NoOthers(es[..|es| - 1]);
    }
  }

  lemma SameOthers(log: seq<Event>, es: seq<Event>)
    requires forall k | 0 <= k < |es| :: IsResponseEvent(es[k]) || UserItems.IsUserEvent(es[k])
    ensures OtherEvents(log + es) == OtherEvents(log)
  {
    OthersAppend(log, es);
    NoOthers(es);
  }

  lemma OneOther(log: seq<Event>, e: Event)
    requires !IsResponseEvent(e) && !UserItems.IsUserEvent(e)
    ensures OtherEvents(log + [e]) == OtherEvents(log) + [e]
  {
    assert (log + [e])[..|log|] == log;
  }

  lemma FinishOthers(ch: Channel, status: Status)
    ensures OtherEvents(ch.Finish(status).log) == OtherEvents(ch.log)
  {
    if ch.conv.CanComplete() {
      SameOthers(ch.log, FinishEvents(ch.conv.TakeSnapshot(status)));
    }
  }

  lemma AnnounceOthers(ch: Channel)
    ensures OtherEvents(ch.Announce().log) == OtherEvents(ch.log)
  {
    SameOthers(ch.log, AnnounceEvents(ch.conv));
  }

  lemma SayOthers(ch: Channel, text: string)
    ensures OtherEvents(Say(ch, text).log) == OtherEvents(ch.log)
  {
    SameOthers(ch.log, [TranscriptDelta(Say(ch, text).conv.slot.response, Say(ch, text).conv.slot.item, text)]);
  }

  // ----- The answers -----

  lemma SlotShows(s: Session, g: Ledger)
    requires Holds(s.sys, g)
    ensures s.sys.ch.conv.slot == SlotOf(g.open)
    ensures forall item: Id :: KnownItem(g, item) <==>
      Some(item) == s.sys.ch.conv.slot.item || item in s.sys.ch.conv.itemTranscripts
  {
    hide Render, ResponseEvents, Increasing, Texts;
    forall item: Id ensures item in s.sys.ch.conv.itemTranscripts <==> Spoke(g.bs, g.open, item) {
    }
  }

  lemma CreateAnswered(s: Session, g: Ledger, m: Message, pending: bool)
    requires s.sys.ch.conv.slot == SlotOf(g.open) && m.ResponseCreate?
    ensures Answered(s, m, Expected(g, s.sys.ch.conv.hasResponded, pending, s.sys.ch.conv.nextId, m))
  {
    hide OtherEvents, AnnounceEvents;
    var ch := s.sys.ch;
    AnnounceOthers(ch.(conv := ch.conv.(slot := ch.conv.slot.(requested := true))));
    assert OtherEvents(ch.log) + [] == OtherEvents(ch.log);
  }

  lemma CancelAnswered(s: Session, g: Ledger, m: Message, gate: bool, pending: bool)
    requires s.sys.ch.conv.slot == SlotOf(g.open) && (m.ResponseCancel? || m.ItemTruncate?)
    requires forall item: Id :: KnownItem(g, item) <==>
      Some(item) == s.sys.ch.conv.slot.item || item in s.sys.ch.conv.itemTranscripts
    ensures Answered(s, m, Expected(g, gate, pending, s.sys.ch.conv.nextId, m))
  {
    hide OtherEvents, CancelResponse, KnownItem;
    CancelOthers(s.sys);
    assert OtherEvents(s.sys.ch.log) + [] == OtherEvents(s.sys.ch.log);
  }

  lemma CancelOthers(s: System)
    ensures OtherEvents(CancelResponse(s).ch.log) == OtherEvents(s.ch.log)
  {
    hide OtherEvents;
    var conv := s.ch.conv;
    FinishOthers(s.ch, Cancelled);
    FinishOthers(s.ch.(conv := conv.AppendAssistantTranscript(s.watch.buffer)), Cancelled);
  }

  lemma ItemAnswered(s: Session, g: Ledger, m: Message, pending: bool)
    requires m.ItemCreate?
    ensures Answered(s, m, Expected(g, s.sys.ch.conv.hasResponded, pending, s.sys.ch.conv.nextId, m))
  {
    hide OtherEvents;
    if m.newItem.UserMessage? && m.newItem.text.Some? {
      OneOther(s.sys.ch.log, UserTextItemCreated(m.newItem.id.GetOr(s.sys.ch.conv.nextId), m.newItem.text.value));
    }
  }

  lemma AudioAnswered(s: Session, g: Ledger, m: Message, gate: bool)
    requires m.AudioAppend? || m.AudioCommit? || m.AudioClear? || m.Unusable? || m.SessionUpdate?
    ensures Answered(s, m, Expected(g, gate, s.uncommitted > 0, s.sys.ch.conv.nextId, m))
  {
    hide OtherEvents;
    OneOther(s.sys.ch.log, AudioCleared);
    OneOther(s.sys.ch.log, SessionUpdated);
    assert OtherEvents(s.sys.ch.log) + [] == OtherEvents(s.sys.ch.log);
  }

  lemma MessageAnswered(s: Session, g: Ledger, m: Message)
    requires Holds(s.sys, g)
    ensures Answered(s, m, Expected(g, s.sys.ch.conv.hasResponded, s.uncommitted > 0, s.sys.ch.conv.nextId, m))
  {
    hide Answered, Expected, Holds, SlotOf, KnownItem;
    SlotShows(s, g);
    if m.ResponseCreate? {
      CreateAnswered(s, g, m, s.uncommitted > 0);
    } else if m.ResponseCancel? || m.ItemTruncate? {
      CancelAnswered(s, g, m, s.sys.ch.conv.hasResponded, s.uncommitted > 0);
    } else if m.ItemCreate? {
      ItemAnswered(s, g, m, s.uncommitted > 0);
    } else {
      AudioAnswered(s, g, m, s.sys.ch.conv.hasResponded);
    }
  }

  /** After any run every message gets exactly the answer that the client can expect from what it has seen and sent,
      and responses change with it as `Decides` says. */
  lemma {:induction false} AnsweredAsExpected(
    rate: nat, hasResponded: bool, maxFrames: nat, ins: seq<Input>, m: Message)
    returns (g: Ledger, g': Ledger)
    ensures var s := Run(Start(rate, hasResponded, maxFrames), ins);
            var gate := hasResponded || GateWasOpened(ins) || g.bs != [];
            && Shows(s, g) && Shows(Step(s, Received(m)).0, g') && Decides(s, Received(m), g, g')
            && Answered(s, m, Expected(g, gate, AudioPending(ins), s.sys.ch.conv.nextId, m))
  {
    hide *;
    var s0 := Start(rate, hasResponded, maxFrames);
    g, g' := InputDecides(rate, hasResponded, maxFrames, ins, Received(m));
    MessageAnswered(Run(s0, ins), g, m);
    StartsEmpty(rate, hasResponded, maxFrames);
    RunPending(s0, ins);
    RespondedIs(Run(s0, ins));
  }

  lemma StartsEmpty(rate: nat, hasResponded: bool, maxFrames: nat)
    ensures Start(rate, hasResponded, maxFrames).uncommitted == 0
  {
  }

  // ----- What else the client is told -----

  /** Of frames, only a pipeline error that is handled is told as such. */
  function ToldOfError(s: Session, i: Input): seq<Event> {
    if i.Pushed? && i.push.frame.PipelineError? && Accepts(s.sys.watch, i.push) then [ErrorSent("pipeline_error")]
    else []
  }

  lemma FinishCurrentOthers(s: System, status: Status)
    ensures OtherEvents(s.Finish(status).ch.log) == OtherEvents(s.ch.log)
  {
    hide OtherEvents, Channel.Finish;
    var text := s.watch.BufferFor(s.ch.conv.generation);
    SayOthers(s.ch, text);
    FinishOthers(s.ch, status);
    FinishOthers(Say(s.ch, text), status);
  }

  lemma TurnOthers(s: System, f: Frame)
    requires IsTurnFrame(f)
    ensures OtherEvents(Handle(s, f).ch.log) == OtherEvents(s.ch.log)
  {
    hide OtherEvents;
    TurnEmits(s, f);
    var es := Handle(s, f).ch.log[|s.ch.log|..];
    SameOthers(s.ch.log, es);
    assert Handle(s, f).ch.log == s.ch.log + es;
  }

  lemma TurnEmits(s: System, f: Frame)
    requires IsTurnFrame(f)
    ensures var log := Handle(s, f).ch.log;
            && |log| >= |s.ch.log| && log[..|s.ch.log|] == s.ch.log
            && forall k | |s.ch.log| <= k < |log| :: UserItems.IsUserEvent(log[k])
  {
  }

  /** A frame, audio or the opening of the gate tells the client nothing but of responses, of the user's speech, and of
      pipeline errors. */
  lemma OthersTold(s: Session, i: Input)
    requires !i.Received?
    ensures OtherEvents(Step(s, i).0.sys.ch.log) == OtherEvents(s.sys.ch.log) + ToldOfError(s, i)
  {
    hide OtherEvents, HandleError, System.Finish, StartTurn, StopTurn, HearInterim, ShowTranscript, Say, AnnounceEvents;
    var log := s.sys.ch.log;
    assert OtherEvents(log) + [] == OtherEvents(log);
    match i {
      case Pushed(p) =>
        if Accepts(s.sys.watch, p) {
          FrameOthers(s.sys.(watch := s.sys.watch.Remember(p.id)), p.frame);
        }
      case AudioOut(_, resampled) =>
        AnnounceOthers(s.sys.ch);
        if resampled.Some? {
          var ch := s.sys.ch.Announce();
          SameOthers(ch.log, [AudioDelta(ch.conv.slot.response, ch.conv.slot.item, resampled.value)]);
        }
      case _ =>
    }
  }

  lemma FrameOthers(s: System, f: Frame)
    ensures f.PipelineError? ==>
      OtherEvents(HandleError(s, f.fatal).ch.log) == OtherEvents(s.ch.log) + [ErrorSent("pipeline_error")]
    ensures f.Interruption? ==> OtherEvents(s.Finish(Cancelled).ch.log) == OtherEvents(s.ch.log)
    ensures !f.PipelineError? && !f.Interruption? ==> OtherEvents(Handle(s, f).ch.log) == OtherEvents(s.ch.log)
  {
    hide OtherEvents, System.Finish, Channel.Announce, Say;
    AnnounceOthers(s.ch);
    FinishCurrentOthers(s, Cancelled);
    FinishCurrentOthers(s, Completed);
    if f.PipelineError? {
      ErrorOthers(s, f.fatal);
    } else if IsTurnFrame(f) {
      TurnOthers(s, f);
    } else if f.TtsText? {
      SayOthers(s.ch.Announce(), f.text);
    }
  }

  lemma ErrorOthers(s: System, fatal: bool)
    ensures OtherEvents(HandleError(s, fatal).ch.log) == OtherEvents(s.ch.log) + [ErrorSent("pipeline_error")]
  {
    hide OtherEvents, System.Finish, Channel.Announce;
    var told := s.On(s.ch.Emit(ErrorSent("pipeline_error")));
    OneOther(s.ch.log, ErrorSent("pipeline_error"));
    AnnounceOthers(told.ch);
    FinishCurrentOthers(told, Failed);
    FinishCurrentOthers(told.On(told.ch.Announce()), Failed);
  }
}
