/** The pipeline observer that turns frames into wire events (src/realtime/observer.py). */
module Observer {
  import opened Wrappers
  import opened Conversation
  import opened Lifecycle

  /** The frames the observer tells apart, with the text they carry. */
  datatype Frame =
    | UserStartedSpeaking
    | UserStoppedSpeaking
    | InterimTranscription(text: string)
    | Transcription(text: string)
    | BotStartedSpeaking
    | TtsText(text: string)
    | LlmText(text: string)
    | LlmResponseEnd(skipTts: bool)
    | TtsStopped(fromOutput: bool)
    | ToolCall
    | PipelineError(fatal: bool)
    | Interruption
    | Unobserved

  /** One call of `on_push_frame`. */
  datatype Push = Push(frame: Frame, id: nat, downstream: bool)

  // ----- Specification -----

  /** The observer's own fields. */
  datatype Watch = Watch(
    processed: set<nat>, history: seq<nat>, maxFrames: nat, fromTts: bool, buffer: string, bufferGeneration: nat)
  {
    function Remember(id: nat): Watch {
      if id in processed then this
      else
        var h := Bounded(history + [id], maxFrames);
        var p := processed + {id};
        this.(history := h, processed := if |p| > |h| then Elements(h) else p)
    }

    function ForgetText(): Watch {
      this.(fromTts := false, buffer := "", bufferGeneration := 0)
    }

    function ForgetFrames(): Watch {
      this.(processed := {}, history := [])
    }

    /** The buffered LLM text, unless it was buffered for another response. */
    function BufferFor(generation: nat): string {
      if bufferGeneration != generation then "" else buffer
    }
  }

  function InitialWatch(maxFrames: nat): Watch {
    Watch({}, [], maxFrames, false, "", 0)
  }

  /** `deque(maxlen=…)`: appending to a full deque drops the oldest element. */
  function Bounded(h: seq<nat>, limit: nat): seq<nat> {
    if |h| > limit then h[|h| - limit..] else h
  }

  function Elements(h: seq<nat>): set<nat> {
    set x | x in h
  }

  predicate EndsWith(s: string, t: string) {
    |t| <= |s| && s[|s| - |t|..] == t
  }

  /** The shared state, the wire and the observer. */
  datatype System = System(ch: Channel, watch: Watch) {
    function On(ch': Channel): System {
      this.(ch := ch')
    }

    function Finish(status: Status): System {
      if !ch.conv.Active() then this.(watch := watch.ForgetText())
      else
        var text := watch.BufferFor(ch.conv.generation);
        var told := if !watch.fromTts && text != "" && ch.conv.slot.transcript == "" then Say(ch, text) else ch;
        System(told.Finish(status), watch.ForgetText().ForgetFrames())
    }
  }

  /** Append to the transcript and tell the client. */
  function Say(ch: Channel, text: string): Channel {
    var c := ch.conv.AppendAssistantTranscript(text);
    Channel(c, ch.log + [TranscriptDelta(c.slot.response, c.slot.item, text)])
  }

  function ShowUserItem(ch: Channel, item: Id): Channel {
    if ch.conv.turn.announced then ch
    else Channel(ch.conv.(turn := ch.conv.turn.(announced := true)),
                 ch.log + [UserAudioItemCreated(item, ch.conv.turn.pending.GetOr(""))])
  }

  function ShowTranscript(ch: Channel): Channel {
    if !ch.conv.turn.stopped || ch.conv.turn.pending == None then ch
    else
      var text := ch.conv.turn.pending.value;
      var c := ch.conv.BeginUserItem();
      var shown := ShowUserItem(ch.(conv := c), c.turn.item.value);
      Channel(shown.conv.ClearUserItem(), shown.log + [InputTranscriptCompleted(c.turn.item.value, text)])
  }

  function StartTurn(ch: Channel): Channel {
    var c := ch.conv.BeginUserTurn();
    Channel(c, ch.log + [SpeechStarted(c.turn.item.value, c.Ms(c.turn.start.value))])
  }

  function StopTurn(ch: Channel): Channel {
    var c := ch.conv.StopUserTurn();
    var item := c.turn.item.value;
    var stopped := [SpeechStopped(item, c.Ms(c.samples)), AudioCommitted(item)];
    ShowTranscript(ShowUserItem(Channel(c, ch.log + stopped), item))
  }

  function HearInterim(ch: Channel, text: string): Channel {
    if ch.conv.turn.start == None || ch.conv.turn.stopped then ch
    else
      var c := ch.conv.BeginUserItem();
      Channel(c, ch.log + [InputTranscriptDelta(c.turn.item.value, text)])
  }

  function SpeakTts(s: System, text: string): System {
    if text == "" then s
    else
      var ch := s.ch.Announce();
      var w := s.watch.ForgetText().(fromTts := true);
      System(if EndsWith(ch.conv.slot.transcript, text) then ch else Say(ch, text), w)
  }

  function BufferLlm(s: System, text: string): System {
    if text == "" then s
    else
      var ch := s.ch.Announce();
      System(ch, s.watch.(buffer := s.watch.buffer + text, bufferGeneration := ch.conv.generation))
  }

  /** `_handle_frame`. */
  function Handle(s: System, frame: Frame): System {
    match frame
    case UserStartedSpeaking => s.On(StartTurn(s.ch))
    case UserStoppedSpeaking => s.On(StopTurn(s.ch))
    case InterimTranscription(text) => s.On(HearInterim(s.ch, text))
    case Transcription(text) => s.On(ShowTranscript(s.ch.(conv := s.ch.conv.SetUserTranscript(text))))
    case BotStartedSpeaking =>
      System(s.ch.Announce(), if s.ch.conv.Opens() then s.watch.ForgetText() else s.watch)
    case TtsText(text) => SpeakTts(s, text)
    case LlmText(text) => BufferLlm(s, text)
    case LlmResponseEnd(skipTts) => if skipTts then s.Finish(Completed) else s
    case TtsStopped(_) => s.Finish(Completed)
    case _ => s
  }

  /** `on_push_frame` for a pipeline error. */
  function HandleError(s: System, fatal: bool): System {
    var told := s.On(s.ch.Emit(ErrorSent("pipeline_error")));
    if fatal then
      (if told.ch.conv.slot.requested then told.On(told.ch.Announce()) else told).Finish(Failed)
    else if told.ch.conv.Active() then told
    else told.On(told.ch.(conv := told.ch.conv.(slot := told.ch.conv.slot.(requested := false))))
  }

  /** Frames that are looked at before the direction is. */
  predicate EitherWay(frame: Frame) {
    frame.PipelineError? || frame.Interruption?
  }

  /** Whether a frame gets past the filters in front of the dedupe. */
  predicate Relevant(p: Push) {
    || EitherWay(p.frame)
    || (p.downstream && !p.frame.Unobserved? && p.frame != TtsStopped(false))
  }

  /** Whether `on_push_frame` handles a frame. */
  predicate Accepts(w: Watch, p: Push) {
    Relevant(p) && p.id !in w.processed
  }

  /** `on_push_frame`. */
  function Observe(s: System, p: Push): System {
    if !Accepts(s.watch, p) then s
    else
      var s' := s.(watch := s.watch.Remember(p.id));
      match p.frame
      case PipelineError(fatal) => HandleError(s', fatal)
      case Interruption => s'.Finish(Cancelled)
      case _ => Handle(s', p.frame)
  }

  // ----- The observer -----

  class LifecycleObserver {
    const conversation: ConversationState
    const wire: Wire
    const maxFrames: nat
    var processedFrames: set<nat>
    var frameHistory: seq<nat>
    var botTranscriptFromTts: bool
    var llmTextBuffer: string
    var llmTextGeneration: nat

    function WatchView(): Watch
      reads this
    {
      Watch(processedFrames, frameHistory, maxFrames, botTranscriptFromTts, llmTextBuffer, llmTextGeneration)
    }

    ghost function ChannelView(): Channel
      reads conversation, wire
    {
      Channel(conversation.View(), wire.log)
    }

    ghost function View(): System
      reads this, conversation, wire
    {
      System(ChannelView(), WatchView())
    }

    constructor (conversation: ConversationState, wire: Wire, maxFrames: nat := 4096)
      ensures this.conversation == conversation && this.wire == wire
      ensures WatchView() == InitialWatch(maxFrames)
    {
      this.conversation, this.wire, this.maxFrames := conversation, wire, maxFrames;
      processedFrames, frameHistory := {}, [];
      botTranscriptFromTts, llmTextBuffer, llmTextGeneration := false, "", 0;
    }

    method ClearFrameDedupe()
      modifies this
      ensures WatchView() == old(WatchView()).ForgetFrames()
    {
      processedFrames := {};
      frameHistory := [];
    }

    method RememberFrame(id: nat) returns (isNew: bool)
      modifies this
      ensures isNew == (id !in old(processedFrames)) && WatchView() == old(WatchView()).Remember(id)
    {
      if id in processedFrames { return false; }
      processedFrames := processedFrames + {id};
      frameHistory := Bounded(frameHistory + [id], maxFrames);
      if |processedFrames| > |frameHistory| {
        processedFrames := Elements(frameHistory);
      }
      isNew := true;
    }

    method ForgetText()
      modifies this
      ensures WatchView() == old(WatchView()).ForgetText()
    {
      llmTextBuffer := "";
      llmTextGeneration := 0;
      botTranscriptFromTts := false;
    }

    /** Invalidate buffered LLM text for a cancelled turn and return it. */
    method OnResponseCancelled() returns (text: string)
      modifies this
      ensures text == old(llmTextBuffer)
      ensures WatchView() == old(WatchView()).ForgetText().ForgetFrames()
    {
      text := llmTextBuffer;
      ForgetText();
      ClearFrameDedupe();
    }

    method EmitTranscriptDelta(text: string)
      modifies wire
      ensures wire.log == old(wire.log) + [TranscriptDelta(conversation.slot.response, conversation.slot.item, text)]
    {
      wire.Emit(TranscriptDelta(conversation.slot.response, conversation.slot.item, text));
    }

    method EmitUserItemIfNeeded(item: Id)
      modifies conversation, wire
      ensures ChannelView() == ShowUserItem(old(ChannelView()), item)
    {
      var isNew := conversation.AnnounceUserItem();
      if !isNew { return; }
      wire.Emit(UserAudioItemCreated(item, conversation.turn.pending.GetOr("")));
    }

    method EmitUserTranscriptIfReady()
      modifies conversation, wire
      ensures ChannelView() == ShowTranscript(old(ChannelView()))
    {
      var ready := conversation.ReadyUserTranscript();
      if ready == None { return; }
      var (item, transcript) := ready.value;
      EmitUserItemIfNeeded(item);
      wire.Emit(InputTranscriptCompleted(item, transcript));
      conversation.ClearUserItem();
    }

    method FinishCurrent(status: Status)
      modifies this, conversation, wire
      ensures View() == old(View()).Finish(status)
    {
      if conversation.slot.status != Some(InProgress) {
        ForgetText();
        return;
      }
      var buffer := llmTextBuffer;
      if llmTextGeneration != conversation.responseGeneration {
        buffer := "";
      }
      if !botTranscriptFromTts && buffer != "" && conversation.slot.transcript == "" {
        conversation.AppendAssistantTranscript(buffer);
        EmitTranscriptDelta(buffer);
      }
      var _ := FinishResponse(conversation, wire, status);
      ForgetText();
      ClearFrameDedupe();
    }

    method HandleTurnFrame(frame: Frame)
      requires frame.UserStartedSpeaking? || frame.UserStoppedSpeaking? || frame.InterimTranscription? ||
        frame.Transcription?
      modifies conversation, wire
      ensures View() == Handle(old(View()), frame)
    {
      match frame
      case UserStartedSpeaking =>
        var item, startMs := conversation.BeginUserTurn();
        wire.Emit(SpeechStarted(item, startMs));
      case UserStoppedSpeaking =>
        var item, endMs := conversation.StopUserTurn();
        wire.Emit(SpeechStopped(item, endMs));
        wire.Emit(AudioCommitted(item));
        assert ChannelView().log == old(wire.log) + [SpeechStopped(item, endMs), AudioCommitted(item)];
        EmitUserItemIfNeeded(item);
        EmitUserTranscriptIfReady();
      case InterimTranscription(text) =>
        if conversation.turn.start == None || conversation.turn.stopped { return; }
        var item := conversation.BeginUserItem();
        wire.Emit(InputTranscriptDelta(item, text));
      case Transcription(text) =>
        conversation.SetUserTranscript(text);
        EmitUserTranscriptIfReady();
    }

    method HandleTtsText(text: string)
      modifies this, conversation, wire
      ensures View() == SpeakTts(old(View()), text)
    {
      if text == "" { return; }
      var _, _ := AnnounceResponse(conversation, wire);
      var repeated := EndsWith(conversation.slot.transcript, text);
      if !repeated {
        conversation.AppendAssistantTranscript(text);
      }
      ForgetText();
      botTranscriptFromTts := true;
      if !repeated {
        EmitTranscriptDelta(text);
      }
    }

    method HandleLlmText(text: string)
      modifies this, conversation, wire
      ensures View() == BufferLlm(old(View()), text)
    {
      if text == "" { return; }
      var _, _ := AnnounceResponse(conversation, wire);
      llmTextBuffer := llmTextBuffer + text;
      llmTextGeneration := conversation.responseGeneration;
    }

    method HandleFrame(frame: Frame)
      modifies this, conversation, wire
      ensures View() == Handle(old(View()), frame)
    {
      match frame
      case UserStartedSpeaking => HandleTurnFrame(frame);
      case UserStoppedSpeaking => HandleTurnFrame(frame);
      case InterimTranscription(_) => HandleTurnFrame(frame);
      case Transcription(_) => HandleTurnFrame(frame);
      case BotStartedSpeaking =>
        var _, created := AnnounceResponse(conversation, wire);
        if created {
          ForgetText();
        }
      case TtsText(text) => HandleTtsText(text);
      case LlmText(text) => HandleLlmText(text);
      case LlmResponseEnd(skipTts) =>
        if skipTts {
          FinishCurrent(Completed);
        }
      case TtsStopped(_) => FinishCurrent(Completed);
      case _ =>
    }

    method HandlePipelineError(fatal: bool)
      modifies this, conversation, wire
      ensures View() == HandleError(old(View()), fatal)
    {
      wire.Emit(ErrorSent("pipeline_error"));
      if fatal {
        if conversation.slot.requested {
          var _, _ := AnnounceResponse(conversation, wire);
        }
        FinishCurrent(Failed);
      } else {
        conversation.ReleaseResponseRequest();
      }
    }

    method OnPushFrame(p: Push)
      modifies this, conversation, wire
      ensures View() == Observe(old(View()), p)
    {
      hide Handle, HandleError, System.Finish;
      if p.frame.PipelineError? {
        var isNew := RememberFrame(p.id);
        if isNew {
          HandlePipelineError(p.frame.fatal);
        }
        return;
      }
      if p.frame.Interruption? {
        var isNew := RememberFrame(p.id);
        if isNew {
          FinishCurrent(Cancelled);
        }
        return;
      }
      if p.frame.TtsStopped? && !p.frame.fromOutput { return; }
      if !p.downstream { return; }
      if p.frame.Unobserved? { return; }
      var isNew := RememberFrame(p.id);
      if isNew {
        HandleFrame(p.frame);
      }
    }
  }
}
