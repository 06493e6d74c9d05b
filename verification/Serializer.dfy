/** The client side of the wire: inbound messages and outbound audio (src/realtime/serializer.py). */
module Serializer {
  import opened Wrappers
  import opened Conversation
  import opened Lifecycle
  import opened Observer

  const MAX_PENDING_INPUT_BYTES := 16000 * 2 * 60

  /** The item of a `conversation.item.create` message. */
  datatype ClientItem =
    | NotAnObject
    | FunctionCallOutput
    | OtherItem
    | UserMessage(id: Option<Id>, text: Option<string>)

  /** A client message after JSON decoding. `Unusable` stands for everything rejected before dispatch. An
      absent value (`None`) is a field that is missing or of the wrong type. Client-chosen ids are arbitrary.
      `pcm` is the number of bytes decoded and resampled, or the code of the error that stopped it; `applied` is
      the voice set by an accepted session update, or the code of the rejection. */
  datatype Message =
    | Unusable(code: string)
    | AudioAppend(pcm: Result<nat, string>)
    | AudioCommit
    | AudioClear
    | ResponseCreate(overridden: bool)
    | ResponseCancel(response: Option<Id>)
    | ItemTruncate(item: Option<Id>, audioEndMs: Option<int>)
    | ItemCreate(newItem: ClientItem)
    | SessionUpdate(applied: Result<Option<string>, string>)

  /** The pipeline frame a message is turned into. */
  datatype OutFrame = LlmRun | Interrupt | AppendUserText(text: string) | InputAudio(pcmBytes: nat)
                    | UpdateVoice(voice: string)

  // ----- Specification -----

  datatype Session = Session(sys: System, pipelineRate: nat, uncommitted: nat) {
    function On(ch: Channel): Session {
      this.(sys := sys.On(ch))
    }

    function Reject(code: string): Session {
      On(sys.ch.Emit(ErrorSent(code)))
    }
  }

  function CancelResponse(s: System): System {
    var text := s.watch.buffer;
    var conv := s.ch.conv;
    var conv' := if text != "" && conv.slot.transcript == "" then conv.AppendAssistantTranscript(text) else conv;
    System(s.ch.(conv := conv').Finish(Cancelled), s.watch.ForgetText().ForgetFrames())
  }

  function Append(s: Session, pcm: Result<nat, string>): (Session, Option<OutFrame>) {
    match pcm
    case Failure(code) => (s.Reject(code), None)
    case Success(n) =>
      if n == 0 then (s, None)
      else if n > MAX_PENDING_INPUT_BYTES then (s.Reject("input_buffer_overflow"), None)
      else
        var ch := s.sys.ch;
        var heard := ch.(conv := ch.conv.AddInputAudio(n, s.pipelineRate));
        (s.On(heard).(uncommitted := s.uncommitted + n), Some(InputAudio(n)))
  }

  function Create(s: Session, overridden: bool): (Session, Option<OutFrame>) {
    var ch := s.sys.ch;
    if !ch.conv.hasResponded then (s.Reject("response_create_rejected_pre_intro"), None)
    else if overridden then (s.Reject("unsupported_response_override"), None)
    else if ch.conv.slot.requested || ch.conv.Active() then (s.Reject("conversation_already_has_active_response"), None)
    else
      var reserved := ch.(conv := ch.conv.(slot := ch.conv.slot.(requested := true)));
      (s.On(reserved.Announce()), Some(LlmRun))
  }

  function Cancel(s: Session, response: Option<Id>): (Session, Option<OutFrame>) {
    var slot := s.sys.ch.conv.slot;
    if !s.sys.ch.conv.Active() || slot.response == None then (s, None)
    else if response.Some? && response != slot.response then (s.Reject("invalid_value"), None)
    else (s.(sys := CancelResponse(s.sys)), Some(Interrupt))
  }

  function Truncate(s: Session, item: Option<Id>, audioEndMs: Option<int>): (Session, Option<OutFrame>) {
    var conv := s.sys.ch.conv;
    if item == None || audioEndMs == None || audioEndMs.value < 0 then (s.Reject("invalid_truncate"), None)
    else if item != conv.slot.item && item.value !in conv.itemTranscripts then (s.Reject("invalid_truncate"), None)
    else if !conv.Active() then (s, None)
    else (s.(sys := CancelResponse(s.sys)), Some(Interrupt))
  }

  function CreateItem(s: Session, item: ClientItem): (Session, Option<OutFrame>) {
    match item
    case NotAnObject => (s.Reject("invalid_item"), None)
    case FunctionCallOutput => (s.Reject("unsupported_item"), None)
    case OtherItem => (s.Reject("unsupported_item"), None)
    case UserMessage(id, text) =>
      if text == None then (s.Reject("invalid_item"), None)
      else if !s.sys.ch.conv.hasResponded then (s.Reject("item_rejected_pre_intro"), None)
      else
        var ch := s.sys.ch;
        var item := id.GetOr(ch.conv.nextId);
        var ch' := if id.Some? then ch else ch.(conv := ch.conv.(nextId := ch.conv.nextId + 1));
        (s.On(ch'.Emit(UserTextItemCreated(item, text.value))), Some(AppendUserText(text.value)))
  }

  function UpdateSession(s: Session, applied: Result<Option<string>, string>): (Session, Option<OutFrame>) {
    match applied
    case Failure(code) => (s.Reject(code), None)
    case Success(voice) =>
      (s.On(s.sys.ch.Emit(SessionUpdated)), if voice.Some? then Some(UpdateVoice(voice.value)) else None)
  }

  /** `deserialize`. */
  function Receive(s: Session, m: Message): (Session, Option<OutFrame>) {
    match m
    case Unusable(code) => (s.Reject(code), None)
    case AudioAppend(pcm) => Append(s, pcm)
    case AudioCommit =>
      if s.uncommitted == 0 then (s.Reject("input_audio_buffer_commit_empty"), None)
      else (s.(uncommitted := 0), None)
    case AudioClear => (s.On(s.sys.ch.Emit(AudioCleared)).(uncommitted := 0), None)
    case ResponseCreate(overridden) => Create(s, overridden)
    case ResponseCancel(response) => Cancel(s, response)
    case ItemTruncate(item, audioEndMs) => Truncate(s, item, audioEndMs)
    case ItemCreate(item) => CreateItem(s, item)
    case SessionUpdate(applied) => UpdateSession(s, applied)
  }

  /** `_serialize_output_audio`; `resampled` is what the resampler makes of the frame, if it does not fail. */
  function SendAudio(ch: Channel, pcm: seq<bv8>, resampled: Option<seq<bv8>>): Channel {
    if pcm == [] || resampled == None || !ch.conv.Active() then ch
    else
      var ch' := ch.Announce();
      ch'.Emit(AudioDelta(ch'.conv.slot.response, ch'.conv.slot.item, resampled.value))
  }

  // ----- The serializer -----

  class FrameSerializer {
    const conversation: ConversationState
    const wire: Wire
    const observer: LifecycleObserver
    const pipelineRate: nat
    var bytesSinceCommit: nat

    ghost function View(): Session
      reads this, observer, observer.conversation, observer.wire
    {
      Session(observer.View(), pipelineRate, bytesSinceCommit)
    }

    /** The serializer and the observer share their conversation and their wire. */
    ghost predicate Valid()
    {
      observer.conversation == conversation && observer.wire == wire
    }

    constructor (observer: LifecycleObserver, pipelineRate: nat)
      ensures Valid() && this.observer == observer && this.pipelineRate == pipelineRate && bytesSinceCommit == 0
    {
      this.conversation, this.wire, this.observer := observer.conversation, observer.wire, observer;
      this.pipelineRate, bytesSinceCommit := pipelineRate, 0;
    }

    method Reject(code: string)
      requires Valid()
      modifies wire
      ensures View() == old(View()).Reject(code)
    {
      wire.Emit(ErrorSent(code));
    }

    method EmitCancelledResponse()
      requires Valid()
      modifies observer, conversation, wire
      ensures observer.View() == CancelResponse(old(observer.View()))
    {
      var buffered := observer.OnResponseCancelled();
      if buffered != "" && conversation.slot.transcript == "" {
        conversation.AppendAssistantTranscript(buffered);
      }
      var _ := FinishResponse(conversation, wire, Cancelled);
    }

    method DeserializeAppend(pcm: Result<nat, string>) returns (out: Option<OutFrame>)
      requires Valid()
      modifies this, conversation, wire
      ensures (View(), out) == Append(old(View()), pcm)
    {
      if pcm.Failure? {
        Reject(pcm.error);
        return None;
      }
      var n := pcm.value;
      if n == 0 { return None; }
      if n > MAX_PENDING_INPUT_BYTES {
        Reject("input_buffer_overflow");
        return None;
      }
      bytesSinceCommit := bytesSinceCommit + n;
      conversation.AddInputAudio(n, pipelineRate);
      out := Some(InputAudio(n));
    }

    method DeserializeCreate(overridden: bool) returns (out: Option<OutFrame>)
      requires Valid()
      modifies conversation, wire
      ensures (View(), out) == Create(old(View()), overridden)
    {
      if !conversation.assistantHasResponded {
        Reject("response_create_rejected_pre_intro");
        return None;
      }
      if overridden {
        Reject("unsupported_response_override");
        return None;
      }
      var granted := conversation.RequestResponse();
      if !granted {
        Reject("conversation_already_has_active_response");
        return None;
      }
      var _, _ := AnnounceResponse(conversation, wire);
      out := Some(LlmRun);
    }

    method DeserializeCancel(response: Option<Id>) returns (out: Option<OutFrame>)
      requires Valid()
      modifies observer, conversation, wire
      ensures (View(), out) == Cancel(old(View()), response)
    {
      var active := conversation.slot.response;
      if conversation.slot.status != Some(InProgress) || active == None { return None; }
      if response.Some? && response != active {
        Reject("invalid_value");
        return None;
      }
      EmitCancelledResponse();
      out := Some(Interrupt);
    }

    method DeserializeTruncate(item: Option<Id>, audioEndMs: Option<int>) returns (out: Option<OutFrame>)
      requires Valid()
      modifies observer, conversation, wire
      ensures (View(), out) == Truncate(old(View()), item, audioEndMs)
    {
      if item == None || audioEndMs == None || audioEndMs.value < 0 {
        Reject("invalid_truncate");
        return None;
      }
      var known := item == conversation.slot.item || item.value in conversation.itemTranscripts;
      if !known {
        Reject("invalid_truncate");
        return None;
      }
      if conversation.slot.status != Some(InProgress) { return None; }
      EmitCancelledResponse();
      out := Some(Interrupt);
    }

    method DeserializeItemCreate(newItem: ClientItem) returns (out: Option<OutFrame>)
      requires Valid()
      modifies conversation, wire
      ensures (View(), out) == CreateItem(old(View()), newItem)
    {
      match newItem
      case NotAnObject => Reject("invalid_item"); return None;
      case FunctionCallOutput => Reject("unsupported_item"); return None;
      case OtherItem => Reject("unsupported_item"); return None;
      case UserMessage(id, text) =>
        if text == None {
          Reject("invalid_item");
          return None;
        }
        if !conversation.assistantHasResponded {
          Reject("item_rejected_pre_intro");
          return None;
        }
        var item := id.GetOr(conversation.nextId);
        if id == None {
          conversation.nextId := conversation.nextId + 1;
        }
        wire.Emit(UserTextItemCreated(item, text.value));
        out := Some(AppendUserText(text.value));
    }

    method Deserialize(m: Message) returns (out: Option<OutFrame>)
      requires Valid()
      modifies this, observer, conversation, wire
      ensures (View(), out) == Receive(old(View()), m)
    {
      match m
      case Unusable(code) => Reject(code); out := None;
      case AudioAppend(pcm) => out := DeserializeAppend(pcm);
      case AudioCommit =>
        out := None;
        if bytesSinceCommit <= 0 {
          Reject("input_audio_buffer_commit_empty");
          return;
        }
        bytesSinceCommit := 0;
      case AudioClear =>
        bytesSinceCommit := 0;
        wire.Emit(AudioCleared);
        out := None;
      case ResponseCreate(overridden) => out := DeserializeCreate(overridden);
      case ResponseCancel(response) => out := DeserializeCancel(response);
      case ItemTruncate(item, audioEndMs) => out := DeserializeTruncate(item, audioEndMs);
      case ItemCreate(newItem) => out := DeserializeItemCreate(newItem);
      case SessionUpdate(applied) =>
        out := None;
        if applied.Failure? {
          Reject(applied.error);
          return;
        }
        wire.Emit(SessionUpdated);
        if applied.value.Some? {
          out := Some(UpdateVoice(applied.value.value));
        }
    }

    method SerializeOutputAudio(pcm: seq<bv8>, resampled: Option<seq<bv8>>)
      requires Valid()
      modifies conversation, wire
      ensures observer.ChannelView() == SendAudio(old(observer.ChannelView()), pcm, resampled)
    {
      if pcm == [] || resampled == None { return; }
      if conversation.slot.status != Some(InProgress) { return; }
      var response, _ := AnnounceResponse(conversation, wire);
      wire.Emit(AudioDelta(Some(response), conversation.slot.item, resampled.value));
    }
  }
}
