/** The state shared by the observer, the client-message handler and the audio output
    (src/realtime/conversation.py), and the events put on the wire. */
module Conversation {
  import opened Wrappers

  /** A minted `item_…` or `resp_…` id. Minting takes the next number, so ids are fresh. */
  type Id = nat

  datatype Status = InProgress | Completed | Cancelled | Failed

  /** The events of the wire protocol that the handlers emit. */
  datatype Event =
    // scoped to a response
    | ResponseCreated(response: Option<Id>)
    | AssistantItemCreated(item: Option<Id>)
    | OutputItemAdded(response: Option<Id>, item: Option<Id>)
    | ContentPartAdded(response: Option<Id>, item: Option<Id>)
    | AudioDelta(response: Option<Id>, item: Option<Id>, audio: seq<bv8>)
    | TranscriptDelta(response: Option<Id>, item: Option<Id>, delta: string)
    | AudioDone(response: Option<Id>, item: Option<Id>)
    | TranscriptDone(response: Option<Id>, item: Option<Id>, transcript: string)
    | ContentPartDone(response: Option<Id>, item: Option<Id>, transcript: string)
    | OutputItemDone(response: Option<Id>, item: Option<Id>, transcript: string, complete: bool)
    | ResponseDone(response: Option<Id>, item: Option<Id>, transcript: string, status: Status)
    // scoped to a user item
    | SpeechStarted(userItem: Id, startMs: nat)
    | SpeechStopped(userItem: Id, endMs: nat)
    | AudioCommitted(userItem: Id)
    | UserAudioItemCreated(userItem: Id, heard: string)
    | InputTranscriptDelta(userItem: Id, delta: string)
    | InputTranscriptCompleted(userItem: Id, heard: string)
    // others
    | UserTextItemCreated(textItem: Id, text: string)
    | AudioCleared
    | SessionUpdated
    | ErrorSent(code: string)

  /** `ResponseSnapshot`: ids and transcript captured when a response is completed. */
  datatype Snapshot = Snapshot(
    generation: nat, response: Id, item: Option<Id>, transcript: string, status: Status,
    audioDone: bool, transcriptDone: bool)

  /** The user-turn fields. */
  datatype Turn = Turn(
    item: Option<Id>, start: Option<nat>, end: Option<nat>, stopped: bool, announced: bool,
    pending: Option<string>)

  const NO_TURN := Turn(None, None, None, false, false, None)

  /** The response slot. */
  datatype Slot = Slot(
    response: Option<Id>, status: Option<Status>, requested: bool, item: Option<Id>, transcript: string,
    itemAnnounced: bool, partAnnounced: bool, transcriptDone: bool, audioDone: bool)

  const EMPTY_SLOT := Slot(None, None, false, None, "", false, false, false, false)

  function Max(a: int, b: int): int {
    if a < b then b else a
  }

  /** `ConversationState` as a value: the specification of its methods. */
  datatype Conv = Conv(
    turn: Turn, samples: nat, rate: nat, slot: Slot, generation: nat,
    itemTranscripts: map<Id, string>, hasResponded: bool, nextId: Id)
  {
    predicate Active() {
      slot.status == Some(InProgress)
    }

    // ----- user turn -----

    function Ms(samples: nat): nat {
      samples * 1000 / Max(rate, 1)
    }

    function BeginUserItem(): (c: Conv)
      ensures c.turn.item.Some?
    {
      if turn.item.Some? then this
      else this.(turn := turn.(item := Some(nextId)), nextId := nextId + 1)
    }

    function AddInputAudio(bytes: int, sampleRate: int): Conv {
      if bytes <= 0 then this
      else this.(rate := Max(sampleRate, 1), samples := samples + bytes / 2)
    }

    function BeginUserTurn(): (c: Conv)
      ensures c.turn.item.Some? && c.turn.start.Some?
    {
      var c := (if turn.stopped then ClearUserItem() else this).BeginUserItem();
      if c.turn.start.Some? then c
      else c.(turn := Turn(c.turn.item, Some(samples), None, false, false, None))
    }

    function StopUserTurn(): (c: Conv)
      ensures c.turn.item.Some? && c.turn.stopped
    {
      var c := BeginUserItem();
      c.(turn := c.turn.(end := Some(samples), stopped := true))
    }

    function SetUserTranscript(transcript: string): Conv {
      var c := BeginUserItem();
      c.(turn := c.turn.(pending := Some(transcript)))
    }

    function ClearUserItem(): Conv {
      this.(turn := NO_TURN)
    }

    // ----- response -----

    function BeginResponse(): (c: Conv)
      ensures c.slot.response.Some? && c.Active()
    {
      if slot.response.Some? && Active() then this
      else this.(
        slot := Slot(Some(nextId), Some(InProgress), false, Some(nextId + 1), "", false, false, false, false),
        generation := generation + 1,
        nextId := nextId + 2)
    }

    /** Whether `BeginResponse` has to open a new response. */
    predicate Opens() {
      !(slot.response.Some? && Active())
    }

    function AppendAssistantTranscript(text: string): Conv {
      if text == "" then this
      else
        var c := BeginResponse();
        var t := c.slot.transcript + text;
        var kept := if c.slot.item.Some? then c.itemTranscripts[c.slot.item.value := t] else c.itemTranscripts;
        c.(slot := c.slot.(transcript := t), itemTranscripts := kept)
    }

    predicate CanComplete() {
      slot.response.Some? && Active()
    }

    function TakeSnapshot(status: Status): Snapshot
      requires CanComplete()
    {
      Snapshot(generation, slot.response.value, slot.item, slot.transcript, status, slot.audioDone, slot.transcriptDone)
    }

    function CompleteResponse(status: Status): Conv
      requires CanComplete()
    {
      this.(
        itemTranscripts :=
          if slot.item.Some? && slot.transcript != "" then itemTranscripts[slot.item.value := slot.transcript]
          else itemTranscripts,
        slot := slot.(status := Some(status)),
        hasResponded := true)
    }

    function ResetResponseSlot(guard: Option<nat>): Conv {
      if guard.Some? && guard.value != generation then this else this.(slot := EMPTY_SLOT)
    }
  }

  function InitialConv(hasResponded: bool): Conv {
    Conv(NO_TURN, 0, 16000, EMPTY_SLOT, 0, map[], hasResponded, 0)
  }

  /** Events handed to the `emit` callback, in order. */
  class Wire {
    ghost var log: seq<Event>

    constructor ()
      ensures log == []
    {
      log := [];
    }

    method Emit(event: Event)
      modifies this
      ensures log == old(log) + [event]
    {
      log := log + [event];
    }
  }

  /** `ConversationState`. The user-turn fields and the response-slot fields are kept in a record each. */
  class ConversationState {
    var turn: Turn
    var inputAudioSamples: nat
    var inputSampleRate: nat
    var slot: Slot
    var responseGeneration: nat
    var itemTranscripts: map<Id, string>
    var assistantHasResponded: bool
    var nextId: Id

    function View(): Conv
      reads this
    {
      Conv(turn, inputAudioSamples, inputSampleRate, slot, responseGeneration, itemTranscripts,
           assistantHasResponded, nextId)
    }

    constructor (hasResponded: bool)
      ensures View() == InitialConv(hasResponded)
    {
      turn, slot := NO_TURN, EMPTY_SLOT;
      inputAudioSamples, inputSampleRate, responseGeneration := 0, 16000, 0;
      itemTranscripts, assistantHasResponded, nextId := map[], hasResponded, 0;
    }

    method OpenClientText()
      modifies this
      ensures View() == old(View()).(hasResponded := true)
    {
      assistantHasResponded := true;
    }

    method BeginUserItem() returns (id: Id)
      modifies this
      ensures View() == old(View()).BeginUserItem() && Some(id) == turn.item
    {
      if turn.item == None {
        turn := turn.(item := Some(nextId));
        nextId := nextId + 1;
      }
      id := turn.item.value;
    }

    method AddInputAudio(bytes: int, sampleRate: int)
      modifies this
      ensures View() == old(View()).AddInputAudio(bytes, sampleRate)
    {
      if bytes <= 0 { return; }
      inputSampleRate := Max(sampleRate, 1);
      inputAudioSamples := inputAudioSamples + bytes / 2;
    }

    method BeginUserTurn() returns (id: Id, startMs: nat)
      modifies this
      ensures View() == old(View()).BeginUserTurn()
      ensures turn.item == Some(id) && turn.start.Some? && startMs == View().Ms(turn.start.value)
    {
      if turn.stopped {
        ClearUserItem();
      }
      id := BeginUserItem();
      if turn.start == None {
        turn := turn.(start := Some(inputAudioSamples), end := None, stopped := false);
        turn := turn.(announced := false, pending := None);
      }
      startMs := InputMs(turn.start.value);
    }

    method StopUserTurn() returns (id: Id, endMs: nat)
      modifies this
      ensures View() == old(View()).StopUserTurn()
      ensures turn.item == Some(id) && endMs == View().Ms(inputAudioSamples)
    {
      id := BeginUserItem();
      turn := turn.(end := Some(inputAudioSamples), stopped := true);
      endMs := InputMs(inputAudioSamples);
    }

    method SetUserTranscript(transcript: string)
      modifies this
      ensures View() == old(View()).SetUserTranscript(transcript)
    {
      var _ := BeginUserItem();
      turn := turn.(pending := Some(transcript));
    }

    method AnnounceUserItem() returns (isNew: bool)
      modifies this
      ensures isNew == !old(turn).announced
      ensures View() == old(View()).(turn := old(turn).(announced := true))
    {
      if turn.announced { return false; }
      turn := turn.(announced := true);
      isNew := true;
    }

    method ReadyUserTranscript() returns (ready: Option<(Id, string)>)
      modifies this
      ensures if old(turn).stopped && old(turn).pending.Some? then
                View() == old(View()).BeginUserItem() && ready == Some((turn.item.value, old(turn).pending.value))
              else View() == old(View()) && ready == None
    {
      if !turn.stopped || turn.pending == None { return None; }
      var id := BeginUserItem();
      ready := Some((id, turn.pending.value));
    }

    method InputMs(samples: nat) returns (ms: nat)
      ensures ms == View().Ms(samples)
    {
      ms := samples * 1000 / Max(inputSampleRate, 1);
    }

    method ClearUserItem()
      modifies this
      ensures View() == old(View()).ClearUserItem()
    {
      turn := turn.(item := None, start := None, end := None);
      turn := turn.(stopped := false, announced := false, pending := None);
    }

    method BeginResponse() returns (id: Id, created: bool)
      modifies this
      ensures View() == old(View()).BeginResponse() && slot.response == Some(id) && created == old(View()).Opens()
    {
      if slot.response.Some? && slot.status == Some(InProgress) {
        return slot.response.value, false;
      }
      slot := slot.(requested := false);
      responseGeneration := responseGeneration + 1;
      slot := slot.(response := Some(nextId), status := Some(InProgress));
      slot := slot.(item := Some(nextId + 1), transcript := "");
      nextId := nextId + 2;
      slot := slot.(itemAnnounced := false, partAnnounced := false);
      slot := slot.(transcriptDone := false, audioDone := false);
      id, created := slot.response.value, true;
    }

    method RequestResponse() returns (granted: bool)
      modifies this
      ensures granted == (!old(slot).requested && old(slot).status != Some(InProgress))
      ensures View() == if granted then old(View()).(slot := old(slot).(requested := true)) else old(View())
    {
      if slot.requested || slot.status == Some(InProgress) { return false; }
      slot := slot.(requested := true);
      granted := true;
    }

    method ReleaseResponseRequest()
      modifies this
      ensures View() == if old(slot).status != Some(InProgress)
                        then old(View()).(slot := old(slot).(requested := false)) else old(View())
    {
      if slot.status != Some(InProgress) {
        slot := slot.(requested := false);
      }
    }

    method AppendAssistantTranscript(text: string)
      modifies this
      ensures View() == old(View()).AppendAssistantTranscript(text)
    {
      if text == "" { return; }
      var _, _ := BeginResponse();
      slot := slot.(transcript := slot.transcript + text);
      if slot.item.Some? {
        itemTranscripts := itemTranscripts[slot.item.value := slot.transcript];
      }
    }

    method CompleteResponse(status: Status) returns (snap: Option<Snapshot>)
      modifies this
      ensures snap.Some? <==> old(View()).CanComplete()
      ensures if old(View()).CanComplete() then
                && snap == Some(old(View()).TakeSnapshot(status))
                && View() == old(View()).CompleteResponse(status)
              else View() == old(View())
    {
      if slot.response == None || slot.status != Some(InProgress) { return None; }
      if slot.item.Some? && slot.transcript != "" {
        itemTranscripts := itemTranscripts[slot.item.value := slot.transcript];
      }
      snap := Some(Snapshot(responseGeneration, slot.response.value, slot.item, slot.transcript, status,
                            slot.audioDone, slot.transcriptDone));
      slot := slot.(status := Some(status));
      OpenClientText();
    }

    method ResetResponseSlot(generation: Option<nat>)
      modifies this
      ensures View() == old(View()).ResetResponseSlot(generation)
    {
      if generation.Some? && generation.value != responseGeneration { return; }
      slot := slot.(response := None, status := None, requested := false);
      slot := slot.(item := None, transcript := "");
      slot := slot.(itemAnnounced := false, partAnnounced := false);
      slot := slot.(transcriptDone := false, audioDone := false);
    }
  }
}
