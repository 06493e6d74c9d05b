/** The announce and finish sequences of a response (src/realtime/lifecycle.py). */
module Lifecycle {
  import opened Wrappers
  import opened Conversation

  /** The shared state together with everything emitted so far. */
  datatype Channel = Channel(conv: Conv, log: seq<Event>) {
    function Emit(event: Event): Channel {
      this.(log := log + [event])
    }

    function Announce(): Channel {
      var c := conv.BeginResponse();
      Channel(c.(slot := c.slot.(itemAnnounced := true, partAnnounced := true)), log + AnnounceEvents(conv))
    }

    function Finish(status: Status): Channel {
      if !conv.CanComplete() then this
      else Channel(conv.CompleteResponse(status).ResetResponseSlot(Some(conv.generation)),
                   log + FinishEvents(conv.TakeSnapshot(status)))
    }
  }

  /** Events scoped to a response. */
  predicate IsResponseEvent(e: Event) {
    || e.ResponseCreated? || e.AssistantItemCreated? || e.OutputItemAdded? || e.ContentPartAdded?
    || e.AudioDelta? || e.TranscriptDelta?
    || e.AudioDone? || e.TranscriptDone? || e.ContentPartDone? || e.OutputItemDone? || e.ResponseDone?
  }

  /** What `announce_response` puts on the wire. */
  function AnnounceEvents(conv: Conv): seq<Event> {
    var s := conv.BeginResponse().slot;
    (if conv.Opens() then [ResponseCreated(s.response)] else [])
    + (if s.itemAnnounced then [] else [AssistantItemCreated(s.item), OutputItemAdded(s.response, s.item)])
    + (if s.partAnnounced then [] else [ContentPartAdded(s.response, s.item)])
  }

  /** What `emit_finish_from_snapshot` puts on the wire. */
  function FinishEvents(s: Snapshot): seq<Event> {
    var r := Some(s.response);
    (if s.audioDone then [] else [AudioDone(r, s.item)])
    + (if s.transcriptDone then [] else [TranscriptDone(r, s.item, s.transcript)])
    + [ContentPartDone(r, s.item, s.transcript),
       OutputItemDone(r, s.item, s.transcript, s.status == Completed),
       ResponseDone(r, s.item, s.transcript, s.status)]
  }

  method AnnounceResponse(conversation: ConversationState, wire: Wire) returns (id: Id, created: bool)
    modifies conversation, wire
    ensures Channel(conversation.View(), wire.log) == Channel(old(conversation.View()), old(wire.log)).Announce()
    ensures conversation.slot.response == Some(id) && created == old(conversation.View()).Opens()
  {
    id, created := conversation.BeginResponse();
    if created {
      wire.Emit(ResponseCreated(Some(id)));
    }
    if !conversation.slot.itemAnnounced {
      conversation.slot := conversation.slot.(itemAnnounced := true);
      var item := conversation.slot.item;
      wire.Emit(AssistantItemCreated(item));
      wire.Emit(OutputItemAdded(Some(id), item));
    }
    if !conversation.slot.partAnnounced {
      conversation.slot := conversation.slot.(partAnnounced := true);
      wire.Emit(ContentPartAdded(Some(id), conversation.slot.item));
    }
  }

  method EmitFinishFromSnapshot(snap: Snapshot, wire: Wire)
    modifies wire
    ensures wire.log == old(wire.log) + FinishEvents(snap)
  {
    var response, item, transcript := Some(snap.response), snap.item, snap.transcript;
    if !snap.audioDone {
      wire.Emit(AudioDone(response, item));
    }
    if !snap.transcriptDone {
      wire.Emit(TranscriptDone(response, item, transcript));
    }
    wire.Emit(ContentPartDone(response, item, transcript));
    wire.Emit(OutputItemDone(response, item, transcript, snap.status == Completed));
    wire.Emit(ResponseDone(response, item, transcript, snap.status));
  }

  method FinishResponse(conversation: ConversationState, wire: Wire, status: Status) returns (finished: bool)
    modifies conversation, wire
    ensures Channel(conversation.View(), wire.log) == Channel(old(conversation.View()), old(wire.log)).Finish(status)
    ensures finished == old(conversation.View()).CanComplete()
  {
    var snap := conversation.CompleteResponse(status);
    if snap == None { return false; }
    EmitFinishFromSnapshot(snap.value, wire);
    conversation.ResetResponseSlot(Some(snap.value.generation));
    finished := true;
  }
}
