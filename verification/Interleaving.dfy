/** The response protocol when every `await emit` is a scheduling point: a task runs from one emit to the next,
    and any number of tasks interleave over the shared conversation state. */
module Interleaving {
  import opened Wrappers
  import opened Conversation
  import opened Lifecycle
  import Observer

  /** A status that ends a response. */
  type Final = s: Status | s != InProgress witness Completed

  /** What a task goes on to do once `announce_response` has returned. */
  datatype After =
    | Nothing
    | SayText(text: string)
    | PlayAudio(audio: seq<bv8>)
    | FinishFailed(untold: string)

  /** Where a task stands inside `announce_response`: what it does when its last emit has returned. */
  datatype Stage = CheckItem | TellItemAdded(item: Option<Id>) | CheckPart | Announced

  /** A task is idle, or waits for an emit to return: inside an announcement; having told untold text, before it
      finishes the response; or inside a finish sequence with `sent` events sent. */
  datatype Task =
    | Idle
    | Announcing(response: Id, stage: Stage, after: After)
    | Telling(status: Final)
    | Finishing(snap: Snapshot, sent: nat)

  datatype World = World(conv: Conv, tasks: seq<Task>, log: seq<Event>) {
    function Put(t: nat, task: Task): World
      requires t < |tasks|
    {
      this.(tasks := tasks[t := task])
    }

    function Emit(e: Event): World {
      this.(log := log + [e])
    }

    function On(c: Conv): World {
      this.(conv := c)
    }

    predicate Free(t: nat) {
      t < |tasks| && tasks[t].Idle?
    }
  }

  /** One uninterrupted piece of work. Pieces that are not possible in a world leave it unchanged. */
  datatype Act =
    | BeginAnnounce(t: nat, after: After, requested: bool)
    | ObserverFinish(t: nat, untold: string, status: Final)
    | ClientFinish(t: nat, untold: string)
    | Resume(t: nat)
    | ReleaseRequest
    | UserWork(turn: Turn, samples: nat, rate: nat, minted: nat, event: Event)

  /** The events of a finish sequence. */
  predicate IsClosing(e: Event) {
    e.AudioDone? || e.TranscriptDone? || e.ContentPartDone? || e.OutputItemDone? || e.ResponseDone?
  }

  // ----- The pieces of work -----

  /** The next event of a finish sequence. */
  function SendOne(w: World, t: nat): World
    requires t < |w.tasks| && w.tasks[t].Finishing? && w.tasks[t].sent < |FinishEvents(w.tasks[t].snap)|
  {
    var f := w.tasks[t];
    w.Put(t, f.(sent := f.sent + 1)).Emit(FinishEvents(f.snap)[f.sent])
  }

  /** `finish_response` up to its first emit. */
  function Complete(w: World, t: nat, status: Final): World
    requires t < |w.tasks|
  {
    if !w.conv.CanComplete() then w.Put(t, Idle)
    else SendOne(w.On(w.conv.CompleteResponse(status)).Put(t, Finishing(w.conv.TakeSnapshot(status), 0)), t)
  }

  function Say(w: World, text: string): World {
    var c := w.conv.AppendAssistantTranscript(text);
    w.On(c).Emit(TranscriptDelta(c.slot.response, c.slot.item, text))
  }

  /** The observer's `_finish_response` up to its first emit. */
  function FinishUp(w: World, t: nat, untold: string, status: Final): World
    requires t < |w.tasks|
  {
    if !w.conv.Active() then w.Put(t, Idle)
    else if untold != "" && w.conv.slot.transcript == "" then Say(w, untold).Put(t, Telling(status))
    else Complete(w, t, status)
  }

  /** The serializer's `_emit_cancelled_response` up to its first emit. */
  function Cancel(w: World, t: nat, untold: string): World
    requires t < |w.tasks|
  {
    var c := if untold != "" && w.conv.slot.transcript == "" then w.conv.AppendAssistantTranscript(untold) else w.conv;
    Complete(w.On(c), t, Cancelled)
  }

  /** What follows `announce_response` in the same piece of work. The audio event carries the response that was
      announced and the item of the slot. */
  function GoOn(w: World, t: nat, response: Id, after: After): World
    requires t < |w.tasks|
  {
    match after
    case Nothing => w.Put(t, Idle)
    case SayText(text) =>
      if Observer.EndsWith(w.conv.slot.transcript, text) then w.Put(t, Idle) else Say(w, text).Put(t, Idle)
    case PlayAudio(audio) => w.Put(t, Idle).Emit(AudioDelta(Some(response), w.conv.slot.item, audio))
    case FinishFailed(untold) => FinishUp(w, t, untold, Failed)
  }

  function AnnouncePart(w: World, t: nat, response: Id, after: After): World
    requires t < |w.tasks|
  {
    if w.conv.slot.partAnnounced then GoOn(w, t, response, after)
    else
      w.On(w.conv.(slot := w.conv.slot.(partAnnounced := true)))
       .Put(t, Announcing(response, Announced, after))
       .Emit(ContentPartAdded(Some(response), w.conv.slot.item))
  }

  function AnnounceItem(w: World, t: nat, response: Id, after: After): World
    requires t < |w.tasks|
  {
    if w.conv.slot.itemAnnounced then AnnouncePart(w, t, response, after)
    else
      w.On(w.conv.(slot := w.conv.slot.(itemAnnounced := true)))
       .Put(t, Announcing(response, TellItemAdded(w.conv.slot.item), after))
       .Emit(AssistantItemCreated(w.conv.slot.item))
  }

  /** `announce_response` up to its first emit. */
  function Announce(w: World, t: nat, after: After): World
    requires t < |w.tasks|
  {
    var c := w.conv.BeginResponse();
    var response := c.slot.response.value;
    if w.conv.Opens() then w.On(c).Put(t, Announcing(response, CheckItem, after)).Emit(ResponseCreated(Some(response)))
    else AnnounceItem(w.On(c), t, response, after)
  }

  /** A task goes on to its next emit. */
  function Continue(w: World, t: nat): World
    requires t < |w.tasks|
  {
    match w.tasks[t]
    case Idle => w
    case Announcing(response, stage, after) => (
      match stage
      case CheckItem => AnnounceItem(w, t, response, after)
      case TellItemAdded(item) =>
        w.Put(t, Announcing(response, CheckPart, after)).Emit(OutputItemAdded(Some(response), item))
      case CheckPart => AnnouncePart(w, t, response, after)
      case Announced => GoOn(w, t, response, after))
    case Telling(status) => Complete(w, t, status)
    case Finishing(snap, sent) =>
      if sent < |FinishEvents(snap)| then SendOne(w, t)
      else w.On(w.conv.ResetResponseSlot(Some(snap.generation))).Put(t, Idle)
  }

  /** Audio is announced only for a response in progress, a client's request only when nothing is requested or in
      progress, and text that is said is not empty. */
  predicate MayAnnounce(conv: Conv, after: After, requested: bool) {
    && (after.PlayAudio? ==> conv.Active())
    && (after.SayText? ==> after.text != "")
    && !(requested && (conv.slot.requested || conv.Active()))
  }

  function Exec(w: World, act: Act): World {
    match act
    case BeginAnnounce(t, after, requested) =>
      if w.Free(t) && MayAnnounce(w.conv, after, requested) then Announce(w, t, after) else w
    case ObserverFinish(t, untold, status) => if w.Free(t) then FinishUp(w, t, untold, status) else w
    case ClientFinish(t, untold) => if w.Free(t) && w.conv.Active() then Cancel(w, t, untold) else w
    case Resume(t) => if t < |w.tasks| then Continue(w, t) else w
    case ReleaseRequest =>
      if w.conv.Active() then w else w.On(w.conv.(slot := w.conv.slot.(requested := false)))
    case UserWork(turn, samples, rate, minted, event) =>
      if IsResponseEvent(event) then w
      else w.On(w.conv.(turn := turn, samples := samples, rate := rate, nextId := w.conv.nextId + minted)).Emit(event)
  }

  function Run(w: World, acts: seq<Act>): World {
    if acts == [] then w else Exec(Run(w, acts[..|acts| - 1]), acts[|acts| - 1])
  }

  /** A new session with `n` tasks. */
  function Start(n: nat, hasResponded: bool): World {
    World(InitialConv(hasResponded), seq(n, _ => Idle), [])
  }

  // ----- What every interleaving keeps -----

  /** The closing events of response `r`, in the order they were sent. */
  function ClosingEvents(log: seq<Event>, r: Id): seq<Event> {
    if log == [] then []
    else
      var e := log[|log| - 1];
      ClosingEvents(log[..|log| - 1], r) + if IsClosing(e) && e.response == Some(r) then [e] else []
  }

  lemma ClosingEventsAppend(log: seq<Event>, e: Event, r: Id)
    ensures ClosingEvents(log + [e], r) ==
      ClosingEvents(log, r) + if IsClosing(e) && e.response == Some(r) then [e] else []
  {
    assert (log + [e])[..|log|] == log;
  }

  /** The snapshots taken so far, by response. */
  type Taken = map<Id, Snapshot>

  ghost predicate SlotFits(conv: Conv, taken: Taken) {
    && (forall r | r in taken ::
          && taken[r].response == r && r < conv.nextId
          && taken[r].generation <= conv.generation
          && (conv.Active() ==> taken[r].generation < conv.generation))
    && (forall r, r' | r in taken && r' in taken && r != r' :: taken[r].generation != taken[r'].generation)
    && (conv.Active() ==>
      conv.slot.response.Some? && conv.slot.response.value !in taken && conv.slot.response.value < conv.nextId)
  }

  ghost predicate LogFits(w: World, taken: Taken) {
    forall r: Id ::
      if r in taken then ClosingEvents(w.log, r) <= FinishEvents(taken[r]) else ClosingEvents(w.log, r) == []
  }

  ghost predicate TaskFits(task: Task, log: seq<Event>, taken: Taken) {
    task.Finishing? ==>
      && task.snap.response in taken && taken[task.snap.response] == task.snap
      && task.sent <= |FinishEvents(task.snap)|
      && ClosingEvents(log, task.snap.response) == FinishEvents(task.snap)[..task.sent]
  }

  ghost predicate TasksFit(w: World, taken: Taken) {
    && (forall t | 0 <= t < |w.tasks| :: TaskFits(w.tasks[t], w.log, taken))
    && (forall t, u | 0 <= t < u < |w.tasks| && w.tasks[t].Finishing? && w.tasks[u].Finishing? ::
          w.tasks[t].snap.response != w.tasks[u].snap.response)
  }

  ghost predicate Fits(w: World, taken: Taken) {
    SlotFits(w.conv, taken) && LogFits(w, taken) && TasksFit(w, taken)
  }

  lemma FinishEventsClose(s: Snapshot, k: nat)
    requires k < |FinishEvents(s)|
    ensures IsClosing(FinishEvents(s)[k]) && FinishEvents(s)[k].response == Some(s.response)
  {
  }

  lemma EmitOther(w: World, taken: Taken, e: Event)
    requires Fits(w, taken) && !IsClosing(e)
    ensures Fits(w.Emit(e), taken)
  {
    forall r: Id ensures ClosingEvents(w.log + [e], r) == ClosingEvents(w.log, r) {
      ClosingEventsAppend(w.log, e, r);
    }
  }

  /** A task may be replaced by one that is not finishing. */
  lemma PutOther(w: World, taken: Taken, t: nat, task: Task)
    requires Fits(w, taken) && t < |w.tasks| && !task.Finishing?
    ensures Fits(w.Put(t, task), taken)
  {
  }

  lemma ConvOther(w: World, taken: Taken, conv: Conv)
    requires Fits(w, taken) && SlotFits(conv, taken)
    ensures Fits(w.On(conv), taken)
  {
  }

  lemma BeginFits(w: World, taken: Taken)
    requires Fits(w, taken)
    ensures Fits(w.On(w.conv.BeginResponse()), taken)
  {
    hide LogFits, TasksFit;
    ConvOther(w, taken, w.conv.BeginResponse());
  }

  lemma AppendFits(w: World, taken: Taken, text: string)
    requires Fits(w, taken)
    ensures Fits(w.On(w.conv.AppendAssistantTranscript(text)), taken)
  {
    BeginFits(w, taken);
    ConvOther(w, taken, w.conv.AppendAssistantTranscript(text));
  }

  lemma SayFits(w: World, taken: Taken, text: string)
    requires Fits(w, taken)
    ensures Fits(Say(w, text), taken)
  {
    hide Fits;
    AppendFits(w, taken, text);
    var c := w.conv.AppendAssistantTranscript(text);
    EmitOther(w.On(c), taken, TranscriptDelta(c.slot.response, c.slot.item, text));
  }

  /** Task `t` has gone from `w` to `w'`; a snapshot it took belongs to a response that had none. */
  ghost predicate Moved(w: World, w': World, t: nat, taken: Taken, taken': Taken) {
    && Fits(w', taken') && |w'.tasks| == |w.tasks|
    && (if t < |w.tasks| && w'.tasks[t].Finishing? && !w.tasks[t].Finishing? then
          w'.tasks[t].snap.response !in taken && taken' == taken[w'.tasks[t].snap.response := w'.tasks[t].snap]
        else taken' == taken)
  }

  lemma SendOneFits(w: World, taken: Taken, t: nat)
    requires Fits(w, taken) && t < |w.tasks| && w.tasks[t].Finishing?
    requires w.tasks[t].sent < |FinishEvents(w.tasks[t].snap)|
    ensures Fits(SendOne(w, t), taken)
  {
    hide FinishEvents, ClosingEvents, IsClosing, SlotFits;
    var f := w.tasks[t];
    var r := f.snap.response;
    var e := FinishEvents(f.snap)[f.sent];
    var w' := SendOne(w, t);
    FinishEventsClose(f.snap, f.sent);
    assert TaskFits(f, w.log, taken);
    forall r': Id ensures ClosingEvents(w'.log, r') == ClosingEvents(w.log, r') + if r' == r then [e] else [] {
      ClosingEventsAppend(w.log, e, r');
    }
    assert FinishEvents(f.snap)[..f.sent + 1] == FinishEvents(f.snap)[..f.sent] + [e];
    forall u | 0 <= u < |w'.tasks| ensures TaskFits(w'.tasks[u], w'.log, taken) {
      assert TaskFits(w.tasks[u], w.log, taken);
      assert u != t && w.tasks[u].Finishing? ==> w.tasks[u].snap.response != r;
    }
  }

  lemma SnapshotFresh(w: World, taken: Taken, t: nat, snap: Snapshot)
    requires LogFits(w, taken) && TasksFit(w, taken) && snap.response !in taken && t < |w.tasks|
    ensures forall conv :: var w' := w.On(conv).Put(t, Finishing(snap, 0));
      LogFits(w', taken[snap.response := snap]) && TasksFit(w', taken[snap.response := snap])
  {
    hide FinishEvents;
    assert ClosingEvents(w.log, snap.response) == [];
    assert FinishEvents(snap)[..0] == [];
  }

  /** Completing takes the one snapshot its response will ever have. */
  lemma CompleteFits(w: World, taken: Taken, t: nat, status: Final) returns (taken': Taken)
    requires Fits(w, taken) && t < |w.tasks| && !w.tasks[t].Finishing?
    ensures Moved(w, Complete(w, t, status), t, taken, taken')
  {
    taken' := taken;
    if w.conv.CanComplete() {
      hide LogFits, TasksFit, FinishEvents;
      var snap := w.conv.TakeSnapshot(status);
      taken' := taken[snap.response := snap];
      SnapshotFresh(w, taken, t, snap);
      SendOneFits(w.On(w.conv.CompleteResponse(status)).Put(t, Finishing(snap, 0)), taken', t);
    } else {
      PutOther(w, taken, t, Idle);
    }
  }

  lemma FinishUpFits(w: World, taken: Taken, t: nat, untold: string, status: Final) returns (taken': Taken)
    requires Fits(w, taken) && t < |w.tasks| && !w.tasks[t].Finishing?
    ensures Moved(w, FinishUp(w, t, untold, status), t, taken, taken')
  {
    hide Fits, Complete;
    taken' := taken;
    if !w.conv.Active() {
      PutOther(w, taken, t, Idle);
    } else if untold != "" && w.conv.slot.transcript == "" {
      SayFits(w, taken, untold);
      PutOther(Say(w, untold), taken, t, Telling(status));
    } else {
      taken' := CompleteFits(w, taken, t, status);
    }
  }

  lemma CancelFits(w: World, taken: Taken, t: nat, untold: string) returns (taken': Taken)
    requires Fits(w, taken) && t < |w.tasks| && !w.tasks[t].Finishing?
    ensures Moved(w, Cancel(w, t, untold), t, taken, taken')
  {
    hide Fits, Complete;
    AppendFits(w, taken, untold);
    var c := if untold != "" && w.conv.slot.transcript == "" then w.conv.AppendAssistantTranscript(untold) else w.conv;
    assert w.On(w.conv) == w;
    taken' := CompleteFits(w.On(c), taken, t, Cancelled);
  }

  lemma GoOnFits(w: World, taken: Taken, t: nat, response: Id, after: After) returns (taken': Taken)
    requires Fits(w, taken) && t < |w.tasks| && !w.tasks[t].Finishing?
    ensures Moved(w, GoOn(w, t, response, after), t, taken, taken')
  {
    hide Fits, FinishUp, Say;
    taken' := taken;
    PutOther(w, taken, t, Idle);
    match after
    case Nothing =>
    case SayText(text) =>
      SayFits(w, taken, text);
      SayKeepsTasks(w, text);
      PutOther(Say(w, text), taken, t, Idle);
    case PlayAudio(audio) => EmitOther(w.Put(t, Idle), taken, AudioDelta(Some(response), w.conv.slot.item, audio));
    case FinishFailed(untold) => taken' := FinishUpFits(w, taken, t, untold, Failed);
  }

  lemma SayKeepsTasks(w: World, text: string)
    ensures Say(w, text).tasks == w.tasks
  {
  }

  lemma MarkFits(w: World, taken: Taken)
    requires Fits(w, taken)
    ensures Fits(w.On(w.conv.(slot := w.conv.slot.(itemAnnounced := true))), taken)
    ensures Fits(w.On(w.conv.(slot := w.conv.slot.(partAnnounced := true))), taken)
  {
  }

  lemma AnnouncePartFits(w: World, taken: Taken, t: nat, response: Id, after: After) returns (taken': Taken)
    requires Fits(w, taken) && t < |w.tasks| && !w.tasks[t].Finishing?
    ensures Moved(w, AnnouncePart(w, t, response, after), t, taken, taken')
  {
    hide Fits, GoOn;
    if w.conv.slot.partAnnounced {
      taken' := GoOnFits(w, taken, t, response, after);
    } else {
      taken' := taken;
      MarkFits(w, taken);
      var w' := w.On(w.conv.(slot := w.conv.slot.(partAnnounced := true)));
      PutOther(w', taken, t, Announcing(response, Announced, after));
      EmitOther(w'.Put(t, Announcing(response, Announced, after)), taken,
        ContentPartAdded(Some(response), w.conv.slot.item));
    }
  }

  lemma AnnounceItemFits(w: World, taken: Taken, t: nat, response: Id, after: After) returns (taken': Taken)
    requires Fits(w, taken) && t < |w.tasks| && !w.tasks[t].Finishing?
    ensures Moved(w, AnnounceItem(w, t, response, after), t, taken, taken')
  {
    hide Fits, AnnouncePart;
    if w.conv.slot.itemAnnounced {
      taken' := AnnouncePartFits(w, taken, t, response, after);
    } else {
      taken' := taken;
      MarkFits(w, taken);
      var w' := w.On(w.conv.(slot := w.conv.slot.(itemAnnounced := true)));
      var task := Announcing(response, TellItemAdded(w.conv.slot.item), after);
      PutOther(w', taken, t, task);
      EmitOther(w'.Put(t, task), taken, AssistantItemCreated(w.conv.slot.item));
    }
  }

  lemma AnnounceFits(w: World, taken: Taken, t: nat, after: After) returns (taken': Taken)
    requires Fits(w, taken) && t < |w.tasks| && !w.tasks[t].Finishing?
    ensures Moved(w, Announce(w, t, after), t, taken, taken')
  {
    hide Fits, AnnounceItem;
    BeginFits(w, taken);
    var c := w.conv.BeginResponse();
    var response := c.slot.response.value;
    if w.conv.Opens() {
      taken' := taken;
      PutOther(w.On(c), taken, t, Announcing(response, CheckItem, after));
      EmitOther(w.On(c).Put(t, Announcing(response, CheckItem, after)), taken, ResponseCreated(Some(response)));
    } else {
      taken' := AnnounceItemFits(w.On(c), taken, t, response, after);
    }
  }

  lemma CloseFits(w: World, taken: Taken, t: nat)
    requires Fits(w, taken) && t < |w.tasks| && w.tasks[t].Finishing?
    ensures var conv' := w.conv.ResetResponseSlot(Some(w.tasks[t].snap.generation));
            && Fits(w.On(conv').Put(t, Idle), taken)
            && (conv' != w.conv ==> !w.conv.Active() && w.conv.generation == w.tasks[t].snap.generation)
  {
    assert TaskFits(w.tasks[t], w.log, taken);
  }

  lemma ContinueFits(w: World, taken: Taken, t: nat) returns (taken': Taken)
    requires Fits(w, taken) && t < |w.tasks|
    ensures Moved(w, Continue(w, t), t, taken, taken')
  {
    hide Fits, AnnounceItem, AnnouncePart, GoOn, Complete, SendOne, FinishEvents;
    taken' := taken;
    match w.tasks[t]
    case Idle =>
    case Announcing(response, stage, after) => {
      match stage
      case CheckItem => taken' := AnnounceItemFits(w, taken, t, response, after);
      case TellItemAdded(item) =>
        PutOther(w, taken, t, Announcing(response, CheckPart, after));
        EmitOther(w.Put(t, Announcing(response, CheckPart, after)), taken, OutputItemAdded(Some(response), item));
      case CheckPart => taken' := AnnouncePartFits(w, taken, t, response, after);
      case Announced => taken' := GoOnFits(w, taken, t, response, after);
    }
    case Telling(status) => taken' := CompleteFits(w, taken, t, status);
    case Finishing(snap, sent) =>
      if sent < |FinishEvents(snap)| {
        SendOneFits(w, taken, t);
        SendOneStays(w, t);
      } else {
        CloseFits(w, taken, t);
      }
  }

  lemma SendOneStays(w: World, t: nat)
    requires t < |w.tasks| && w.tasks[t].Finishing? && w.tasks[t].sent < |FinishEvents(w.tasks[t].snap)|
    ensures |SendOne(w, t).tasks| == |w.tasks| && SendOne(w, t).tasks[t].Finishing?
  {
  }

  lemma ReleaseFits(w: World, taken: Taken)
    requires Fits(w, taken)
    ensures Fits(Exec(w, ReleaseRequest), taken)
  {
    ConvOther(w, taken, Exec(w, ReleaseRequest).conv);
  }

  lemma UserWorkFits(w: World, taken: Taken, turn: Turn, samples: nat, rate: nat, minted: nat, event: Event)
    requires Fits(w, taken)
    ensures Fits(Exec(w, UserWork(turn, samples, rate, minted, event)), taken)
  {
    hide LogFits, TasksFit;
    var conv := w.conv.(turn := turn, samples := samples, rate := rate, nextId := w.conv.nextId + minted);
    ConvOther(w, taken, conv);
    if !IsResponseEvent(event) {
      EmitOther(w.On(conv), taken, event);
    }
  }

  /** The task an act runs. */
  function TaskOf(act: Act): Option<nat> {
    match act
    case BeginAnnounce(t, _, _) => Some(t)
    case ObserverFinish(t, _, _) => Some(t)
    case ClientFinish(t, _) => Some(t)
    case Resume(t) => Some(t)
    case _ => None
  }

  /** The snapshot that an act takes: its task begins a finish sequence. */
  function Captured(w: World, act: Act): Option<Snapshot> {
    if TaskOf(act).None? || TaskOf(act).value >= |w.tasks| then None
    else
      var t := TaskOf(act).value;
      if |Exec(w, act).tasks| == |w.tasks| && Exec(w, act).tasks[t].Finishing? && !w.tasks[t].Finishing?
      then Some(Exec(w, act).tasks[t].snap) else None
  }

  function Adding(taken: Taken, snap: Option<Snapshot>): Taken {
    match snap case None => taken case Some(s) => taken[s.response := s]
  }

  lemma ExecFits(w: World, taken: Taken, act: Act)
    requires Fits(w, taken)
    ensures Fits(Exec(w, act), Adding(taken, Captured(w, act)))
    ensures Captured(w, act).Some? ==> Captured(w, act).value.response !in taken
  {
    hide Fits, Continue, FinishUp, Cancel, Announce, IsResponseEvent;
    match act
    case BeginAnnounce(t, after, requested) =>
      if w.Free(t) {
        var _ := AnnounceFits(w, taken, t, after);
      }
    case ObserverFinish(t, untold, status) =>
      if w.Free(t) {
        var _ := FinishUpFits(w, taken, t, untold, status);
      }
    case ClientFinish(t, untold) =>
      if w.Free(t) {
        var _ := CancelFits(w, taken, t, untold);
      }
    case Resume(t) =>
      if t < |w.tasks| {
        var _ := ContinueFits(w, taken, t);
      }
    case ReleaseRequest => ReleaseFits(w, taken);
    case UserWork(turn, samples, rate, minted, event) => UserWorkFits(w, taken, turn, samples, rate, minted, event);
  }

  // ----- The main results -----

  /** Every snapshot that a run takes, in order. */
  function Snapshots(w0: World, acts: seq<Act>): seq<Snapshot> {
    if acts == [] then []
    else
      var front := acts[..|acts| - 1];
      var snap := Captured(Run(w0, front), acts[|acts| - 1]);
      Snapshots(w0, front) + if snap.Some? then [snap.value] else []
  }

  ghost predicate HasSnapshot(snaps: seq<Snapshot>, r: Id) {
    exists k | 0 <= k < |snaps| :: snaps[k].response == r
  }

  /** The map holds exactly the listed snapshots, which belong to different responses. */
  ghost predicate Lists(snaps: seq<Snapshot>, taken: Taken) {
    && (forall k | 0 <= k < |snaps| :: snaps[k].response in taken && taken[snaps[k].response] == snaps[k])
    && (forall r | r in taken :: HasSnapshot(snaps, r))
    && (forall j, k | 0 <= j < k < |snaps| :: snaps[j].response != snaps[k].response)
  }

  lemma ListsNext(snaps: seq<Snapshot>, taken: Taken, snap: Option<Snapshot>)
    requires Lists(snaps, taken) && (snap.Some? ==> snap.value.response !in taken)
    ensures Lists(snaps + if snap.Some? then [snap.value] else [], Adding(taken, snap))
  {
    if snap.Some? {
      var snaps' := snaps + [snap.value];
      assert snaps'[|snaps|] == snap.value;
      forall r | r in taken ensures HasSnapshot(snaps', r) {
        assert HasSnapshot(snaps, r);
        var k :| 0 <= k < |snaps| && snaps[k].response == r;
        assert snaps'[k] == snaps[k];
      }
    } else {
      assert snaps + [] == snaps;
    }
  }

  lemma {:induction false} RunFits(n: nat, hasResponded: bool, acts: seq<Act>) returns (taken: Taken)
    ensures Fits(Run(Start(n, hasResponded), acts), taken)
    ensures Lists(Snapshots(Start(n, hasResponded), acts), taken)
  {
    if acts == [] {
      taken := map[];
    } else {
      hide Fits, Exec, Captured, Lists, Adding, Start;
      var front, act := acts[..|acts| - 1], acts[|acts| - 1];
      var w := Run(Start(n, hasResponded), front);
      var before := RunFits(n, hasResponded, front);
      ExecFits(w, before, act);
      ListsNext(Snapshots(Start(n, hasResponded), front), before, Captured(w, act));
      taken := Adding(before, Captured(w, act));
    }
  }

  /** What the snapshot of task `t` holds is what the slot holds, whose response has just ended. */
  ghost predicate Captures(w: World, w': World, t: nat, status: Status) {
    t < |w'.tasks| && w'.tasks[t].Finishing? ==>
      var s, slot := w'.tasks[t].snap, w'.conv.slot;
      && slot.response == Some(s.response) && slot.item == s.item && slot.transcript == s.transcript
      && slot.status == Some(status) && s.status == status && status != InProgress
      && w.conv.Active() && w.conv.generation == s.generation == w'.conv.generation
  }

  lemma CompleteCaptures(w: World, t: nat, status: Final)
    requires t < |w.tasks| && !w.tasks[t].Finishing?
    ensures Captures(w, Complete(w, t, status), t, status)
  {
    hide FinishEvents;
  }

  lemma FinishUpCaptures(w: World, t: nat, untold: string, status: Final)
    requires t < |w.tasks| && !w.tasks[t].Finishing?
    ensures Captures(w, FinishUp(w, t, untold, status), t, status)
  {
    hide Complete;
    CompleteCaptures(w, t, status);
  }

  lemma CancelCaptures(w: World, t: nat, untold: string)
    requires t < |w.tasks| && !w.tasks[t].Finishing? && w.conv.CanComplete()
    ensures Captures(w, Cancel(w, t, untold), t, Cancelled)
  {
    hide Complete;
    var c := if untold != "" && w.conv.slot.transcript == "" then w.conv.AppendAssistantTranscript(untold) else w.conv;
    CompleteCaptures(w.On(c), t, Cancelled);
  }

  lemma AnnounceCaptures(w: World, t: nat, response: Id, after: After)
    requires t < |w.tasks| && !w.tasks[t].Finishing?
    ensures Captures(w, GoOn(w, t, response, after), t, Failed)
    ensures Captures(w, AnnouncePart(w, t, response, after), t, Failed)
    ensures Captures(w, AnnounceItem(w, t, response, after), t, Failed)
  {
    hide FinishUp;
    if after.FinishFailed? {
      FinishUpCaptures(w, t, after.untold, Failed);
    }
  }

  /** The status a piece of work ends a response with: the observer's own, cancelled for a client, and failed for an
      error that announces the response first. */
  function EndsWithStatus(w: World, act: Act): Status {
    match act
    case ObserverFinish(_, _, status) => status
    case ClientFinish(_, _) => Cancelled
    case Resume(t) => if t < |w.tasks| && w.tasks[t].Telling? then w.tasks[t].status else Failed
    case _ => Failed
  }

  /** A task that has told untold text first ends the response as it set out to. */
  lemma TellingKeepsStatus(w: World, t: nat, untold: string, status: Final)
    requires t < |w.tasks| && FinishUp(w, t, untold, status).tasks[t].Telling? && !w.tasks[t].Telling?
    ensures FinishUp(w, t, untold, status).tasks[t].status == status
  {
  }

  /** What a snapshot holds is what the slot holds at that moment, with the status that belongs to the piece of work,
      and the response is no longer in progress. */
  lemma {:induction false} CapturesTheSlot(n: nat, hasResponded: bool, acts: seq<Act>, act: Act)
    requires var w := Run(Start(n, hasResponded), acts); Captured(w, act).Some?
    ensures var w := Run(Start(n, hasResponded), acts); var s, c := Captured(w, act).value, Exec(w, act).conv;
            && c.slot.response == Some(s.response) && c.slot.item == s.item && c.slot.transcript == s.transcript
            && c.slot.status == Some(s.status) && s.status == EndsWithStatus(w, act) && s.status != InProgress
            && w.conv.Active() && w.conv.generation == s.generation == c.generation
  {
    hide GoOn, AnnouncePart, AnnounceItem, FinishUp, Cancel, Complete, Run;
    var w, t := Run(Start(n, hasResponded), acts), TaskOf(act).value;
    var taken := RunFits(n, hasResponded, acts);
    match act
    case BeginAnnounce(_, after, _) =>
      var c := w.conv.BeginResponse();
      AnnounceCaptures(w.On(c), t, c.slot.response.value, after);
    case ObserverFinish(_, untold, status) => FinishUpCaptures(w, t, untold, status);
    case ClientFinish(_, untold) => CancelCaptures(w, t, untold);
    case Resume(_) =>
      if w.tasks[t].Announcing? {
        AnnounceCaptures(w, t, w.tasks[t].response, w.tasks[t].after);
      } else if w.tasks[t].Telling? {
        CompleteCaptures(w, t, w.tasks[t].status);
      }
    case _ =>
  }

  /** However the tasks interleave, every generation is completed at most once and every response has at most one
      snapshot; the closing events of a response are a prefix of the finish sequence of its snapshot, and there
      are none without one. */
  lemma {:induction false} ClosedByOneSnapshot(n: nat, hasResponded: bool, acts: seq<Act>)
    ensures var w0 := Start(n, hasResponded); var snaps, log := Snapshots(w0, acts), Run(w0, acts).log;
            && (forall j, k | 0 <= j < k < |snaps| ::
                  snaps[j].generation != snaps[k].generation && snaps[j].response != snaps[k].response)
            && (forall k | 0 <= k < |snaps| :: ClosingEvents(log, snaps[k].response) <= FinishEvents(snaps[k]))
            && (forall r: Id | ClosingEvents(log, r) != [] :: HasSnapshot(snaps, r))
  {
    hide FinishEvents;
    var taken := RunFits(n, hasResponded, acts);
  }

  /** No response is reported done twice. */
  lemma {:induction false} DoneOnce(n: nat, hasResponded: bool, acts: seq<Act>, j: nat, k: nat)
    requires var log := Run(Start(n, hasResponded), acts).log;
             j < k < |log| && log[j].ResponseDone? && log[k].ResponseDone? && log[j].response.Some?
    ensures var log := Run(Start(n, hasResponded), acts).log; log[j].response != log[k].response
  {
    var log := Run(Start(n, hasResponded), acts).log;
    var snaps := Snapshots(Start(n, hasResponded), acts);
    ClosedByOneSnapshot(n, hasResponded, acts);
    if log[j].response == log[k].response {
      TwiceClosing(log, j, k);
      var r := log[j].response.value;
      assert ClosingEvents(log, r) != [];
      var i :| 0 <= i < |snaps| && snaps[i].response == r;
      DonesIn(ClosingEvents(log, r), FinishEvents(snaps[i]), snaps[i]);
    }
  }

  function Dones(es: seq<Event>): nat {
    if es == [] then 0 else Dones(es[..|es| - 1]) + if es[|es| - 1].ResponseDone? then 1 else 0
  }

  lemma {:induction false} DonesAppend(es: seq<Event>, fs: seq<Event>)
    ensures Dones(es + fs) == Dones(es) + Dones(fs)
  {
    if fs == [] {
      assert es + fs == es;
    } else {
      assert (es + fs)[..|es + fs| - 1] == es + fs[..|fs| - 1];
      DonesAppend(es, fs[..|fs| - 1]);
    }
  }

  lemma {:induction false} TwiceClosing(log: seq<Event>, j: nat, k: nat)
    requires j < k < |log| && log[j].ResponseDone? && log[k].ResponseDone? && log[j].response == log[k].response
    requires log[j].response.Some?
    ensures Dones(ClosingEvents(log, log[j].response.value)) >= 2
  {
    var r := log[j].response.value;
    if k < |log| - 1 {
      TwiceClosing(log[..|log| - 1], j, k);
    } else {
      OnceClosing(log[..k], j);
    }
    var e := log[|log| - 1];
    DonesAppend(ClosingEvents(log[..|log| - 1], r), if IsClosing(e) && e.response == Some(r) then [e] else []);
  }

  lemma {:induction false} OnceClosing(log: seq<Event>, j: nat)
    requires j < |log| && log[j].ResponseDone? && log[j].response.Some?
    ensures Dones(ClosingEvents(log, log[j].response.value)) >= 1
  {
    var r := log[j].response.value;
    if j < |log| - 1 {
      OnceClosing(log[..|log| - 1], j);
    }
    var e := log[|log| - 1];
    DonesAppend(ClosingEvents(log[..|log| - 1], r), if IsClosing(e) && e.response == Some(r) then [e] else []);
  }

  lemma DonesIn(es: seq<Event>, fs: seq<Event>, s: Snapshot)
    requires es <= fs && fs == FinishEvents(s)
    ensures Dones(es) <= 1
  {
    DoneIsLast(s);
    hide FinishEvents;
    assert fs == es + fs[|es|..];
    DonesAppend(es, fs[|es|..]);
    var head := fs[..|fs| - 1];
    NoDones(head);
    DonesAppend(head, [fs[|fs| - 1]]);
    assert fs == head + [fs[|fs| - 1]];
  }

  lemma DoneIsLast(s: Snapshot)
    ensures FinishEvents(s) != []
    ensures forall k | 0 <= k < |FinishEvents(s)| - 1 :: !FinishEvents(s)[k].ResponseDone?
  {
  }

  lemma {:induction false} NoDones(es: seq<Event>)
    requires forall k | 0 <= k < |es| :: !es[k].ResponseDone?
    ensures Dones(es) == 0
  {
    if es != [] {
      NoDones(es[..|es| - 1]);
    }
  }

  /** The reset that ends a finish sequence changes nothing but a finished response of its own generation: a
      newer generation keeps every field, and a response in progress is never cleared. */
  lemma {:induction false} ResetIsGuarded(n: nat, hasResponded: bool, acts: seq<Act>, t: nat)
    requires var w := Run(Start(n, hasResponded), acts);
             t < |w.tasks| && w.tasks[t].Finishing? && w.tasks[t].sent == |FinishEvents(w.tasks[t].snap)|
    ensures var w := Run(Start(n, hasResponded), acts); var w', own := Exec(w, Resume(t)), w.tasks[t].snap.generation;
            && w'.log == w.log && w'.tasks == w.tasks[t := Idle]
            && (w.conv.generation != own || w.conv.Active() ==> w'.conv == w.conv)
            && (w'.conv != w.conv ==> w'.conv == w.conv.(slot := EMPTY_SLOT))
  {
    hide Fits;
    var taken := RunFits(n, hasResponded, acts);
    CloseFits(Run(Start(n, hasResponded), acts), taken, t);
  }

  // ----- Which responses are announced -----

  /** The responses that `response.created` has told. */
  function Created(log: seq<Event>): set<Id> {
    if log == [] then {}
    else
      var e := log[|log| - 1];
      Created(log[..|log| - 1]) + if e.ResponseCreated? && e.response.Some? then {e.response.value} else {}
  }

  /** The response that an act begins. */
  function BegunBy(w: World, act: Act): set<Id> {
    var c := Exec(w, act).conv;
    if c.generation != w.conv.generation && c.slot.response.Some? then {c.slot.response.value} else {}
  }

  function Begun(w0: World, acts: seq<Act>): set<Id> {
    if acts == [] then {}
    else
      var front := acts[..|acts| - 1];
      Begun(w0, front) + BegunBy(Run(w0, front), acts[|acts| - 1])
  }

  /** A task that has announced its text finds, when it goes on to append it, no response in progress. */
  predicate AppendsIdle(w: World, act: Act) {
    && act.Resume? && act.t < |w.tasks| && w.tasks[act.t].Announcing? && w.conv.Opens()
    && (var task := w.tasks[act.t];
        && task.after.SayText? && task.after.text != "" && NothingToAnnounce(w.conv.slot, task.stage)
        && !Observer.EndsWith(w.conv.slot.transcript, task.after.text))
  }

  predicate NothingToAnnounce(slot: Slot, stage: Stage) {
    match stage
    case CheckItem => slot.itemAnnounced && slot.partAnnounced
    case TellItemAdded(_) => false
    case CheckPart => slot.partAnnounced
    case Announced => true
  }

  /** The responses begun by such appends. */
  function Silent(w0: World, acts: seq<Act>): set<Id> {
    if acts == [] then {}
    else
      var front := acts[..|acts| - 1];
      Silent(w0, front) + if AppendsIdle(Run(w0, front), acts[|acts| - 1]) then {Run(w0, front).conv.nextId} else {}
  }

  lemma CreatedAppend(log: seq<Event>, e: Event)
    ensures Created(log + [e]) ==
      Created(log) + if e.ResponseCreated? && e.response.Some? then {e.response.value} else {}
  {
    assert (log + [e])[..|log|] == log;
  }

  /** No response has been begun or created. */
  ghost predicate Quiet(w: World, w': World) {
    && w'.conv.generation == w.conv.generation && w'.conv.nextId >= w.conv.nextId
    && Created(w'.log) == Created(w.log)
  }

  /** The next response has been begun. */
  ghost predicate Begins(w: World, w': World) {
    w'.conv.generation == w.conv.generation + 1 && w'.conv.slot.response == Some(w.conv.nextId) &&
      w'.conv.nextId > w.conv.nextId
  }

  ghost predicate Sound(conv: Conv) {
    conv.Active() ==> conv.slot.response.Some?
  }

  lemma CompleteQuiet(w: World, t: nat, status: Final)
    requires t < |w.tasks|
    ensures Quiet(w, Complete(w, t, status))
  {
    if w.conv.CanComplete() {
      FinishEventsClose(w.conv.TakeSnapshot(status), 0);
      CreatedAppend(w.log, FinishEvents(w.conv.TakeSnapshot(status))[0]);
    }
  }

  lemma SayBegins(w: World, text: string)
    requires text != ""
    ensures Created(Say(w, text).log) == Created(w.log)
    ensures if w.conv.Opens() then Begins(w, Say(w, text)) else Quiet(w, Say(w, text))
  {
    var c := w.conv.AppendAssistantTranscript(text);
    CreatedAppend(w.log, TranscriptDelta(c.slot.response, c.slot.item, text));
  }

  lemma FinishUpQuiet(w: World, t: nat, untold: string, status: Final)
    requires t < |w.tasks| && Sound(w.conv)
    ensures Quiet(w, FinishUp(w, t, untold, status))
  {
    hide Complete, Say, Created;
    CompleteQuiet(w, t, status);
    if untold != "" {
      SayBegins(w, untold);
    }
  }

  lemma CancelQuiet(w: World, t: nat, untold: string)
    requires t < |w.tasks| && w.conv.CanComplete()
    ensures Quiet(w, Cancel(w, t, untold))
  {
    hide Complete, Created;
    var c := if untold != "" && w.conv.slot.transcript == "" then w.conv.AppendAssistantTranscript(untold) else w.conv;
    CompleteQuiet(w.On(c), t, Cancelled);
  }

  lemma GoOnBegins(w: World, t: nat, response: Id, after: After)
    requires t < |w.tasks| && Sound(w.conv)
    ensures var w' := GoOn(w, t, response, after);
            if after.SayText? && after.text != "" && w.conv.Opens() &&
              !Observer.EndsWith(w.conv.slot.transcript, after.text)
            then Begins(w, w') && Created(w'.log) == Created(w.log) else Quiet(w, w')
  {
    hide FinishUp, Created;
    match after
    case SayText(text) =>
      if text != "" {
        SayBegins(w, text);
      } else {
        CreatedAppend(w.log, TranscriptDelta(w.conv.slot.response, w.conv.slot.item, ""));
      }
    case PlayAudio(audio) => CreatedAppend(w.log, AudioDelta(Some(response), w.conv.slot.item, audio));
    case FinishFailed(untold) => FinishUpQuiet(w, t, untold, Failed);
    case Nothing =>
  }

  lemma AnnounceRestBegins(w: World, t: nat, response: Id, after: After)
    requires t < |w.tasks| && Sound(w.conv)
    ensures if w.conv.slot.partAnnounced then AnnouncePart(w, t, response, after) == GoOn(w, t, response, after)
            else Quiet(w, AnnouncePart(w, t, response, after))
    ensures if w.conv.slot.itemAnnounced then AnnounceItem(w, t, response, after) == AnnouncePart(w, t, response, after)
            else Quiet(w, AnnounceItem(w, t, response, after))
  {
    hide GoOn, Created;
    CreatedAppend(w.log, ContentPartAdded(Some(response), w.conv.slot.item));
    CreatedAppend(w.log, AssistantItemCreated(w.conv.slot.item));
  }

  lemma AnnounceBegins(w: World, t: nat, after: After)
    requires t < |w.tasks| && Sound(w.conv)
    ensures var w' := Announce(w, t, after);
            if w.conv.Opens() then Begins(w, w') && Created(w'.log) == Created(w.log) + {w.conv.nextId}
              else Quiet(w, w')
  {
    hide GoOn, AnnouncePart, AnnounceItem, Created;
    var c := w.conv.BeginResponse();
    if w.conv.Opens() {
      CreatedAppend(w.log, ResponseCreated(c.slot.response));
    } else {
      assert w.On(c) == w;
      GoOnBegins(w, t, c.slot.response.value, after);
      AnnounceRestBegins(w, t, c.slot.response.value, after);
    }
  }

  lemma ContinueBegins(w: World, t: nat)
    requires t < |w.tasks| && Sound(w.conv)
    ensures if AppendsIdle(w, Resume(t)) then Begins(w, Continue(w, t)) && Created(Continue(w, t).log) == Created(w.log)
            else Quiet(w, Continue(w, t))
  {
    hide GoOn, AnnouncePart, AnnounceItem, Complete, FinishEvents, Created;
    match w.tasks[t]
    case Idle =>
    case Announcing(response, stage, after) =>
      GoOnBegins(w, t, response, after);
      AnnounceRestBegins(w, t, response, after);
      if stage.TellItemAdded? {
        CreatedAppend(w.log, OutputItemAdded(Some(response), stage.item));
      }
    case Telling(status) => CompleteQuiet(w, t, status);
    case Finishing(snap, sent) =>
      if sent < |FinishEvents(snap)| {
        FinishEventsClose(snap, sent);
        CreatedAppend(w.log, FinishEvents(snap)[sent]);
      }
  }

  /** An act begins at most the next response, and announces it unless it is an append that finds none in
      progress. */
  lemma ExecBegins(w: World, act: Act)
    requires Sound(w.conv)
    ensures var w' := Exec(w, act); var silent := AppendsIdle(w, act);
            && (silent ==> Begins(w, w'))
            && w'.conv.nextId >= w.conv.nextId
            && (Quiet(w, w') ||
              (Begins(w, w') && Created(w'.log) == Created(w.log) + if silent then {} else {w.conv.nextId}))
  {
    hide Announce, FinishUp, Cancel, Continue, Created;
    match act
    case BeginAnnounce(t, after, _) => if w.Free(t) { AnnounceBegins(w, t, after); }
    case ObserverFinish(t, untold, status) => if w.Free(t) { FinishUpQuiet(w, t, untold, status); }
    case ClientFinish(t, untold) => if w.Free(t) && w.conv.Active() { CancelQuiet(w, t, untold); }
    case Resume(t) => if t < |w.tasks| { ContinueBegins(w, t); }
    case ReleaseRequest =>
    case UserWork(_, _, _, _, event) => CreatedAppend(w.log, event);
  }

  lemma {:induction false} RunBegins(n: nat, hasResponded: bool, acts: seq<Act>)
    ensures var w0 := Start(n, hasResponded); var w := Run(w0, acts);
            && Sound(w.conv)
            && Begun(w0, acts) == Created(w.log) + Silent(w0, acts) && Created(w.log) !! Silent(w0, acts)
            && (forall r | r in Begun(w0, acts) :: r < w.conv.nextId)
  {
    var w0 := Start(n, hasResponded);
    if acts != [] {
      hide Exec, AppendsIdle, Created, Start;
      var front := acts[..|acts| - 1];
      RunBegins(n, hasResponded, front);
      ExecBegins(Run(w0, front), acts[|acts| - 1]);
    }
    var taken := RunFits(n, hasResponded, acts);
  }

  /** In every interleaving the responses begun are those that `response.created` told and those begun by an
      append that found none in progress, and no response is both; so every response is announced exactly if no
      such append happens. */
  lemma {:induction false} SilentBeginExactly(n: nat, hasResponded: bool, acts: seq<Act>)
    ensures var w0 := Start(n, hasResponded); var created := Created(Run(w0, acts).log);
            && Begun(w0, acts) == created + Silent(w0, acts) && created !! Silent(w0, acts)
            && (Begun(w0, acts) == created <==> forall k | 0 <= k < |acts| :: !AppendsIdle(Run(w0, acts[..k]), acts[k]))
  {
    hide Run, AppendsIdle, Created, Begun;
    RunBegins(n, hasResponded, acts);
    SilentIfAppended(Start(n, hasResponded), acts);
  }

  lemma {:induction false} SilentIfAppended(w0: World, acts: seq<Act>)
    ensures Silent(w0, acts) == {} <==> forall k | 0 <= k < |acts| :: !AppendsIdle(Run(w0, acts[..k]), acts[k])
  {
    hide Run, AppendsIdle;
    if acts != [] {
      var n := |acts| - 1;
      SilentIfAppended(w0, acts[..n]);
      assert forall k | 0 <= k < n :: acts[..n][..k] == acts[..k];
    }
  }

  lemma {:induction false} SilentGrows(w0: World, acts: seq<Act>, k: nat)
    requires k <= |acts|
    ensures Silent(w0, acts[..k]) <= Silent(w0, acts)
  {
    hide Run, AppendsIdle;
    if k < |acts| {
      SilentGrows(w0, acts[..|acts| - 1], k);
      assert acts[..|acts| - 1][..k] == acts[..k];
    } else {
      assert acts[..k] == acts;
    }
  }

  /** A response that was begun without being announced is never announced later. */
  lemma {:induction false} SilentForGood(n: nat, hasResponded: bool, acts: seq<Act>, k: nat)
    requires k <= |acts|
    ensures var w0 := Start(n, hasResponded); Silent(w0, acts[..k]) !! Created(Run(w0, acts).log)
  {
    hide Run, AppendsIdle, Created, Begun, Silent;
    SilentGrows(Start(n, hasResponded), acts, k);
    RunBegins(n, hasResponded, acts);
  }

  lemma {:induction false} RunNext(w0: World, acts: seq<Act>, act: Act, w: World)
    requires Run(w0, acts) == w
    ensures Run(w0, acts + [act]) == Exec(w, act)
    ensures Begun(w0, acts + [act]) == Begun(w0, acts) + BegunBy(w, act)
  {
    assert (acts + [act])[..|acts|] == acts;
  }

  /** Task 0 announces a response and its last emit is pending. */
  function AnnouncedRun(after: After): seq<Act> {
    [BeginAnnounce(0, after, false)] + [Resume(0)] + [Resume(0)] + [Resume(0)]
  }

  lemma AnnouncingSteps(n: nat, after: After)
    requires n > 0 && MayAnnounce(InitialConv(true), after, false)
    ensures var w0 := Start(n, true); var w1 := Exec(w0, BeginAnnounce(0, after, false));
            var w := Exec(Exec(Exec(w1, Resume(0)), Resume(0)), Resume(0));
            && w.conv == Channel(InitialConv(true), []).Announce().conv
            && w.tasks == w0.tasks[0 := Announcing(0, Announced, after)]
            && w.log ==
              [] + [ResponseCreated(Some(0))] + [AssistantItemCreated(Some(1))] + [OutputItemAdded(Some(0), Some(1))]
                        + [ContentPartAdded(Some(0), Some(1))]
  {
    var w0 := Start(n, true);
    var w1 := Exec(w0, BeginAnnounce(0, after, false));
    assert w1.tasks == w0.tasks[0 := Announcing(0, CheckItem, after)];
    var w2 := Exec(w1, Resume(0));
    assert w2.tasks == w0.tasks[0 := Announcing(0, TellItemAdded(Some(1)), after)];
    var w3 := Exec(w2, Resume(0));
    assert w3.tasks == w0.tasks[0 := Announcing(0, CheckPart, after)];
  }

  lemma {:induction false} AnnouncedWorld(n: nat, after: After)
    requires n > 0 && MayAnnounce(InitialConv(true), after, false)
    ensures var w := Run(Start(n, true), AnnouncedRun(after));
            && w.conv == Channel(InitialConv(true), []).Announce().conv
            && w.tasks == Start(n, true).tasks[0 := Announcing(0, Announced, after)]
            && w.log == [ResponseCreated(Some(0)), AssistantItemCreated(Some(1)), OutputItemAdded(Some(0), Some(1)),
                         ContentPartAdded(Some(0), Some(1))]
  {
    var w0, first := Start(n, true), BeginAnnounce(0, after, false);
    assert Run(w0, []) == w0 && [] + [first] == [first];
    hide Run, Exec, Start;
    AnnouncingSteps(n, after);
    var w1 := Exec(w0, first);
    RunNext(w0, [], first, w0);
    RunNext(w0, [first], Resume(0), w1);
    RunNext(w0, [first] + [Resume(0)], Resume(0), Exec(w1, Resume(0)));
    RunNext(w0, [first] + [Resume(0)] + [Resume(0)], Resume(0), Exec(Exec(w1, Resume(0)), Resume(0)));
  }

  /** After which a client cancels the response. */
  lemma {:induction false} CancelledWorld(after: After)
    requires MayAnnounce(InitialConv(true), after, false)
    ensures var w := Run(Start(2, true), AnnouncedRun(after) + [ClientFinish(1, "")]);
            && w.conv.slot.status == Some(Cancelled) && w.conv.slot.transcript == "" && w.conv.nextId == 2
            && |w.tasks| == 2 && w.tasks[0] == Announcing(0, Announced, after)
            && w.log == [ResponseCreated(Some(0)), AssistantItemCreated(Some(1)), OutputItemAdded(Some(0), Some(1)),
                         ContentPartAdded(Some(0), Some(1)), AudioDone(Some(0), Some(1))]
  {
    AnnouncedWorld(2, after);
    var w := Run(Start(2, true), AnnouncedRun(after));
    hide Run, AnnouncedRun;
    RunNext(Start(2, true), AnnouncedRun(after), ClientFinish(1, ""), w);
  }

  lemma TextGoesOn(w: World, text: string)
    requires w.conv.slot.status == Some(Cancelled) && w.conv.slot.transcript == "" && w.conv.nextId == 2 && text != ""
    requires |w.tasks| == 2 && w.tasks[0] == Announcing(0, Announced, SayText(text))
    ensures var w' := Exec(w, Resume(0));
            && AppendsIdle(w, Resume(0)) && w'.conv.Active() && w'.conv.slot.response == Some(2)
            && w'.log == w.log + [TranscriptDelta(Some(2), Some(3), text)]
  {
    assert !Observer.EndsWith("", text);
  }

  /** And such an append happens: a client cancels the response while the last emit of its announcement is pending,
      and the text then begins a response that is never announced. */
  lemma {:induction false} SilentBeginHappens(text: string)
    requires text != ""
    ensures var acts := AnnouncedRun(SayText(text)) + [ClientFinish(1, "")] + [Resume(0)];
            var w := Run(Start(2, true), acts);
            && w.conv.Active() && w.conv.slot.response == Some(2) && 2 in Begun(Start(2, true), acts)
            && 2 !in Created(w.log)
            && w.log == [ResponseCreated(Some(0)), AssistantItemCreated(Some(1)), OutputItemAdded(Some(0), Some(1)),
                         ContentPartAdded(Some(0), Some(1)), AudioDone(Some(0), Some(1)),
                         TranscriptDelta(Some(2), Some(3), text)]
  {
    CancelledWorld(SayText(text));
    var w0, acts := Start(2, true), AnnouncedRun(SayText(text)) + [ClientFinish(1, "")];
    var w := Run(w0, acts);
    hide Run, AnnouncedRun, Start, Begun, Created, Exec, AppendsIdle;
    RunNext(w0, acts, Resume(0), w);
    RunBegins(2, true, acts);
    TextGoesOn(w, text);
    ExecBegins(w, Resume(0));
  }
}
