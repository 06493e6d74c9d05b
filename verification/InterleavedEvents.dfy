/** What interleaved tasks tell of a response: which item goes with which response, how the deltas make up the
    transcript, and what may still follow `response.done`. */
module InterleavedEvents {
  import opened Wrappers
  import opened Conversation
  import opened Lifecycle
  import opened Interleaving
  import Observer

  // ----- The event of an act -----

  /** The event that a task announcing response `r` sends next. */
  function TellOf(slot: Slot, r: Id, stage: Stage, after: After): Option<Event> {
    match stage
    case TellItemAdded(item) => Some(OutputItemAdded(Some(r), item))
    case _ =>
      if stage.CheckItem? && !slot.itemAnnounced then Some(AssistantItemCreated(slot.item))
      else if !stage.Announced? && !slot.partAnnounced then Some(ContentPartAdded(Some(r), slot.item))
      else if after.PlayAudio? then Some(AudioDelta(Some(r), slot.item, after.audio))
      else None
  }

  /** The event that an act sends for an announcement. */
  function TellBy(w: World, act: Act): Option<Event> {
    match act
    case Resume(t) =>
      if t < |w.tasks| && w.tasks[t].Announcing? then
        TellOf(w.conv.slot, w.tasks[t].response, w.tasks[t].stage, w.tasks[t].after)
      else None
    case BeginAnnounce(t, after, requested) =>
      if w.Free(t) && MayAnnounce(w.conv, after, requested) && !w.conv.Opens() then
        TellOf(w.conv.slot, w.conv.slot.response.value, CheckItem, after)
      else None
    case _ => None
  }

  /** The event is text that has just been appended to the transcript of the response in progress. */
  ghost predicate Says(c: Conv, c': Conv, e: Event) {
    && e.TranscriptDelta? && c'.Active() && c'.slot.response.Some?
    && e.response == c'.slot.response && e.item == c'.slot.item
    && (if c.Opens() then c'.slot.response == Some(c.nextId) && c'.slot.transcript == e.delta
        else c'.slot.response == c.slot.response && c'.slot.transcript == c.slot.transcript + e.delta)
  }

  /** The event is the one that task `t` has just sent of its finish sequence. */
  ghost predicate Closes(w': World, t: nat, e: Event) {
    && t < |w'.tasks| && w'.tasks[t].Finishing?
    && 0 < w'.tasks[t].sent <= |FinishEvents(w'.tasks[t].snap)|
    && e == FinishEvents(w'.tasks[t].snap)[w'.tasks[t].sent - 1]
  }

  /** A response in progress is the one before with its transcript, or has just been begun. */
  ghost predicate Still(c: Conv, c': Conv) {
    c'.Active() ==>
      if c.Opens() then c'.slot.response == Some(c.nextId) && c'.slot.transcript == ""
      else c'.slot.response == c.slot.response && c'.slot.transcript == c.slot.transcript
  }

  /** The one event that a piece of work of task `t` sends, if any, and what it does to the transcript. */
  ghost predicate Works(w: World, w': World, t: nat, tell: Option<Event>) {
    if tell.Some? then w'.log == w.log + [tell.value] && Still(w.conv, w'.conv)
    else if w'.log == w.log then Still(w.conv, w'.conv)
    else
      && |w'.log| == |w.log| + 1 && w'.log[..|w.log|] == w.log
      && var e := w'.log[|w.log|];
         || Says(w.conv, w'.conv, e)
         || (Still(w.conv, w'.conv)
             && (Closes(w', t, e) || !IsResponseEvent(e) ||
               (w.conv.Opens() && e == ResponseCreated(Some(w.conv.nextId)))))
  }

  lemma CompleteWorks(w: World, t: nat, status: Final)
    requires t < |w.tasks| && Sound(w.conv)
    ensures Works(w, Complete(w, t, status), t, None)
  {
    hide IsResponseEvent;
    if w.conv.CanComplete() {
      DoneIsLast(w.conv.TakeSnapshot(status));
      hide FinishEvents;
    }
  }

  lemma SayWorks(w: World, text: string, t: nat, task: Task)
    requires t < |w.tasks| && text != "" && Sound(w.conv)
    ensures Works(w, Say(w, text).Put(t, task), t, None)
  {
    assert "" + text == text;
  }

  lemma FinishUpWorks(w: World, t: nat, untold: string, status: Final)
    requires t < |w.tasks| && Sound(w.conv)
    ensures Works(w, FinishUp(w, t, untold, status), t, None)
  {
    hide Works, Complete;
    CompleteWorks(w, t, status);
    if untold != "" {
      SayWorks(w, untold, t, Telling(status));
    }
    IdleWorks(w, t);
  }

  lemma IdleWorks(w: World, t: nat)
    requires t < |w.tasks| && Sound(w.conv)
    ensures Works(w, w.Put(t, Idle), t, None)
  {
  }

  lemma CancelWorks(w: World, t: nat, untold: string)
    requires t < |w.tasks| && w.conv.CanComplete()
    ensures Works(w, Cancel(w, t, untold), t, None)
  {
    var c := if untold != "" && w.conv.slot.transcript == "" then w.conv.AppendAssistantTranscript(untold) else w.conv;
    DoneIsLast(c.TakeSnapshot(Cancelled));
    hide FinishEvents, IsResponseEvent;
  }

  lemma GoOnWorks(w: World, t: nat, r: Id, after: After)
    requires t < |w.tasks| && Sound(w.conv) && (after.SayText? ==> after.text != "")
    ensures Works(w, GoOn(w, t, r, after), t, TellOf(w.conv.slot, r, Announced, after))
  {
    match after
    case Nothing =>
    case SayText(text) => SayWorks(w, text, t, Idle);
    case PlayAudio(_) =>
    case FinishFailed(untold) =>
      hide Works, FinishUp;
      FinishUpWorks(w, t, untold, Failed);
  }

  lemma AnnouncePartWorks(w: World, t: nat, r: Id, after: After)
    requires t < |w.tasks| && Sound(w.conv) && (after.SayText? ==> after.text != "")
    ensures Works(w, AnnouncePart(w, t, r, after), t, TellOf(w.conv.slot, r, CheckPart, after))
  {
    hide GoOn;
    GoOnWorks(w, t, r, after);
  }

  lemma AnnounceItemWorks(w: World, t: nat, r: Id, after: After)
    requires t < |w.tasks| && Sound(w.conv) && (after.SayText? ==> after.text != "")
    ensures Works(w, AnnounceItem(w, t, r, after), t, TellOf(w.conv.slot, r, CheckItem, after))
  {
    hide AnnouncePart;
    AnnouncePartWorks(w, t, r, after);
  }

  /** Text to be said is not empty. */
  ghost predicate Worded(w: World) {
    forall t | 0 <= t < |w.tasks| :: w.tasks[t].Announcing? && w.tasks[t].after.SayText? ==> w.tasks[t].after.text != ""
  }

  lemma ContinueWorks(w: World, t: nat)
    requires t < |w.tasks| && Sound(w.conv) && Worded(w)
    ensures Works(w, Continue(w, t), t, TellBy(w, Resume(t)))
  {
    hide GoOn, AnnouncePart, AnnounceItem, Complete;
    match w.tasks[t]
    case Idle =>
    case Announcing(r, stage, after) =>
      GoOnWorks(w, t, r, after);
      AnnouncePartWorks(w, t, r, after);
      AnnounceItemWorks(w, t, r, after);
    case Telling(status) => CompleteWorks(w, t, status);
    case Finishing(snap, sent) =>
      hide FinishEvents;
  }

  lemma AnnounceWorks(w: World, t: nat, after: After)
    requires t < |w.tasks| && Sound(w.conv) && (after.SayText? ==> after.text != "")
    ensures Works(w, Announce(w, t, after), t,
      if w.conv.Opens() then None else TellOf(w.conv.slot, w.conv.slot.response.value, CheckItem, after))
  {
    hide AnnounceItem;
    if !w.conv.Opens() {
      var c := w.conv.BeginResponse();
      assert w.On(c) == w;
      AnnounceItemWorks(w, t, c.slot.response.value, after);
    }
  }

  /** Every act sends at most one event. */
  lemma ExecWorks(w: World, act: Act)
    requires Sound(w.conv) && Worded(w)
    ensures Works(w, Exec(w, act), TaskOf(act).GetOr(0), TellBy(w, act))
  {
    hide Announce, FinishUp, Cancel, Continue, TellOf;
    match act
    case BeginAnnounce(t, after, requested) =>
      if w.Free(t) && MayAnnounce(w.conv, after, requested) { AnnounceWorks(w, t, after); }
    case ObserverFinish(t, untold, status) => if w.Free(t) { FinishUpWorks(w, t, untold, status); }
    case ClientFinish(t, untold) => if w.Free(t) && w.conv.Active() { CancelWorks(w, t, untold); }
    case Resume(t) => if t < |w.tasks| { ContinueWorks(w, t); }
    case ReleaseRequest =>
    case UserWork(_, _, _, _, event) =>
  }

  /** Only task `t` changes, and while it announces it keeps to what it will do. */
  ghost predicate Local(w: World, w': World, t: nat, r: Id, after: After) {
    && t < |w.tasks| && |w'.tasks| == |w.tasks|
    && (forall u | 0 <= u < |w.tasks| && u != t :: w'.tasks[u] == w.tasks[u])
    && (w'.tasks[t].Announcing? ==> w'.tasks[t].after == after && w'.tasks[t].response == r)
  }

  lemma FinishLocal(w: World, t: nat, untold: string, status: Final, r: Id, after: After)
    requires t < |w.tasks|
    ensures Local(w, Complete(w, t, status), t, r, after)
    ensures Local(w, FinishUp(w, t, untold, status), t, r, after)
    ensures Local(w, Cancel(w, t, untold), t, r, after)
  {
    hide FinishEvents;
  }

  lemma AnnounceLocal(w: World, t: nat, r: Id, after: After)
    requires t < |w.tasks|
    ensures Local(w, GoOn(w, t, r, after), t, r, after)
    ensures Local(w, AnnouncePart(w, t, r, after), t, r, after)
    ensures Local(w, AnnounceItem(w, t, r, after), t, r, after)
  {
    hide FinishUp;
    if after.FinishFailed? {
      FinishLocal(w, t, after.untold, Failed, r, after);
    }
  }

  /** What the task of an act announces afterwards, if it announces. */
  function ResponseOf(w: World, act: Act): Id {
    match act
    case BeginAnnounce(_, _, _) => w.conv.BeginResponse().slot.response.value
    case Resume(t) => if t < |w.tasks| && w.tasks[t].Announcing? then w.tasks[t].response else 0
    case _ => 0
  }

  function AfterOf(w: World, act: Act): After {
    match act
    case BeginAnnounce(_, after, _) => after
    case Resume(t) => if t < |w.tasks| && w.tasks[t].Announcing? then w.tasks[t].after else Nothing
    case _ => Nothing
  }

  lemma ExecLocal(w: World, act: Act)
    ensures Exec(w, act).tasks == w.tasks ||
      (TaskOf(act).Some? && Local(w, Exec(w, act), TaskOf(act).value, ResponseOf(w, act), AfterOf(w, act)))
  {
    hide GoOn, AnnouncePart, AnnounceItem, FinishUp, Cancel, Complete, FinishEvents;
    var r, after := ResponseOf(w, act), AfterOf(w, act);
    match act
    case BeginAnnounce(t, _, _) =>
      if w.Free(t) {
        AnnounceLocal(w.On(w.conv.BeginResponse()), t, r, after);
      }
    case ObserverFinish(t, untold, status) => if w.Free(t) { FinishLocal(w, t, untold, status, r, after); }
    case ClientFinish(t, untold) => if w.Free(t) { FinishLocal(w, t, untold, Cancelled, r, after); }
    case Resume(t) =>
      if t < |w.tasks| {
        AnnounceLocal(w, t, r, after);
        if w.tasks[t].Telling? {
          FinishLocal(w, t, "", w.tasks[t].status, r, after);
        }
      }
    case _ =>
  }

  lemma ExecWorded(w: World, act: Act)
    requires Worded(w)
    ensures Worded(Exec(w, act))
  {
    ExecLocal(w, act);
    hide Announce, Continue, FinishUp, Cancel;
  }

  lemma {:induction false} RunWorded(n: nat, hasResponded: bool, acts: seq<Act>)
    ensures Worded(Run(Start(n, hasResponded), acts))
  {
    if acts != [] {
      hide Worded, Exec;
      RunWorded(n, hasResponded, acts[..|acts| - 1]);
      ExecWorded(Run(Start(n, hasResponded), acts[..|acts| - 1]), acts[|acts| - 1]);
    }
  }

  // ----- Which item goes with which response -----

  /** The item that was minted with response `r`. */
  function ItemOf(r: Id): Id {
    r + 1
  }

  /** Events that carry a response and an item. */
  predicate BothIds(e: Event) {
    IsResponseEvent(e) && !e.ResponseCreated? && !e.AssistantItemCreated?
  }

  /** The event carries a response and the item minted with it. */
  predicate Paired(e: Event)
    requires BothIds(e)
  {
    e.response.Some? && e.item == Some(ItemOf(e.response.value))
  }

  predicate AllPaired(log: seq<Event>) {
    forall k | 0 <= k < |log| && BothIds(log[k]) :: Paired(log[k])
  }

  /** The task's pending event has just been given the item of a slot that is not its own response's. */
  predicate ReadsElsewhere(w: World, act: Act, t: nat) {
    var w' := Exec(w, act);
    TaskOf(act) == Some(t) && !ToldItem(w, t) && ToldItem(w', t) && w'.conv.slot.response != Some(w'.tasks[t].response)
  }

  /** The task has told its item and will add it to the output. */
  predicate ToldItem(w: World, t: nat) {
    t < |w.tasks| && w.tasks[t].Announcing? && w.tasks[t].stage.TellItemAdded?
  }

  /** When the task last read an item to tell, the slot was not its own response's. */
  predicate ReadElsewhere(w0: World, acts: seq<Act>, t: nat) {
    if acts == [] then false
    else
      var front, act := acts[..|acts| - 1], acts[|acts| - 1];
      if TaskOf(act) == Some(t) && !ToldItem(Run(w0, front), t) && ToldItem(Run(w0, acts), t)
      then ReadsElsewhere(Run(w0, front), act, t) else ReadElsewhere(w0, front, t)
  }

  /** The act tells an item or part, or the audio, of an announced response while the slot belongs to another
      response or to none; an item counts from when it was read. */
  predicate Strays(w0: World, acts: seq<Act>, act: Act) {
    var w := Run(w0, acts);
    && act.Resume? && act.t < |w.tasks| && w.tasks[act.t].Announcing?
    && (var task := w.tasks[act.t];
        if task.stage.TellItemAdded? then ReadElsewhere(w0, acts, act.t)
        else TellsFromSlot(w.conv.slot, task.stage, task.after) && w.conv.slot.response != Some(task.response))
  }

  /** The task tells the part or its audio next, with the item that the slot has then. */
  predicate TellsFromSlot(slot: Slot, stage: Stage, after: After) {
    || (!slot.partAnnounced && (stage.CheckPart? || (stage.CheckItem? && slot.itemAnnounced)))
    || (after.PlayAudio? && NothingToAnnounce(slot, stage))
  }

  ghost predicate SlotPaired(slot: Slot) {
    slot.item == if slot.response.Some? then Some(ItemOf(slot.response.value)) else None
  }

  ghost predicate SnapsPaired(tasks: seq<Task>) {
    forall t | 0 <= t < |tasks| && tasks[t].Finishing? :: tasks[t].snap.item == Some(ItemOf(tasks[t].snap.response))
  }

  ghost predicate PairedWorld(w: World) {
    SlotPaired(w.conv.slot) && SnapsPaired(w.tasks)
  }

  lemma FinishPairs(w: World, t: nat, untold: string, status: Final)
    requires t < |w.tasks| && PairedWorld(w)
    ensures PairedWorld(Complete(w, t, status)) && PairedWorld(FinishUp(w, t, untold, status))
    ensures w.conv.Active() ==> PairedWorld(Cancel(w, t, untold))
  {
    CompletePairs(w, t, status);
    var c := if untold != "" && w.conv.slot.transcript == "" then w.conv.AppendAssistantTranscript(untold) else w.conv;
    CompletePairs(w.On(c), t, Cancelled);
    hide Complete, FinishEvents;
  }

  lemma CompletePairs(w: World, t: nat, status: Final)
    requires t < |w.tasks|
    ensures PairedWorld(w) ==> PairedWorld(Complete(w, t, status))
  {
    hide FinishEvents;
  }

  lemma AnnouncePairs(w: World, t: nat, r: Id, after: After)
    requires t < |w.tasks| && PairedWorld(w)
    ensures PairedWorld(GoOn(w, t, r, after))
    ensures PairedWorld(AnnouncePart(w, t, r, after))
    ensures PairedWorld(AnnounceItem(w, t, r, after))
  {
    hide FinishUp;
    if after.FinishFailed? {
      FinishPairs(w, t, after.untold, Failed);
    }
  }

  lemma ExecPairs(w: World, act: Act)
    requires PairedWorld(w)
    ensures PairedWorld(Exec(w, act))
  {
    hide GoOn, AnnouncePart, AnnounceItem, FinishUp, Cancel, Complete, FinishEvents;
    match act
    case BeginAnnounce(t, after, _) =>
      var c := w.conv.BeginResponse();
      if w.Free(t) {
        AnnouncePairs(w.On(c), t, c.slot.response.value, after);
      }
    case ObserverFinish(t, untold, status) => if w.Free(t) { FinishPairs(w, t, untold, status); }
    case ClientFinish(t, untold) => if w.Free(t) { FinishPairs(w, t, untold, Cancelled); }
    case Resume(t) =>
      if t < |w.tasks| {
        if w.tasks[t].Announcing? {
          AnnouncePairs(w, t, w.tasks[t].response, w.tasks[t].after);
        } else if w.tasks[t].Telling? {
          FinishPairs(w, t, "", w.tasks[t].status);
        }
      }
    case _ =>
  }

  lemma {:induction false} RunPairs(n: nat, hasResponded: bool, acts: seq<Act>)
    ensures PairedWorld(Run(Start(n, hasResponded), acts))
  {
    if acts != [] {
      hide PairedWorld, Exec;
      RunPairs(n, hasResponded, acts[..|acts| - 1]);
      ExecPairs(Run(Start(n, hasResponded), acts[..|acts| - 1]), acts[|acts| - 1]);
    }
  }

  /** The item a task has told is the one the slot had as it told it. */
  lemma AnnounceReads(w: World, t: nat, r: Id, after: After)
    requires t < |w.tasks|
    ensures !ToldItem(GoOn(w, t, r, after), t) && !ToldItem(AnnouncePart(w, t, r, after), t)
    ensures var w' := AnnounceItem(w, t, r, after); ToldItem(w', t) ==> w'.tasks[t].stage.item == w'.conv.slot.item
  {
    hide FinishUp;
    if after.FinishFailed? {
      FinishReads(w, t, after.untold, Failed);
    }
  }

  lemma FinishReads(w: World, t: nat, untold: string, status: Final)
    requires t < |w.tasks|
    ensures !ToldItem(Complete(w, t, status), t) && !ToldItem(FinishUp(w, t, untold, status), t)
    ensures !ToldItem(Cancel(w, t, untold), t)
  {
    hide FinishEvents;
  }

  lemma ItemWasRead(w: World, act: Act, t: nat)
    requires ToldItem(Exec(w, act), t) && TaskOf(act) == Some(t)
    ensures ToldItem(w, t) ==> Exec(w, act).tasks == w.tasks
    ensures !ToldItem(w, t) ==> Exec(w, act).tasks[t].stage.item == Exec(w, act).conv.slot.item
  {
    hide GoOn, AnnouncePart, AnnounceItem, FinishUp, Cancel, Complete, SendOne, FinishEvents;
    if t < |w.tasks| {
      match act
      case BeginAnnounce(_, after, _) =>
        var c := w.conv.BeginResponse();
        AnnounceReads(w.On(c), t, c.slot.response.value, after);
      case ObserverFinish(_, untold, status) => FinishReads(w, t, untold, status);
      case ClientFinish(_, untold) => FinishReads(w, t, untold, Cancelled);
      case Resume(_) =>
        if w.tasks[t].Announcing? {
          AnnounceReads(w, t, w.tasks[t].response, w.tasks[t].after);
        } else if w.tasks[t].Telling? {
          FinishReads(w, t, "", w.tasks[t].status);
        } else if w.tasks[t].Finishing? {
          SendOneReads(w, t);
        }
      case _ =>
    }
  }

  lemma SendOneReads(w: World, t: nat)
    requires t < |w.tasks| && w.tasks[t].Finishing?
    ensures w.tasks[t].sent < |FinishEvents(w.tasks[t].snap)| ==> !ToldItem(SendOne(w, t), t)
  {
    hide FinishEvents;
  }

  lemma StepReads(w: World, act: Act, t: nat)
    requires SlotPaired(Exec(w, act).conv.slot) && ToldItem(Exec(w, act), t)
    ensures var task := Exec(w, act).tasks[t];
            if TaskOf(act) == Some(t) && !ToldItem(w, t)
            then ReadsElsewhere(w, act, t) <==> task.stage.item != Some(ItemOf(task.response))
            else ToldItem(w, t) && task == w.tasks[t]
  {
    ExecLocal(w, act);
    hide Exec;
    if TaskOf(act) == Some(t) {
      ItemWasRead(w, act, t);
    }
  }

  lemma {:induction false} ReadIsItem(n: nat, hasResponded: bool, acts: seq<Act>, t: nat)
    requires ToldItem(Run(Start(n, hasResponded), acts), t)
    ensures var w0 := Start(n, hasResponded); var task := Run(w0, acts).tasks[t];
            ReadElsewhere(w0, acts, t) <==> task.stage.item != Some(ItemOf(task.response))
  {
    var w0 := Start(n, hasResponded);
    assert acts != [];
    hide Exec, ReadsElsewhere, SnapsPaired, SlotPaired, Start;
    var front, act := acts[..|acts| - 1], acts[|acts| - 1];
    var w := Run(w0, front);
    assert Run(w0, acts) == Exec(w, act);
    RunPairs(n, hasResponded, acts);
    StepReads(w, act, t);
    if !(TaskOf(act) == Some(t) && !ToldItem(w, t)) {
      ReadIsItem(n, hasResponded, front, t);
    }
  }

  lemma FinishEventIds(s: Snapshot, k: nat)
    requires k < |FinishEvents(s)|
    ensures BothIds(FinishEvents(s)[k]) && FinishEvents(s)[k].response == Some(s.response)
    ensures FinishEvents(s)[k].item == s.item
  {
  }

  /** The event told for an announcement is paired exactly if its item is the response's. */
  lemma TellPaired(slot: Slot, r: Id, stage: Stage, after: After)
    requires SlotPaired(slot) && TellOf(slot, r, stage, after).Some?
    ensures var e := TellOf(slot, r, stage, after).value;
            (BothIds(e) ==> Paired(e)) <==>
              if stage.TellItemAdded? then stage.item == Some(ItemOf(r))
              else !(TellsFromSlot(slot, stage, after) && slot.response != Some(r))
  {
  }

  lemma PairedNext(log: seq<Event>, e: Event)
    ensures AllPaired(log + [e]) <==> AllPaired(log) && (BothIds(e) ==> Paired(e))
  {
    assert (log + [e])[|log|] == e;
    assert forall k | 0 <= k < |log| :: (log + [e])[k] == log[k];
  }

  /** An event that is not told for an announcement is paired. */
  lemma OtherEventPaired(w: World, w': World, t: nat)
    requires Works(w, w', t, None) && PairedWorld(w')
    ensures AllPaired(w'.log) <==> AllPaired(w.log)
  {
    if w'.log != w.log {
      var e := w'.log[|w.log|];
      assert w'.log == w.log + [e];
      PairedNext(w.log, e);
      if Closes(w', t, e) {
        FinishEventIds(w'.tasks[t].snap, w'.tasks[t].sent - 1);
      }
    }
  }

  lemma TaskTellPaired(n: nat, hasResponded: bool, acts: seq<Act>, t: nat)
    requires TellBy(Run(Start(n, hasResponded), acts), Resume(t)).Some?
    ensures var e := TellBy(Run(Start(n, hasResponded), acts), Resume(t)).value;
            (BothIds(e) ==> Paired(e)) <==> !Strays(Start(n, hasResponded), acts, Resume(t))
  {
    hide Run, TellOf, TellsFromSlot, ReadElsewhere, BothIds, Paired;
    var w := Run(Start(n, hasResponded), acts);
    var task := w.tasks[t];
    RunPairs(n, hasResponded, acts);
    TellPaired(w.conv.slot, task.response, task.stage, task.after);
    if task.stage.TellItemAdded? {
      ReadIsItem(n, hasResponded, acts, t);
    }
  }

  lemma BeginTellPaired(w: World, act: Act)
    requires PairedWorld(w) && act.BeginAnnounce? && TellBy(w, act).Some?
    ensures var e := TellBy(w, act).value; BothIds(e) ==> Paired(e)
  {
    hide TellOf;
    TellPaired(w.conv.slot, w.conv.slot.response.value, CheckItem, act.after);
  }

  lemma StrayIsTold(w0: World, acts: seq<Act>, act: Act)
    requires Strays(w0, acts, act)
    ensures act.Resume? && TellBy(Run(w0, acts), act).Some?
  {
    hide Run, ReadElsewhere;
  }

  lemma WorksTells(w: World, w': World, t: nat, e: Event)
    requires Works(w, w', t, Some(e))
    ensures w'.log == w.log + [e]
  {
  }

  lemma StepPairedExactly(n: nat, hasResponded: bool, acts: seq<Act>, act: Act)
    ensures var w := Run(Start(n, hasResponded), acts);
            AllPaired(Exec(w, act).log) <==> AllPaired(w.log) && !Strays(Start(n, hasResponded), acts, act)
  {
    hide Exec, Run, Works, AllPaired, PairedWorld, Strays, TellBy;
    var w0 := Start(n, hasResponded);
    var w := Run(w0, acts);
    RunBegins(n, hasResponded, acts);
    RunWorded(n, hasResponded, acts);
    RunPairs(n, hasResponded, acts);
    ExecPairs(w, act);
    ExecWorks(w, act);
    if Strays(w0, acts, act) {
      StrayIsTold(w0, acts, act);
    }
    if TellBy(w, act).None? {
      OtherEventPaired(w, Exec(w, act), TaskOf(act).GetOr(0));
    } else {
      WorksTells(w, Exec(w, act), TaskOf(act).GetOr(0), TellBy(w, act).value);
      PairedNext(w.log, TellBy(w, act).value);
      OnlyAnnouncing(w, act);
      if act.Resume? {
        TaskTellPaired(n, hasResponded, acts, act.t);
      } else {
        BeginTellPaired(w, act);
      }
    }
  }

  lemma OnlyAnnouncing(w: World, act: Act)
    requires TellBy(w, act).Some?
    ensures act.Resume? || act.BeginAnnounce?
  {
  }

  /** In every interleaving, every event that carries a response and an item carries the item minted with that
      response, exactly if no task tells an item, a part or audio of its response from a slot that is not its own. */
  lemma {:induction false} PairedExactly(n: nat, hasResponded: bool, acts: seq<Act>)
    ensures var w0 := Start(n, hasResponded);
            AllPaired(Run(w0, acts).log) <==> forall k | 0 <= k < |acts| :: !Strays(w0, acts[..k], acts[k])
  {
    hide Exec, Strays, AllPaired;
    if acts == [] {
      NothingToPair(n, hasResponded);
    } else {
      var m := |acts| - 1;
      PairedExactly(n, hasResponded, acts[..m]);
      StepPairedExactly(n, hasResponded, acts[..m], acts[m]);
      assert forall k | 0 <= k < m :: acts[..m][..k] == acts[..k] && acts[..m][k] == acts[k];
    }
  }

  lemma NothingToPair(n: nat, hasResponded: bool)
    ensures AllPaired(Start(n, hasResponded).log)
  {
  }

  // ----- A run that mixes ids -----

  /** The observer (task 0) begins a response, the audio output (task 1) goes on to announce it, a client (task 2)
      cancels it, waits for the whole finish sequence and then asks for a new response. */
  function Announced2(audio: seq<bv8>): seq<Act> {
    [BeginAnnounce(0, Nothing, false)] + [BeginAnnounce(1, PlayAudio(audio), false)]
  }

  function Cancelled2(audio: seq<bv8>, more: nat): seq<Act> {
    if more == 0 then Announced2(audio) + [ClientFinish(2, "")] else Cancelled2(audio, more - 1) + [Resume(2)]
  }

  function Overtaken(audio: seq<bv8>): seq<Act> {
    Cancelled2(audio, 5) + [BeginAnnounce(2, Nothing, true)]
  }

  ghost predicate AudioWaits(w: World, audio: seq<bv8>) {
    |w.tasks| == 3 && w.tasks[1] == Announcing(0, TellItemAdded(Some(1)), PlayAudio(audio))
  }

  lemma {:induction false} AnnouncedWorld2(audio: seq<bv8>)
    ensures var w := Run(Start(3, true), Announced2(audio));
            && AudioWaits(w, audio) && w.tasks[2] == Idle && w.conv.nextId == 2
            && w.conv.slot == Slot(Some(0), Some(InProgress), false, Some(1), "", true, false, false, false)
  {
    var w0, first := Start(3, true), BeginAnnounce(0, Nothing, false);
    assert Run(w0, []) == w0 && [] + [first] == [first];
    hide Run;
    RunNext(w0, [], first, w0);
    FirstBegins(audio);
    RunNext(w0, [first], BeginAnnounce(1, PlayAudio(audio), false), Exec(w0, first));
  }

  lemma FirstBegins(audio: seq<bv8>)
    ensures var first := Exec(Start(3, true), BeginAnnounce(0, Nothing, false));
            var w := Exec(first, BeginAnnounce(1, PlayAudio(audio), false));
            && AudioWaits(w, audio) && w.tasks[2] == Idle && w.conv.nextId == 2
            && w.conv.slot == Slot(Some(0), Some(InProgress), false, Some(1), "", true, false, false, false)
  {
    var w := Exec(Start(3, true), BeginAnnounce(0, Nothing, false));
    assert w.conv.slot == Slot(Some(0), Some(InProgress), false, Some(1), "", false, false, false, false);
    assert w.tasks == [Announcing(0, CheckItem, Nothing), Idle, Idle];
  }

  /** Task 2 is in its finish sequence, of a response that nothing has followed. */
  ghost predicate Finishes(w: World, audio: seq<bv8>, sent: nat) {
    && AudioWaits(w, audio) && w.tasks[2].Finishing? && w.tasks[2].sent == sent && |FinishEvents(w.tasks[2].snap)| == 5
    && w.tasks[2].snap.generation == w.conv.generation && !w.conv.Active() && w.conv.nextId == 2
  }

  lemma CancelStarts(w: World, audio: seq<bv8>)
    requires AudioWaits(w, audio) && w.tasks[2] == Idle && w.conv.nextId == 2
    requires w.conv.slot == Slot(Some(0), Some(InProgress), false, Some(1), "", true, false, false, false)
    ensures Finishes(Exec(w, ClientFinish(2, "")), audio, 1)
  {
  }

  lemma FinishGoesOn(w: World, audio: seq<bv8>, sent: nat)
    requires Finishes(w, audio, sent) && sent < 5
    ensures Finishes(Exec(w, Resume(2)), audio, sent + 1)
  {
    hide FinishEvents;
  }

  lemma FinishEnds(w: World, audio: seq<bv8>)
    requires Finishes(w, audio, 5)
    ensures var w' := Exec(Exec(w, Resume(2)), BeginAnnounce(2, Nothing, true));
            && AudioWaits(w', audio)
            && w'.conv.slot == Slot(Some(2), Some(InProgress), false, Some(3), "", false, false, false, false)
  {
    hide FinishEvents;
    var c := Exec(w, Resume(2));
    assert c.conv.slot == EMPTY_SLOT && c.tasks[2] == Idle && c.tasks[1] == w.tasks[1] && c.conv.nextId == 2;
  }

  lemma {:induction false} CancelledWorld2(audio: seq<bv8>, more: nat)
    requires more < 5
    ensures Finishes(Run(Start(3, true), Cancelled2(audio, more)), audio, more + 1)
  {
    var w0 := Start(3, true);
    if more == 0 {
      AnnouncedWorld2(audio);
      hide Run, Announced2, Start, Finishes, AudioWaits, Exec;
      CancelStarts(Run(w0, Announced2(audio)), audio);
      RunNext(w0, Announced2(audio), ClientFinish(2, ""), Run(w0, Announced2(audio)));
    } else {
      hide Run, Start, Finishes, Exec;
      var w := Run(w0, Cancelled2(audio, more - 1));
      CancelledWorld2(audio, more - 1);
      FinishGoesOn(w, audio, more);
      RunNext(w0, Cancelled2(audio, more - 1), Resume(2), w);
    }
  }

  lemma {:induction false} OvertakenWorld(audio: seq<bv8>)
    ensures var w := Run(Start(3, true), Overtaken(audio));
            && AudioWaits(w, audio)
            && w.conv.slot == Slot(Some(2), Some(InProgress), false, Some(3), "", false, false, false, false)
  {
    hide Run, Exec, Start, Finishes, AudioWaits;
    var w0, acts := Start(3, true), Cancelled2(audio, 4);
    CancelledWorld2(audio, 4);
    var w := Run(w0, acts);
    FinishEnds(w, audio);
    RunNext(w0, acts, Resume(2), w);
    RunNext(w0, acts + [Resume(2)], BeginAnnounce(2, Nothing, true), Exec(w, Resume(2)));
  }

  /** The audio task then tells the part of response 0, and its audio, with the item of response 2. */
  lemma {:induction false} IdsCanMix(audio: seq<bv8>)
    ensures var log := Run(Start(3, true), Overtaken(audio) + [Resume(1)] + [Resume(1)] + [Resume(1)]).log;
            && |log| > 1
            && log[|log| - 2..] == [ContentPartAdded(Some(0), Some(3)), AudioDelta(Some(0), Some(3), audio)]
            && !AllPaired(log)
  {
    OvertakenWorld(audio);
    var w0, acts := Start(3, true), Overtaken(audio);
    var w := Run(w0, acts);
    hide Run, Overtaken, Start, Exec;
    AudioGoesOn(w, audio);
    RunNext(w0, acts, Resume(1), w);
    RunNext(w0, acts + [Resume(1)], Resume(1), Exec(w, Resume(1)));
    RunNext(w0, acts + [Resume(1)] + [Resume(1)], Resume(1), Exec(Exec(w, Resume(1)), Resume(1)));
    var log := Run(w0, acts + [Resume(1)] + [Resume(1)] + [Resume(1)]).log;
    assert log[|log| - 1] == AudioDelta(Some(0), Some(3), audio);
  }

  lemma AudioGoesOn(w: World, audio: seq<bv8>)
    requires AudioWaits(w, audio)
    requires w.conv.slot == Slot(Some(2), Some(InProgress), false, Some(3), "", false, false, false, false)
    ensures Exec(Exec(Exec(w, Resume(1)), Resume(1)), Resume(1)).log == w.log
         + [OutputItemAdded(Some(0), Some(1))] + [ContentPartAdded(Some(0), Some(3))] +
           [AudioDelta(Some(0), Some(3), audio)]
  {
  }

  // ----- What follows `response.done` -----

  predicate Carries(e: Event, r: Id) {
    IsResponseEvent(e) && !e.AssistantItemCreated? && e.response == Some(r)
  }

  ghost predicate IsDone(log: seq<Event>, r: Id) {
    exists k | 0 <= k < |log| :: log[k].ResponseDone? && log[k].response == Some(r)
  }

  /** The act sends an event of response `r`. */
  predicate Sends(w: World, act: Act, r: Id) {
    var log := Exec(w, act).log;
    |log| > |w.log| && Carries(log[|w.log|], r)
  }

  /** A task that announces response `r` goes on to add its item to the output, or to tell its part or audio. */
  predicate AnnouncesFor(w: World, act: Act, r: Id) {
    && act.Resume? && act.t < |w.tasks| && w.tasks[act.t].Announcing?
    && (var task := w.tasks[act.t];
        task.response == r && (task.stage.TellItemAdded? || TellsFromSlot(w.conv.slot, task.stage, task.after)))
  }

  /** All closing events of a response that is done have been sent. */
  ghost predicate AllClosed(w: World, taken: Taken, r: Id) {
    r in taken && ClosingEvents(w.log, r) == FinishEvents(taken[r])
  }

  lemma {:induction false} DoneIsClosing(log: seq<Event>, k: nat, r: Id) returns (i: nat)
    requires k < |log| && log[k].ResponseDone? && log[k].response == Some(r)
    ensures i < |ClosingEvents(log, r)| && ClosingEvents(log, r)[i] == log[k]
  {
    if k < |log| - 1 {
      i := DoneIsClosing(log[..|log| - 1], k, r);
    } else {
      i := |ClosingEvents(log[..|log| - 1], r)|;
    }
  }

  lemma DoneClosesAll(w: World, taken: Taken, r: Id)
    requires LogFits(w, taken) && IsDone(w.log, r)
    ensures AllClosed(w, taken, r)
  {
    var k :| 0 <= k < |w.log| && w.log[k].ResponseDone? && w.log[k].response == Some(r);
    var i := DoneIsClosing(w.log, k, r);
    DoneIsLast(taken[r]);
    hide FinishEvents, ClosingEvents;
  }

  /** The event of an announcing task carries its response unless it tells the new item. */
  lemma TellCarries(slot: Slot, r: Id, stage: Stage, after: After, r': Id)
    ensures (TellOf(slot, r, stage, after).Some? && Carries(TellOf(slot, r, stage, after).value, r')) <==>
      r == r' && (stage.TellItemAdded? || TellsFromSlot(slot, stage, after))
  {
  }

  lemma ClosesAnother(w: World, w': World, taken: Taken, taken': Taken, t: nat, e: Event, r: Id)
    requires AllClosed(w, taken, r) && Fits(w', taken') && r in taken' && taken'[r] == taken[r]
    requires w'.log == w.log + [e] && Closes(w', t, e)
    ensures !Carries(e, r)
  {
    hide FinishEvents, ClosingEvents;
    var snap := w'.tasks[t].snap;
    FinishEventsClose(snap, w'.tasks[t].sent - 1);
    ClosingEventsAppend(w.log, e, r);
    assert |ClosingEvents(w'.log, r)| <= |FinishEvents(taken'[r])|;
  }

  lemma OtherEventElsewhere(w: World, w': World, taken: Taken, taken': Taken, t: nat, r: Id)
    requires Works(w, w', t, None) && AllClosed(w, taken, r) && SlotFits(w.conv, taken)
    requires Fits(w', taken') && r in taken' && taken'[r] == taken[r]
    ensures |w'.log| > |w.log| ==> !Carries(w'.log[|w.log|], r)
  {
    hide FinishEvents, LogFits, TasksFit;
    if |w'.log| > |w.log| {
      var e := w'.log[|w.log|];
      assert w'.log == w.log + [e];
      if Closes(w', t, e) {
        ClosesAnother(w, w', taken, taken', t, e, r);
      }
    }
  }

  /** Once a response is done, exactly the tasks still announcing it send events of it. */
  lemma {:induction false} AfterDoneExactly(n: nat, hasResponded: bool, acts: seq<Act>, act: Act, r: Id)
    requires IsDone(Run(Start(n, hasResponded), acts).log, r)
    ensures var w := Run(Start(n, hasResponded), acts); Sends(w, act, r) <==> AnnouncesFor(w, act, r)
  {
    var w := Run(Start(n, hasResponded), acts);
    var taken := RunFits(n, hasResponded, acts);
    DoneClosesAll(w, taken, r);
    RunBegins(n, hasResponded, acts);
    RunWorded(n, hasResponded, acts);
    hide Exec, Run, IsDone;
    SentAfterDone(w, act, taken, r);
  }

  lemma SentAfterDone(w: World, act: Act, taken: Taken, r: Id)
    requires Fits(w, taken) && AllClosed(w, taken, r) && Sound(w.conv) && Worded(w)
    ensures Sends(w, act, r) <==> AnnouncesFor(w, act, r)
  {
    hide Exec, Works, LogFits, TasksFit, TellOf, TellsFromSlot, AllClosed, Carries;
    ExecWorks(w, act);
    ExecFits(w, taken, act);
    AllClosedTaken(w, taken, r);
    var w', taken' := Exec(w, act), Adding(taken, Captured(w, act));
    match act {
      case Resume(t) =>
        if t < |w.tasks| && w.tasks[t].Announcing? {
          TellCarries(w.conv.slot, w.tasks[t].response, w.tasks[t].stage, w.tasks[t].after, r);
        }
      case BeginAnnounce(t, after, _) =>
        if !w.conv.Opens() {
          TellCarries(w.conv.slot, w.conv.slot.response.value, CheckItem, after, r);
        }
      case _ =>
    }
    if TellBy(w, act).Some? {
      WorksTells(w, w', TaskOf(act).GetOr(0), TellBy(w, act).value);
    } else {
      OtherEventElsewhere(w, w', taken, taken', TaskOf(act).GetOr(0), r);
    }
  }

  lemma AllClosedTaken(w: World, taken: Taken, r: Id)
    ensures AllClosed(w, taken, r) ==> r in taken
  {
  }

  // ----- The deltas make up the transcript -----

  /** The transcript deltas told of a response, joined. */
  function ToldText(log: seq<Event>, r: Id): string {
    if log == [] then ""
    else
      var e := log[|log| - 1];
      ToldText(log[..|log| - 1], r) + if e.TranscriptDelta? && e.response == Some(r) then e.delta else ""
  }

  /** A client finish that puts untold text in the transcript of the response it ends. */
  predicate Cuts(w: World, act: Act) {
    act.ClientFinish? && act.untold != "" && w.conv.slot.transcript == "" && Captured(w, act).Some?
  }

  /** The responses that a run ends so. */
  function CutShort(w0: World, acts: seq<Act>): set<Id> {
    if acts == [] then {}
    else
      var front, act := acts[..|acts| - 1], acts[|acts| - 1];
      CutShort(w0, front) + if Cuts(Run(w0, front), act) then {Captured(Run(w0, front), act).value.response} else {}
  }

  lemma ToldNext(log: seq<Event>, e: Event, r: Id)
    ensures ToldText(log + [e], r) ==
      ToldText(log, r) + if e.TranscriptDelta? && e.response == Some(r) then e.delta else ""
  {
    assert (log + [e])[..|log|] == log;
  }

  /** What has been told of the response in progress is its transcript; of responses to come nothing is told. */
  ghost predicate Tells(w: World) {
    && (w.conv.Active() ==>
      w.conv.slot.response.Some? && ToldText(w.log, w.conv.slot.response.value) == w.conv.slot.transcript)
    && (forall r: Id | r >= w.conv.nextId :: ToldText(w.log, r) == "")
  }

  /** The response in progress has been minted. */
  ghost predicate Minted(c: Conv) {
    c.Active() ==> c.slot.response.Some? && c.slot.response.value < c.nextId
  }

  lemma TellIsNoDelta(w: World, act: Act)
    ensures TellBy(w, act).Some? ==> !TellBy(w, act).value.TranscriptDelta?
  {
  }

  /** If the piece of work tells text, it belongs to the response then in progress. */
  ghost predicate ToldGrows(w: World, w': World, r: Id) {
    if w'.log != w.log && |w'.log| > 0 && w'.log[|w'.log| - 1].TranscriptDelta? then
      && Says(w.conv, w'.conv, w'.log[|w'.log| - 1])
      && ToldText(w'.log, r) ==
        ToldText(w.log, r) + if w'.conv.slot.response == Some(r) then w'.log[|w'.log| - 1].delta else ""
    else ToldText(w'.log, r) == ToldText(w.log, r) && Still(w.conv, w'.conv)
  }

  /** What an act tells belongs to the response in progress after it. */
  lemma ToldStep(w: World, act: Act, r: Id)
    requires Sound(w.conv) && Worded(w)
    ensures ToldGrows(w, Exec(w, act), r)
  {
    hide Exec, TellBy, ToldText, IsResponseEvent, Closes, Worded;
    var w', t := Exec(w, act), TaskOf(act).GetOr(0);
    ExecWorks(w, act);
    TellIsNoDelta(w, act);
    if w'.log != w.log {
      var e := w'.log[|w.log|];
      assert w'.log == w.log + [e];
      ToldNext(w.log, e, r);
      if e.TranscriptDelta? {
        ClosingIsNoDelta(w', t, e);
        DeltaIsResponseEvent(e);
      }
    }
  }

  lemma ClosingIsNoDelta(w': World, t: nat, e: Event)
    ensures Closes(w', t, e) ==> !e.TranscriptDelta?
  {
  }

  lemma DeltaIsResponseEvent(e: Event)
    requires e.TranscriptDelta?
    ensures IsResponseEvent(e)
  {
  }

  lemma TellsNext(w: World, w': World)
    requires Tells(w) && Minted(w'.conv) && w'.conv.nextId >= w.conv.nextId && forall r: Id :: ToldGrows(w, w', r)
    ensures Tells(w')
  {
    hide ToldText;
    forall r: Id | r >= w'.conv.nextId ensures ToldText(w'.log, r) == "" {
      assert ToldGrows(w, w', r);
    }
    if w'.conv.Active() {
      assert ToldGrows(w, w', w'.conv.slot.response.value);
    }
  }

  lemma ExecTells(w: World, act: Act)
    requires Sound(w.conv) && Worded(w) && Tells(w) && Minted(Exec(w, act).conv)
    ensures Tells(Exec(w, act))
  {
    hide Exec, Tells, Minted, AppendsIdle, Created;
    forall r: Id ensures ToldGrows(w, Exec(w, act), r) {
      ToldStep(w, act, r);
    }
    ExecBegins(w, act);
    TellsNext(w, Exec(w, act));
  }

  /** A snapshot that task `t` takes has the response in progress before and its transcript, or the untold text. */
  ghost predicate TakesText(w: World, w': World, t: nat, untold: string) {
    t < |w'.tasks| && w'.tasks[t].Finishing? ==>
      && w.conv.Active() && w.conv.slot.response == Some(w'.tasks[t].snap.response)
      && w'.tasks[t].snap.transcript ==
        if untold != "" && w.conv.slot.transcript == "" then untold else w.conv.slot.transcript
  }

  lemma FinishTakes(w: World, t: nat, untold: string, status: Final)
    requires t < |w.tasks| && !w.tasks[t].Finishing?
    ensures TakesText(w, Complete(w, t, status), t, "") && TakesText(w, FinishUp(w, t, untold, status), t, "")
    ensures w.conv.CanComplete() ==> TakesText(w, Cancel(w, t, untold), t, untold)
  {
    hide FinishEvents;
    assert "" + untold == untold;
  }

  lemma AnnounceTakes(w: World, t: nat, r: Id, after: After)
    requires t < |w.tasks| && !w.tasks[t].Finishing?
    ensures TakesText(w, GoOn(w, t, r, after), t, "")
    ensures TakesText(w, AnnouncePart(w, t, r, after), t, "")
    ensures TakesText(w, AnnounceItem(w, t, r, after), t, "")
  {
    hide FinishUp;
    if after.FinishFailed? {
      FinishTakes(w, t, after.untold, Failed);
    }
  }

  lemma CaptureTakes(w: World, act: Act)
    requires Sound(w.conv) && Captured(w, act).Some?
    ensures var s := Captured(w, act).value;
            && w.conv.Active() && w.conv.slot.response == Some(s.response)
            && s.transcript == if Cuts(w, act) then act.untold else w.conv.slot.transcript
  {
    hide GoOn, AnnouncePart, AnnounceItem, FinishUp, Cancel, Complete, FinishEvents;
    var t := TaskOf(act).value;
    match act
    case BeginAnnounce(_, after, _) =>
      var c := w.conv.BeginResponse();
      AnnounceTakes(w.On(c), t, c.slot.response.value, after);
    case ObserverFinish(_, untold, status) => FinishTakes(w, t, untold, status);
    case ClientFinish(_, untold) => FinishTakes(w, t, untold, Cancelled);
    case Resume(_) =>
      if w.tasks[t].Announcing? {
        AnnounceTakes(w, t, w.tasks[t].response, w.tasks[t].after);
      } else if w.tasks[t].Telling? {
        FinishTakes(w, t, "", w.tasks[t].status);
      }
    case _ =>
  }

  /** What the deltas of a response with a snapshot come to. */
  ghost predicate DeltasAre(log: seq<Event>, cut: set<Id>, s: Snapshot) {
    ToldText(log, s.response) == if s.response in cut then "" else s.transcript
  }

  /** Of a response that has its snapshot nothing more is told. */
  lemma NothingMoreTold(w: World, act: Act, taken: Taken, s: Snapshot)
    requires Sound(w.conv) && Worded(w) && Fits(Exec(w, act), taken) && s.response in taken
    ensures ToldText(Exec(w, act).log, s.response) == ToldText(w.log, s.response)
  {
    ToldStep(w, act, s.response);
    hide Exec, ToldText, LogFits, TasksFit;
  }

  /** A response gets its snapshot when everything told of it is its transcript, but for untold text. */
  lemma ToldWhenTaken(w: World, act: Act, taken: Taken)
    requires Sound(w.conv) && Worded(w) && Tells(w) && Captured(w, act).Some?
    requires Fits(Exec(w, act), taken) && Captured(w, act).value.response in taken
    ensures DeltasAre(Exec(w, act).log,
      if Cuts(w, act) then {Captured(w, act).value.response} else {}, Captured(w, act).value)
  {
    hide Exec, Captured, ToldText, Worded;
    CaptureTakes(w, act);
    NothingMoreTold(w, act, taken, Captured(w, act).value);
  }

  ghost predicate DeltasFit(log: seq<Event>, snaps: seq<Snapshot>, cut: set<Id>) {
    && (forall k | 0 <= k < |snaps| :: DeltasAre(log, cut, snaps[k]))
    && (forall r | r in cut :: HasSnapshot(snaps, r))
  }

  lemma SameDeltas(log: seq<Event>, log': seq<Event>, snaps: seq<Snapshot>, cut: set<Id>)
    requires DeltasFit(log, snaps, cut)
    requires forall k | 0 <= k < |snaps| :: ToldText(log', snaps[k].response) == ToldText(log, snaps[k].response)
    ensures DeltasFit(log', snaps, cut)
  {
    hide ToldText;
    forall k | 0 <= k < |snaps| ensures DeltasAre(log', cut, snaps[k]) {
      assert DeltasAre(log, cut, snaps[k]);
    }
  }

  lemma OneMoreSnapshot(log: seq<Event>, snaps: seq<Snapshot>, cut: set<Id>, s: Snapshot, own: set<Id>)
    requires DeltasFit(log, snaps, cut) && !HasSnapshot(snaps, s.response)
    requires own <= {s.response} && DeltasAre(log, own, s)
    ensures DeltasFit(log, snaps + [s], cut + own)
  {
    hide ToldText;
    var snaps' := snaps + [s];
    forall k | 0 <= k < |snaps| ensures DeltasAre(log, cut + own, snaps'[k]) {
      assert DeltasAre(log, cut, snaps[k]);
      assert snaps[k].response == s.response ==> HasSnapshot(snaps, s.response);
    }
    assert snaps'[|snaps|] == s;
    forall r | r in cut + own ensures HasSnapshot(snaps', r) {
      if r in cut {
        assert HasSnapshot(snaps, r);
        var k :| 0 <= k < |snaps| && snaps[k].response == r;
        assert snaps'[k] == snaps[k];
      }
    }
  }

  lemma ListsHas(snaps: seq<Snapshot>, taken: Taken, r: Id)
    requires Lists(snaps, taken)
    ensures HasSnapshot(snaps, r) ==> r in taken
  {
  }

  lemma DeltasNext(w: World, act: Act, snaps: seq<Snapshot>, cut: set<Id>, taken: Taken)
    requires Sound(w.conv) && Worded(w) && Tells(w) && Fits(w, taken) && Lists(snaps, taken)
    requires DeltasFit(w.log, snaps, cut)
    ensures var snap := Captured(w, act);
            DeltasFit(Exec(w, act).log, snaps + (if snap.Some? then [snap.value] else []),
                      cut + if Cuts(w, act) then {snap.value.response} else {})
  {
    ExecFits(w, taken, act);
    var snap := Captured(w, act);
    assert Cuts(w, act) ==> snap.Some?;
    hide Exec, Captured, Cuts, ToldText, Worded, Tells, Fits, DeltasFit, DeltasAre, HasSnapshot;
    forall k | 0 <= k < |snaps|
      ensures ToldText(Exec(w, act).log, snaps[k].response) == ToldText(w.log, snaps[k].response)
    {
      NothingMoreTold(w, act, Adding(taken, snap), snaps[k]);
    }
    SameDeltas(w.log, Exec(w, act).log, snaps, cut);
    if snap.Some? {
      ListsHas(snaps, taken, snap.value.response);
      ToldWhenTaken(w, act, Adding(taken, snap));
      OneMoreSnapshot(Exec(w, act).log, snaps, cut, snap.value, if Cuts(w, act) then {snap.value.response} else {});
    } else {
      assert snaps + [] == snaps && cut + {} == cut;
    }
  }

  lemma {:induction false} RunTells(n: nat, hasResponded: bool, acts: seq<Act>)
    ensures Tells(Run(Start(n, hasResponded), acts))
  {
    var w0 := Start(n, hasResponded);
    if acts == [] {
      NothingTold(n, hasResponded);
    } else {
      var front, act := acts[..|acts| - 1], acts[|acts| - 1];
      var taken := RunFits(n, hasResponded, acts);
      FitsMinted(Run(w0, acts), taken);
      RunTells(n, hasResponded, front);
      RunBegins(n, hasResponded, front);
      RunWorded(n, hasResponded, front);
      hide Exec, Tells, Minted, Sound, Worded, Fits;
      ExecTells(Run(w0, front), act);
    }
  }

  lemma NothingTold(n: nat, hasResponded: bool)
    ensures Tells(Start(n, hasResponded))
  {
  }

  lemma FitsMinted(w: World, taken: Taken)
    requires Fits(w, taken)
    ensures Minted(w.conv)
  {
    hide LogFits, TasksFit;
  }

  /** However the tasks interleave, the deltas told of a response that has been completed are its whole transcript;
      only of one that a client ends with untold text nothing was told. */
  lemma {:induction false} DeltasAreTheTranscript(n: nat, hasResponded: bool, acts: seq<Act>)
    ensures var w0 := Start(n, hasResponded); DeltasFit(Run(w0, acts).log, Snapshots(w0, acts), CutShort(w0, acts))
  {
    var w0 := Start(n, hasResponded);
    if acts != [] {
      var front, act := acts[..|acts| - 1], acts[|acts| - 1];
      DeltasAreTheTranscript(n, hasResponded, front);
      var taken := RunFits(n, hasResponded, front);
      RunTells(n, hasResponded, front);
      RunBegins(n, hasResponded, front);
      RunWorded(n, hasResponded, front);
      hide Exec, Captured, Cuts, DeltasFit, Tells, Sound, Worded, Fits, Lists, Begun, Silent, Created;
      DeltasNext(Run(w0, front), act, Snapshots(w0, front), CutShort(w0, front), taken);
    }
  }
}
