/** What every run of the protocol puts on the wire: whole responses one after the other, each with the
    transcript that belongs to it, and nothing from the client before the first one is done. */
module ResponseStream {
  import opened Wrappers
  import opened Conversation
  import opened Lifecycle
  import opened Observer
  import opened Serializer
  import opened Protocol

  // ----- Text by response, over a whole run -----

  /** The text told of response `r` in a run: its TTS words one after the other, without those that repeat the end
      of what was told before. */
  function TtsTold(s0: Session, ins: seq<Input>, r: Id): string {
    if ins == [] then ""
    else
      var n := |ins| - 1;
      Tell(TtsTold(s0, ins[..n], r), TtsWord(Run(s0, ins[..n]), ins[n], r))
  }

  /** All LLM text delivered to response `r` in a run. */
  function LlmHeard(s0: Session, ins: seq<Input>, r: Id): string {
    if ins == [] then ""
    else
      var n := |ins| - 1;
      LlmHeard(s0, ins[..n], r) + LlmWord(Run(s0, ins[..n]), ins[n], r)
  }

  /** Whether a client message ended response `r` in a run. */
  predicate ClientCut(s0: Session, ins: seq<Input>, r: Id) {
    if ins == [] then false
    else
      var n := |ins| - 1;
      ClientCut(s0, ins[..n], r) || Cuts(Run(s0, ins[..n]), ins[n], r)
  }

  /** The audio sent in a run while response `r` was open. */
  function AudioHeard(s0: Session, ins: seq<Input>, r: Id): seq<seq<bv8>> {
    if ins == [] then []
    else
      var n := |ins| - 1;
      AudioHeard(s0, ins[..n], r)
      + if Run(s0, ins[..n]).sys.ch.conv.slot.response == Some(r) then AudioSent(ins[n]) else []
  }

  /** Step `k` of a run ends the response of the block, with the status of the block. */
  ghost predicate EndsAt(s0: Session, ins: seq<Input>, b: Block, k: nat) {
    && k < |ins| && EndingStatus(ins[k]) == Some(b.status)
    && Run(s0, ins[..k]).sys.ch.conv.slot.response == Some(b.response)
    && Run(s0, ins[..k + 1]).sys.ch.conv.slot.response == None
  }

  predicate GateWasOpened(ins: seq<Input>) {
    exists i :: i in ins && i.GateOpened?
  }

  ghost predicate Untouched(s0: Session, ins: seq<Input>, r: Id) {
    TtsTold(s0, ins, r) == "" && LlmHeard(s0, ins, r) == "" && !ClientCut(s0, ins, r) && AudioHeard(s0, ins, r) == []
  }

  /** The transcript of a finished response, by the text its run delivered to it. */
  ghost predicate Transcribes(s0: Session, ins: seq<Input>, b: Block) {
    Faithful(b, TtsTold(s0, ins, b.response), LlmHeard(s0, ins, b.response), ClientCut(s0, ins, b.response))
  }

  /** The audio of a finished response, and how it ended. */
  ghost predicate Plays(s0: Session, ins: seq<Input>, b: Block) {
    && AudioOf(b.parts) == AudioHeard(s0, ins, b.response)
    && exists k: nat :: EndsAt(s0, ins, b, k)
  }

  ghost predicate BlocksTold(s0: Session, ins: seq<Input>, bs: seq<Block>) {
    forall k | 0 <= k < |bs| :: Transcribes(s0, ins, bs[k]) && Plays(s0, ins, bs[k])
  }

  ghost predicate OpenTold(s0: Session, ins: seq<Input>, g: Ledger) {
    g.open.Some? ==>
      var r := g.open.value.response;
      && g.told == TtsTold(s0, ins, r) && g.llm == LlmHeard(s0, ins, r) && !ClientCut(s0, ins, r)
      && AudioOf(g.open.value.parts) == AudioHeard(s0, ins, r)
  }

  ghost predicate FreshUntouched(s0: Session, ins: seq<Input>, next: Id) {
    forall r: Id | r >= next :: Untouched(s0, ins, r)
  }

  ghost predicate Records(s0: Session, ins: seq<Input>, g: Ledger) {
    var s := Run(s0, ins);
    && Holds(s.sys, g)
    && (Responded(s) <==> Responded(s0) || GateWasOpened(ins) || |g.bs| > 0)
    && BlocksTold(s0, ins, g.bs) && OpenTold(s0, ins, g) && FreshUntouched(s0, ins, s.sys.ch.conv.nextId)
  }

  lemma {:induction false} RunRecords(s0: Session, ins: seq<Input>) returns (g: Ledger)
    requires Holds(s0.sys, Ledger([], None, "", ""))
    ensures Records(s0, ins, g)
  {
    hide *;
    if ins == [] {
      g := Ledger([], None, "", "");
      NothingRecorded(s0);
    } else {
      var n := |ins| - 1;
      var front := RunRecords(s0, ins[..n]);
      RecordsHolds(s0, ins[..n], front);
      g := StepKeeps(Run(s0, ins[..n]), ins[n], front);
      RecordsStep(s0, ins, front, g);
    }
  }

  lemma NothingRecorded(s0: Session)
    requires Holds(s0.sys, Ledger([], None, "", ""))
    ensures Records(s0, [], Ledger([], None, "", ""))
  {
    hide Holds;
    assert !GateWasOpened([]);
  }

  lemma RecordsHolds(s0: Session, ins: seq<Input>, g: Ledger)
    requires Records(s0, ins, g)
    ensures Holds(Run(s0, ins).sys, g)
    ensures Responded(Run(s0, ins)) <==> Responded(s0) || GateWasOpened(ins) || |g.bs| > 0
    ensures BlocksTold(s0, ins, g.bs)
  {
    hide Holds, BlocksTold, OpenTold, FreshUntouched;
  }

  lemma RunStep(s0: Session, ins: seq<Input>)
    requires ins != []
    ensures Run(s0, ins) == Step(Run(s0, ins[..|ins| - 1]), ins[|ins| - 1]).0
  {
    hide Step;
  }

  lemma GateWasOpenedLast(ins: seq<Input>)
    requires ins != []
    ensures var n := |ins| - 1; GateWasOpened(ins) <==> GateWasOpened(ins[..n]) || ins[n].GateOpened?
  {
    var n := |ins| - 1;
    assert ins == ins[..n] + [ins[n]];
  }

  /** Where the ids of a ledger lie. */
  ghost predicate Placed(s: Session, g: Ledger) {
    && (forall k | 0 <= k < |g.bs| :: g.bs[k].response < s.sys.ch.conv.nextId)
    && (match g.open
        case None => s.sys.ch.conv.slot.response == None
        case Some(o) =>
          && s.sys.ch.conv.slot.response == Some(o.response) && o.response < s.sys.ch.conv.nextId
          && forall k | 0 <= k < |g.bs| :: g.bs[k].response != o.response)
    && (g.open.None? ==> g.told == "" && g.llm == "")
  }

  lemma HoldsPlaced(s: Session, g: Ledger)
    requires Holds(s.sys, g)
    ensures Placed(s, g)
  {
  }

  /** What one more step adds to the text of a response that is not open after it: nothing. */
  lemma HeardElsewhere(s0: Session, ins: seq<Input>, r: Id)
    requires ins != [] && Run(s0, ins).sys.ch.conv.slot.response != Some(r)
    ensures var n := |ins| - 1;
            && TtsTold(s0, ins, r) == TtsTold(s0, ins[..n], r)
            && LlmHeard(s0, ins, r) == LlmHeard(s0, ins[..n], r)
            && (Run(s0, ins[..n]).sys.ch.conv.slot.response != Some(r) ==>
              ClientCut(s0, ins, r) == ClientCut(s0, ins[..n], r))
            && (Run(s0, ins[..n]).sys.ch.conv.slot.response != Some(r) || AudioSent(ins[n]) == [] ==>
              AudioHeard(s0, ins, r) == AudioHeard(s0, ins[..n], r))
  {
    hide Receive, Observe;
  }

  lemma FreshStep(s0: Session, ins: seq<Input>, next: Id, next': Id)
    requires ins != [] && FreshUntouched(s0, ins[..|ins| - 1], next) && next <= next'
    requires forall r: Id | r >= next' :: Run(s0, ins).sys.ch.conv.slot.response != Some(r)
    requires forall r: Id | r >= next' :: Run(s0, ins[..|ins| - 1]).sys.ch.conv.slot.response != Some(r)
    ensures FreshUntouched(s0, ins, next')
  {
    hide Run, TtsTold, LlmHeard, ClientCut, AudioHeard;
    forall r: Id | r >= next' ensures Untouched(s0, ins, r) {
      assert Untouched(s0, ins[..|ins| - 1], r);
      HeardElsewhere(s0, ins, r);
    }
  }

  /** A finished response that is not in the slot keeps its text. */
  lemma BlocksStep(s0: Session, ins: seq<Input>, bs: seq<Block>)
    requires ins != [] && BlocksTold(s0, ins[..|ins| - 1], bs)
    requires forall k | 0 <= k < |bs| :: Run(s0, ins).sys.ch.conv.slot.response != Some(bs[k].response)
    requires forall k | 0 <= k < |bs| :: Run(s0, ins[..|ins| - 1]).sys.ch.conv.slot.response != Some(bs[k].response)
    ensures BlocksTold(s0, ins, bs)
  {
    hide Run, TtsTold, LlmHeard, ClientCut, AudioHeard, Faithful, EndsAt;
    var n := |ins| - 1;
    forall k | 0 <= k < |bs| ensures Transcribes(s0, ins, bs[k]) && Plays(s0, ins, bs[k]) {
      assert Transcribes(s0, ins[..n], bs[k]) && Plays(s0, ins[..n], bs[k]);
      HeardElsewhere(s0, ins, bs[k].response);
      var at: nat :| EndsAt(s0, ins[..n], bs[k], at);
      EndsAtLater(s0, ins, bs[k], at);
    }
  }

  lemma EndsAtLater(s0: Session, ins: seq<Input>, b: Block, at: nat)
    requires ins != [] && EndsAt(s0, ins[..|ins| - 1], b, at)
    ensures EndsAt(s0, ins, b, at)
  {
    hide Run;
    var n := |ins| - 1;
    assert ins[..n][..at] == ins[..at] && ins[..n][..at + 1] == ins[..at + 1];
  }

  /** The response that a step finishes. */
  lemma NewBlockStep(s0: Session, ins: seq<Input>, front: Ledger, b: Block)
    requires ins != [] && front.open.Some? && b.response == front.open.value.response
    requires OpenTold(s0, ins[..|ins| - 1], front)
    requires Run(s0, ins).sys.ch.conv.slot.response == None
    requires Run(s0, ins[..|ins| - 1]).sys.ch.conv.slot.response == Some(b.response)
    requires Faithful(b, front.told, front.llm, Cuts(Run(s0, ins[..|ins| - 1]), ins[|ins| - 1], b.response))
    requires AudioOf(b.parts) == AudioOf(front.open.value.parts) && EndingStatus(ins[|ins| - 1]) == Some(b.status)
    ensures Transcribes(s0, ins, b) && Plays(s0, ins, b)
  {
    hide Run, Faithful, Cuts, TtsWord, LlmWord;
    HeardElsewhere(s0, ins, b.response);
    assert ins[..|ins| - 1 + 1] == ins;
    assert EndsAt(s0, ins, b, |ins| - 1);
  }

  /** The response that is open after a step. */
  lemma OpenStep(s0: Session, ins: seq<Input>, front: Ledger, g: Ledger)
    requires ins != [] && g.open.Some? && Run(s0, ins).sys.ch.conv.slot.response == Some(g.open.value.response)
    requires OpenTold(s0, ins[..|ins| - 1], front)
    requires var r := g.open.value.response;
             && (match front.open
                 case Some(was) =>
                   && was.response == r && Run(s0, ins[..|ins| - 1]).sys.ch.conv.slot.response == Some(r)
                   && AudioOf(g.open.value.parts) == AudioOf(was.parts) + AudioSent(ins[|ins| - 1])
                 case None =>
                   && front.told == "" && front.llm == "" && Untouched(s0, ins[..|ins| - 1], r)
                   && Run(s0, ins[..|ins| - 1]).sys.ch.conv.slot.response == None
                   && AudioOf(g.open.value.parts) == [])
             && g.told == Tell(front.told, TtsWord(Run(s0, ins[..|ins| - 1]), ins[|ins| - 1], r))
             && g.llm == front.llm + LlmWord(Run(s0, ins[..|ins| - 1]), ins[|ins| - 1], r)
    ensures OpenTold(s0, ins, g)
  {
    hide Run, Cuts, TtsWord, LlmWord, Tell;
    NotCutWhileOpen(s0, ins, g.open.value.response);
  }

  /** A step keeps the record of a run: ids only grow, and text goes to no response but the one open after it. */
  lemma RecordsStep(s0: Session, ins: seq<Input>, front: Ledger, g: Ledger)
    requires ins != []
    requires Records(s0, ins[..|ins| - 1], front)
    requires Advances(Run(s0, ins[..|ins| - 1]), ins[|ins| - 1], front, g)
    ensures Records(s0, ins, g)
  {
    hide Run, Step, Holds, Faithful, TtsWord, LlmWord, Cuts, Tell, GateWasOpened, Responded, BlocksTold, OpenTold,
         FreshUntouched, TtsTold, LlmHeard, ClientCut, AudioHeard, AudioOf, AudioSent, Begins, Ends, EndingStatus;
    var n := |ins| - 1;
    var s, i := Run(s0, ins[..n]), ins[n];
    RunStep(s0, ins);
    GateWasOpenedLast(ins);
    HoldsPlaced(s, front);
    HoldsPlaced(Run(s0, ins), g);
    FreshStep(s0, ins, s.sys.ch.conv.nextId, Run(s0, ins).sys.ch.conv.nextId);
    BlocksStep(s0, ins, front.bs);
    match g.open
    case Some(o) =>
      if front.open.None? {
        FreshHas(s0, ins[..n], s.sys.ch.conv.nextId, o.response);
      }
      OpenStep(s0, ins, front, g);
    case None =>
      OpenNone(s0, ins, g);
      if front.open.Some? {
        NewBlockStep(s0, ins, front, g.bs[|front.bs|]);
        BlocksAppend(s0, ins, front.bs, g.bs[|front.bs|]);
        assert g.bs == front.bs + [g.bs[|front.bs|]];
      }
  }

  lemma FreshHas(s0: Session, ins: seq<Input>, next: Id, r: Id)
    requires FreshUntouched(s0, ins, next) && r >= next
    ensures Untouched(s0, ins, r)
  {
    hide Untouched;
  }

  lemma OpenNone(s0: Session, ins: seq<Input>, g: Ledger)
    requires g.open.None?
    ensures OpenTold(s0, ins, g)
  {
  }

  lemma BlocksAppend(s0: Session, ins: seq<Input>, bs: seq<Block>, b: Block)
    requires BlocksTold(s0, ins, bs) && Transcribes(s0, ins, b) && Plays(s0, ins, b)
    ensures BlocksTold(s0, ins, bs + [b])
  {
    hide Transcribes, Plays;
  }

  lemma NotCutWhileOpen(s0: Session, ins: seq<Input>, r: Id)
    requires ins != [] && Run(s0, ins).sys.ch.conv.slot.response == Some(r)
    ensures ClientCut(s0, ins, r) == ClientCut(s0, ins[..|ins| - 1], r)
  {
    hide Receive, Observe;
  }

  // ----- The main results -----

  ghost predicate DistinctIds(bs: seq<Block>, open: Option<OpenBlock>) {
    && (forall j, k | 0 <= j < k < |bs| :: bs[j].response != bs[k].response && bs[j].item != bs[k].item)
    && (open.Some? ==> forall k | 0 <= k < |bs| ::
          bs[k].response != open.value.response && bs[k].item != open.value.item)
  }

  lemma StartHolds(rate: nat, hasResponded: bool, maxFrames: nat)
    ensures Holds(Start(rate, hasResponded, maxFrames).sys, Ledger([], None, "", ""))
  {
  }

  lemma HoldsShape(s: Session, g: Ledger)
    requires Holds(s.sys, g)
    ensures ResponseEvents(s.sys.ch.log) == Render(g.bs, g.open)
    ensures Increasing(g.bs, g.open, s.sys.ch.conv.nextId) && DistinctIds(g.bs, g.open)
    ensures s.sys.ch.conv.slot == SlotOf(g.open) && s.sys.ch.conv.generation == Count(g.bs, g.open)
  {
  }

  lemma FaithfulPrefix(b: Block, told: string, llm: string, cut: bool)
    requires Faithful(b, told, llm, cut)
    ensures Spoken(b.parts) <= b.transcript
  {
    hide Spoken;
  }

  /** In every run the response events are whole blocks followed by at most one open block. Every block has
      its own response id and item id, every response that was begun was announced, every transcript is the TTS
      text told of that response or else its LLM text, its audio is what was sent while it was open, and its status is
      that of the input that ended it. */
  lemma {:induction false} ResponseStream(rate: nat, hasResponded: bool, maxFrames: nat, ins: seq<Input>)
    returns (bs: seq<Block>, open: Option<OpenBlock>)
    ensures var s0 := Start(rate, hasResponded, maxFrames); var ch := Run(s0, ins).sys.ch;
            && ResponseEvents(ch.log) == Render(bs, open)
            && DistinctIds(bs, open)
            && (open.Some? <==> ch.conv.Active())
            && ch.conv.generation == Count(bs, open)
            && (forall k | 0 <= k < |bs| :: Transcribes(s0, ins, bs[k]) && Plays(s0, ins, bs[k]))
            && (forall k | 0 <= k < |bs| :: Spoken(bs[k].parts) <= bs[k].transcript)
  {
    hide Step, Run, Holds, Render, Increasing, DistinctIds, Start, ResponseEvents, Faithful, Spoken, Records, TtsTold,
         LlmHeard, ClientCut, Plays;
    var s0 := Start(rate, hasResponded, maxFrames);
    StartHolds(rate, hasResponded, maxFrames);
    var g := RunRecords(s0, ins);
    RecordsHolds(s0, ins, g);
    HoldsShape(Run(s0, ins), g);
    bs, open := g.bs, g.open;
    forall k | 0 <= k < |bs| ensures Spoken(bs[k].parts) <= bs[k].transcript {
      assert Transcribes(s0, ins, bs[k]);
      var r := bs[k].response;
      FaithfulPrefix(bs[k], TtsTold(s0, ins, r), LlmHeard(s0, ins, r), ClientCut(s0, ins, r));
    }
  }

  /** What the client sees of a run: whole blocks, and a response that is open exactly while one is in progress. */
  ghost predicate Shows(s: Session, g: Ledger) {
    && ResponseEvents(s.sys.ch.log) == Render(g.bs, g.open) && DistinctIds(g.bs, g.open)
    && (g.open.Some? <==> s.sys.ch.conv.Active())
  }

  /** After any run, exactly the inputs that `Ends` names end the open response, at once and with the status that
      belongs to the input; and with nothing open exactly those that `Begins` names open one, with new ids. */
  ghost predicate Decides(s: Session, i: Input, g: Ledger, g': Ledger) {
    match g.open
    case Some(o) =>
      && (g'.open == None <==> Ends(s, i, g))
      && (match g'.open
          case None =>
            && g'.bs != [] && g'.bs[..|g'.bs| - 1] == g.bs
            && var b := g'.bs[|g'.bs| - 1];
               b.response == o.response && b.item == o.item && EndingStatus(i) == Some(b.status)
          case Some(o') => g'.bs == g.bs && o'.response == o.response && o'.item == o.item)
    case None =>
      && g'.bs == g.bs && (g'.open.Some? <==> Begins(s, i))
      && (g'.open.Some? ==> forall e | e in s.sys.ch.log :: ResponseOf(e) != Some(g'.open.value.response))
  }

  lemma EvolvesDecides(s: Session, i: Input, g: Ledger, g': Ledger)
    requires Evolves(s, i, g, g')
    requires forall e | e in s.sys.ch.log :: ResponseOf(e).Some? ==> ResponseOf(e).value < s.sys.ch.conv.nextId
    ensures Decides(s, i, g, g')
  {
    hide Ends, Begins, TtsWord, LlmWord, Tell, Faithful, Cuts, EndingStatus;
  }

  lemma HoldsShows(s: Session, g: Ledger)
    requires Holds(s.sys, g)
    ensures Shows(s, g)
  {
    hide Render, Increasing, ResponseEvents;
    HoldsShape(s, g);
  }

  lemma {:induction false} InputDecides(rate: nat, hasResponded: bool, maxFrames: nat, ins: seq<Input>, i: Input)
    returns (g: Ledger, g': Ledger)
    ensures var s := Run(Start(rate, hasResponded, maxFrames), ins);
            && Holds(s.sys, g) && Shows(s, g) && Shows(Step(s, i).0, g') && Decides(s, i, g, g')
            && (Responded(s) <==> hasResponded || GateWasOpened(ins) || g.bs != [])
  {
    hide *;
    var s0 := Start(rate, hasResponded, maxFrames);
    StartHolds(rate, hasResponded, maxFrames);
    g := RunRecords(s0, ins);
    RecordsHolds(s0, ins, g);
    var s := Run(s0, ins);
    g' := StepKeeps(s, i, g);
    AdvancesIs(s, i, g, g');
    HoldsShows(s, g);
    HoldsShows(Step(s, i).0, g');
    DoneIsLogged(s, g);
    EvolvesDecides(s, i, g, g');
    StartsResponded(rate, hasResponded, maxFrames);
  }

  lemma AdvancesIs(s: Session, i: Input, g: Ledger, g': Ledger)
    requires Advances(s, i, g, g')
    ensures Holds(Step(s, i).0.sys, g') && Evolves(s, i, g, g')
  {
    hide Holds, Evolves, Step;
  }

  lemma StartsResponded(rate: nat, hasResponded: bool, maxFrames: nat)
    ensures Responded(Start(rate, hasResponded, maxFrames)) == hasResponded
  {
  }

  lemma {:induction false} ResponseEventsKeep(log: seq<Event>, e: Event)
    ensures e in ResponseEvents(log) <==> e in log && IsResponseEvent(e)
  {
    if log != [] {
      ResponseEventsKeep(log[..|log| - 1], e);
      assert log == log[..|log| - 1] + [log[|log| - 1]];
    }
  }

  ghost predicate SomeDone(log: seq<Event>) {
    exists e :: e in log && e.ResponseDone?
  }

  /** The response id an event carries. */
  function ResponseOf(e: Event): Option<Id> {
    if IsResponseEvent(e) && !e.AssistantItemCreated? then e.response else None
  }

  lemma OpenIds(o: OpenBlock)
    ensures forall e | e in RenderOpen(o) :: ResponseOf(e) in {None, Some(o.response)} && !e.ResponseDone?
  {
    forall e | e in PartEvents(o.response, o.item, o.parts)
      ensures ResponseOf(e) == Some(o.response) && !e.ResponseDone? {
    }
  }

  /** Everything rendered carries an id that was minted before. */
  lemma {:induction false} RenderedIds(bs: seq<Block>, open: Option<OpenBlock>, next: Id)
    requires Increasing(bs, open, next)
    ensures forall e | e in Render(bs, open) :: ResponseOf(e).Some? ==> ResponseOf(e).value < next
    decreases |bs|, open.Some?
  {
    if open.Some? {
      RenderedIds(bs, None, next);
      OpenIds(open.value);
    } else if bs != [] {
      var b := bs[|bs| - 1];
      RenderedIds(bs[..|bs| - 1], None, next);
      OpenIds(OpenBlock(b.response, b.item, b.parts));
    }
  }

  /** A rendering has a `response.done` as soon as it has a block. */
  lemma {:induction false} RenderedDone(bs: seq<Block>, open: Option<OpenBlock>)
    ensures SomeDone(Render(bs, open)) <==> bs != []
  {
    if bs != [] {
      var b := bs[|bs| - 1];
      var done := ResponseDone(Some(b.response), Some(b.item), b.transcript, b.status);
      assert Closing(b)[4] == done;
      assert Render(bs, None)[|Render(bs, None)| - 1] == done;
      assert done in Render(bs, open);
    } else if open.Some? {
      assert Render(bs, open) == RenderOpen(open.value);
      OpenIds(open.value);
    }
  }

  lemma DoneIsLogged(s: Session, g: Ledger)
    requires Holds(s.sys, g)
    ensures g.bs != [] <==> SomeDone(s.sys.ch.log)
    ensures forall e | e in s.sys.ch.log :: ResponseOf(e).Some? ==> ResponseOf(e).value < s.sys.ch.conv.nextId
  {
    HoldsShape(s, g);
    hide Inv;
    var log := s.sys.ch.log;
    RenderedIds(g.bs, g.open, s.sys.ch.conv.nextId);
    RenderedDone(g.bs, g.open);
    forall e ensures e in Render(g.bs, g.open) <==> e in log && IsResponseEvent(e) {
      ResponseEventsKeep(log, e);
    }
  }

  /** With the gate closed at first, it is open exactly once a response is done. */
  lemma {:induction false} GateOpensWhenDone(rate: nat, maxFrames: nat, ins: seq<Input>)
    requires !GateWasOpened(ins)
    ensures var s := Run(Start(rate, false, maxFrames), ins); s.sys.ch.conv.hasResponded <==> SomeDone(s.sys.ch.log)
  {
    hide *;
    var s0 := Start(rate, false, maxFrames);
    StartHolds(rate, false, maxFrames);
    var g := RunRecords(s0, ins);
    RecordsHolds(s0, ins, g);
    DoneIsLogged(Run(s0, ins), g);
    RespondedIs(s0);
    RespondedIs(Run(s0, ins));
    StartsClosed(rate, maxFrames);
  }

  lemma RespondedIs(s: Session)
    ensures Responded(s) <==> s.sys.ch.conv.hasResponded
  {
  }

  lemma StartsClosed(rate: nat, maxFrames: nat)
    ensures !Start(rate, false, maxFrames).sys.ch.conv.hasResponded
  {
  }

  /** A request that gets through opens exactly one response, with an id never seen before. */
  lemma {:induction false} RequestOpensOne(rate: nat, hasResponded: bool, maxFrames: nat, ins: seq<Input>, i: Input)
    requires Step(Run(Start(rate, hasResponded, maxFrames), ins), i).1 == Some(LlmRun)
    ensures var s := Run(Start(rate, hasResponded, maxFrames), ins); var log := s.sys.ch.log;
            && Step(s, i).0.sys.ch.log == log + Opening(s.sys.ch.conv.nextId, s.sys.ch.conv.nextId + 1)
            && forall e | e in log :: ResponseOf(e) != Some(s.sys.ch.conv.nextId)
  {
    hide *;
    var s0 := Start(rate, hasResponded, maxFrames);
    StartHolds(rate, hasResponded, maxFrames);
    var s := Run(s0, ins);
    var g := RunRecords(s0, ins);
    RecordsHolds(s0, ins, g);
    DoneIsLogged(s, g);
    OnlyPastTheGate(s, i);
    HoldsIdle(s, g);
    AnnounceOpens(s.sys.ch, g.bs);
  }

  /** The welcome gate: until the first response is done no client text and no client request for a response
      gets through, and every request that does opens exactly one response, with an id never seen before. */
  lemma {:induction false} WelcomeGate(rate: nat, maxFrames: nat, ins: seq<Input>, i: Input)
    requires !GateWasOpened(ins)
    ensures var s := Run(Start(rate, false, maxFrames), ins); var log := s.sys.ch.log; var (s', out) := Step(s, i);
            && (s.sys.ch.conv.hasResponded <==> SomeDone(log))
            && (out.Some? && (out.value.LlmRun? || out.value.AppendUserText?) ==> SomeDone(log))
            && (out == Some(LlmRun) ==>
                  && s'.sys.ch.log == log + Opening(s.sys.ch.conv.nextId, s.sys.ch.conv.nextId + 1)
                  && forall e | e in log :: ResponseOf(e) != Some(s.sys.ch.conv.nextId))
  {
    hide *;
    var s := Run(Start(rate, false, maxFrames), ins);
    GateOpensWhenDone(rate, maxFrames, ins);
    var out := Step(s, i).1;
    if out.Some? && (out.value.LlmRun? || out.value.AppendUserText?) {
      OnlyPastTheGate(s, i);
      if out.value.LlmRun? {
        RequestOpensOne(rate, false, maxFrames, ins, i);
      }
    }
  }

  lemma HoldsIdle(s: Session, g: Ledger)
    requires Holds(s.sys, g) && !s.sys.ch.conv.Active()
    ensures Shape(s.sys.ch, g.bs, None)
  {
  }

  /** Which steps let client text or a client request through, and when. */
  lemma OnlyPastTheGate(s: Session, i: Input)
    requires Step(s, i).1.Some? && (Step(s, i).1.value.LlmRun? || Step(s, i).1.value.AppendUserText?)
    ensures s.sys.ch.conv.hasResponded
    ensures Step(s, i).1.value.LlmRun? ==>
      var ch := s.sys.ch;
      !ch.conv.Active() &&
        Step(s, i).0.sys.ch == ch.(conv := ch.conv.(slot := ch.conv.slot.(requested := true))).Announce()
  {
    hide Observe;
  }

  lemma AnnounceOpens(ch: Channel, bs: seq<Block>)
    requires Shape(ch, bs, None)
    ensures var reserved := ch.(conv := ch.conv.(slot := ch.conv.slot.(requested := true)));
            reserved.Announce().log == ch.log + Opening(ch.conv.nextId, ch.conv.nextId + 1)
  {
    var reserved := ch.(conv := ch.conv.(slot := ch.conv.slot.(requested := true)));
    assert reserved.Announce() == ch.Announce();
    ShapeAnnounce(ch, bs, None);
  }
}
