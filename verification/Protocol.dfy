/** Runs of the Realtime protocol in which every handler call is one step, and the stream of response
    events that every run puts on the wire. */
module Protocol {
  import opened Wrappers
  import opened Conversation
  import opened Lifecycle
  import opened Observer
  import opened Serializer

  // ----- Runs -----

  /** What can happen next: a frame is pushed, a client message or an audio frame arrives, or the session is
      started without a welcome message. */
  datatype Input =
    | Pushed(push: Push)
    | Received(message: Message)
    | AudioOut(pcm: seq<bv8>, resampled: Option<seq<bv8>>)
    | GateOpened

  function Step(s: Session, i: Input): (Session, Option<OutFrame>) {
    match i
    case Pushed(push) => (s.(sys := Observe(s.sys, push)), None)
    case Received(message) => Receive(s, message)
    case AudioOut(pcm, resampled) => (s.On(SendAudio(s.sys.ch, pcm, resampled)), None)
    case GateOpened => (s.On(s.sys.ch.(conv := s.sys.ch.conv.(hasResponded := true))), None)
  }

  function Run(s: Session, ins: seq<Input>): Session {
    if ins == [] then s else Step(Run(s, ins[..|ins| - 1]), ins[|ins| - 1]).0
  }

  /** A new session. */
  function Start(pipelineRate: nat, hasResponded: bool, maxFrames: nat): Session {
    Session(System(Channel(InitialConv(hasResponded), []), InitialWatch(maxFrames)), pipelineRate, 0)
  }

  // ----- The grammar of response events -----

  datatype Part = Said(text: string) | Played(audio: seq<bv8>)

  /** A finished response, as the client sees it. */
  datatype Block = Block(response: Id, item: Id, parts: seq<Part>, transcript: string, status: Status)

  /** A response still in progress. */
  datatype OpenBlock = OpenBlock(response: Id, item: Id, parts: seq<Part>)

  function Opening(response: Id, item: Id): seq<Event> {
    [ResponseCreated(Some(response)), AssistantItemCreated(Some(item)),
     OutputItemAdded(Some(response), Some(item)), ContentPartAdded(Some(response), Some(item))]
  }

  function PartEvent(response: Id, item: Id, part: Part): Event {
    match part
    case Said(text) => TranscriptDelta(Some(response), Some(item), text)
    case Played(audio) => AudioDelta(Some(response), Some(item), audio)
  }

  function PartEvents(response: Id, item: Id, parts: seq<Part>): seq<Event> {
    seq(|parts|, k requires 0 <= k < |parts| => PartEvent(response, item, parts[k]))
  }

  function Closing(b: Block): seq<Event> {
    var r, i := Some(b.response), Some(b.item);
    [AudioDone(r, i), TranscriptDone(r, i, b.transcript), ContentPartDone(r, i, b.transcript),
     OutputItemDone(r, i, b.transcript, b.status == Completed), ResponseDone(r, i, b.transcript, b.status)]
  }

  function RenderOpen(o: OpenBlock): seq<Event> {
    Opening(o.response, o.item) + PartEvents(o.response, o.item, o.parts)
  }

  function Render(bs: seq<Block>, open: Option<OpenBlock>): seq<Event>
    decreases |bs|, open.Some?
  {
    if open.Some? then Render(bs, None) + RenderOpen(open.value)
    else if bs == [] then []
    else
      var b := bs[|bs| - 1];
      Render(bs[..|bs| - 1], None) + RenderOpen(OpenBlock(b.response, b.item, b.parts)) + Closing(b)
  }

  /** What the client has been told of the transcript. */
  function Spoken(parts: seq<Part>): string {
    if parts == [] then ""
    else
      var last := parts[|parts| - 1];
      Spoken(parts[..|parts| - 1]) + if last.Said? then last.text else ""
  }

  /** The audio the client has been sent. */
  function AudioOf(parts: seq<Part>): seq<seq<bv8>> {
    if parts == [] then []
    else
      var last := parts[|parts| - 1];
      AudioOf(parts[..|parts| - 1]) + if last.Played? then [last.audio] else []
  }

  /** The response-scoped events of a log. */
  function ResponseEvents(log: seq<Event>): seq<Event> {
    if log == [] then []
    else
      var last := log[|log| - 1];
      ResponseEvents(log[..|log| - 1]) + if IsResponseEvent(last) then [last] else []
  }

  lemma {:induction false} ResponseEventsAppend(log: seq<Event>, es: seq<Event>)
    ensures ResponseEvents(log + es) == ResponseEvents(log) + ResponseEvents(es)
  {
    if es == [] {
      assert log + es == log;
    } else {
      var n := |es| - 1;
      assert (log + es)[..|log + es| - 1] == log + es[..n];
      ResponseEventsAppend(log, es[..n]);
    }
  }

  lemma {:induction false} AllResponseEvents(es: seq<Event>)
    requires forall k | 0 <= k < |es| :: IsResponseEvent(es[k])
    ensures ResponseEvents(es) == es
  {
    if es != [] {
      AllResponseEvents(es[..|es| - 1]);
      assert es == es[..|es| - 1] + [es[|es| - 1]];
    }
  }

  lemma {:induction false} NoResponseEvents(es: seq<Event>)
    requires forall k | 0 <= k < |es| :: !IsResponseEvent(es[k])
    ensures ResponseEvents(es) == []
  {
    if es != [] {
      NoResponseEvents(es[..|es| - 1]);
    }
  }

  // ----- The shape every step keeps -----

  /** Ids are minted in increasing order. */
  ghost predicate Increasing(bs: seq<Block>, open: Option<OpenBlock>, next: Id) {
    && (forall k | 0 <= k < |bs| :: bs[k].response < bs[k].item < next)
    && (forall j, k | 0 <= j < k < |bs| :: bs[j].item < bs[k].response)
    && (open.Some? ==> open.value.response < open.value.item < next)
    && (open.Some? ==> forall k | 0 <= k < |bs| :: bs[k].item < open.value.response)
  }

  function SlotOf(open: Option<OpenBlock>): Slot {
    match open
    case None => EMPTY_SLOT
    case Some(o) =>
      Slot(Some(o.response), Some(InProgress), false, Some(o.item), Spoken(o.parts), true, true, false, false)
  }

  function Count(bs: seq<Block>, open: Option<OpenBlock>): nat {
    |bs| + if open.Some? then 1 else 0
  }

  /** The log renders the blocks, and the response slot mirrors the open one. */
  ghost predicate Shape(ch: Channel, bs: seq<Block>, open: Option<OpenBlock>) {
    && ResponseEvents(ch.log) == Render(bs, open)
    && Increasing(bs, open, ch.conv.nextId)
    && ch.conv.slot == SlotOf(open)
    && ch.conv.generation == Count(bs, open)
  }

  /** The item belongs to a response with a transcript: to a finished one, or to the open one as far as it is told. */
  ghost predicate Spoke(bs: seq<Block>, open: Option<OpenBlock>, item: Id) {
    || (exists k | 0 <= k < |bs| :: bs[k].item == item && bs[k].transcript != "")
    || (open.Some? && open.value.item == item && Spoken(open.value.parts) != "")
  }

  /** Transcripts are kept for exactly these items. */
  ghost predicate Kept(conv: Conv, bs: seq<Block>, open: Option<OpenBlock>) {
    forall item: Id :: item in conv.itemTranscripts <==> Spoke(bs, open, item)
  }

  /** A change that does not concern responses. */
  ghost predicate Aside(ch: Channel, ch': Channel) {
    && ch'.conv.slot == ch.conv.slot
    && ch'.conv.itemTranscripts == ch.conv.itemTranscripts
    && ch'.conv.generation == ch.conv.generation
    && ch'.conv.nextId >= ch.conv.nextId
    && ch'.conv.hasResponded == ch.conv.hasResponded
    && ResponseEvents(ch'.log) == ResponseEvents(ch.log)
  }

  lemma AsideEmits(ch: Channel, conv: Conv, es: seq<Event>)
    requires conv.slot == ch.conv.slot && conv.generation == ch.conv.generation && conv.nextId >= ch.conv.nextId
    requires conv.hasResponded == ch.conv.hasResponded && conv.itemTranscripts == ch.conv.itemTranscripts
    requires forall k | 0 <= k < |es| :: !IsResponseEvent(es[k])
    ensures Aside(ch, Channel(conv, ch.log + es))
  {
    ResponseEventsAppend(ch.log, es);
    NoResponseEvents(es);
  }

  lemma AsideShowUserItem(ch: Channel, item: Id)
    ensures Aside(ch, ShowUserItem(ch, item))
  {
    if !ch.conv.turn.announced {
      AsideEmits(ch, ShowUserItem(ch, item).conv, [UserAudioItemCreated(item, ch.conv.turn.pending.GetOr(""))]);
    }
  }

  lemma AsideShowTranscript(ch: Channel)
    ensures Aside(ch, ShowTranscript(ch))
  {
    if ch.conv.turn.stopped && ch.conv.turn.pending != None {
      var c := ch.conv.BeginUserItem();
      var shown := ShowUserItem(ch.(conv := c), c.turn.item.value);
      AsideShowUserItem(ch.(conv := c), c.turn.item.value);
      AsideEmits(shown, shown.conv.ClearUserItem(),
        [InputTranscriptCompleted(c.turn.item.value, ch.conv.turn.pending.value)]);
    }
  }

  predicate IsTurnFrame(f: Frame) {
    f.UserStartedSpeaking? || f.UserStoppedSpeaking? || f.InterimTranscription? || f.Transcription?
  }

  lemma AsideTurn(s: System, f: Frame)
    requires IsTurnFrame(f)
    ensures Aside(s.ch, Handle(s, f).ch) && Handle(s, f).watch == s.watch
  {
    var ch := s.ch;
    match f
    case UserStartedSpeaking =>
      var c := ch.conv.BeginUserTurn();
      AsideEmits(ch, c, [SpeechStarted(c.turn.item.value, c.Ms(c.turn.start.value))]);
    case UserStoppedSpeaking =>
      var c := ch.conv.StopUserTurn();
      var item := c.turn.item.value;
      var told := Channel(c, ch.log + [SpeechStopped(item, c.Ms(c.samples)), AudioCommitted(item)]);
      AsideEmits(ch, c, [SpeechStopped(item, c.Ms(c.samples)), AudioCommitted(item)]);
      AsideShowUserItem(told, item);
      AsideShowTranscript(ShowUserItem(told, item));
    case InterimTranscription(text) =>
      var c := ch.conv.BeginUserItem();
      AsideEmits(ch, c, [InputTranscriptDelta(c.turn.item.value, text)]);
    case Transcription(text) =>
      AsideShowTranscript(ch.(conv := ch.conv.SetUserTranscript(text)));
  }

  // ----- The four changes that do concern responses -----

  function Opened(ch: Channel, open: Option<OpenBlock>): OpenBlock {
    open.GetOr(OpenBlock(ch.conv.nextId, ch.conv.nextId + 1, []))
  }

  lemma ShapeAnnounce(ch: Channel, bs: seq<Block>, open: Option<OpenBlock>)
    requires Shape(ch, bs, open)
    ensures Shape(ch.Announce(), bs, Some(Opened(ch, open)))
    ensures ch.Announce().log == if open.Some? then ch.log else ch.log + Opening(ch.conv.nextId, ch.conv.nextId + 1)
  {
    var es := AnnounceEvents(ch.conv);
    if open.Some? {
      assert ch.log + es == ch.log;
    } else {
      ShapeOpening(ch, bs);
    }
  }

  lemma ShapeOpening(ch: Channel, bs: seq<Block>)
    requires Shape(ch, bs, None)
    ensures Shape(ch.Announce(), bs, Some(Opened(ch, None)))
    ensures ch.Announce().log == ch.log + Opening(ch.conv.nextId, ch.conv.nextId + 1)
  {
    var es := AnnounceEvents(ch.conv);
    var o := Opened(ch, None);
    assert es == Opening(o.response, o.item) == RenderOpen(o);
    ResponseEventsAppend(ch.log, es);
    AllResponseEvents(es);
  }

  function WithPart(o: OpenBlock, part: Part): OpenBlock {
    o.(parts := o.parts + [part])
  }

  /** A delta extends the open block, when the transcript grows by what is said. */
  lemma ShapePart(ch: Channel, bs: seq<Block>, o: OpenBlock, part: Part, conv: Conv)
    requires Shape(ch, bs, Some(o))
    requires conv.slot == SlotOf(Some(WithPart(o, part)))
    requires conv.generation == ch.conv.generation && conv.nextId == ch.conv.nextId
    ensures Shape(Channel(conv, ch.log + [PartEvent(o.response, o.item, part)]), bs, Some(WithPart(o, part)))
  {
    hide Render, PartEvents, ResponseEvents, PartEvent, Spoken;
    var e := PartEvent(o.response, o.item, part);
    PartIsResponseEvent(o.response, o.item, part);
    ResponseEventsAppend(ch.log, [e]);
    AllResponseEvents([e]);
    RenderPart(bs, o, part);
  }

  lemma PartIsResponseEvent(response: Id, item: Id, part: Part)
    ensures IsResponseEvent(PartEvent(response, item, part))
  {
  }

  lemma RenderPart(bs: seq<Block>, o: OpenBlock, part: Part)
    ensures Render(bs, Some(WithPart(o, part))) == Render(bs, Some(o)) + [PartEvent(o.response, o.item, part)]
  {
    var e := PartEvent(o.response, o.item, part);
    assert PartEvents(o.response, o.item, o.parts + [part]) == PartEvents(o.response, o.item, o.parts) + [e];
  }

  lemma SpokenWith(parts: seq<Part>, part: Part)
    ensures Spoken(parts + [part]) == Spoken(parts) + if part.Said? then part.text else ""
    ensures AudioOf(parts + [part]) == AudioOf(parts) + if part.Played? then [part.audio] else []
  {
    assert (parts + [part])[..|parts|] == parts;
  }

  lemma ShapeSay(ch: Channel, bs: seq<Block>, o: OpenBlock, text: string)
    requires Shape(ch, bs, Some(o)) && text != ""
    ensures Shape(Say(ch, text), bs, Some(WithPart(o, Said(text))))
  {
    SpokenWith(o.parts, Said(text));
    ShapePart(ch, bs, o, Said(text), Say(ch, text).conv);
  }

  lemma ShapeAudio(ch: Channel, bs: seq<Block>, o: OpenBlock, audio: seq<bv8>)
    requires Shape(ch, bs, Some(o))
    ensures Shape(ch.Emit(AudioDelta(Some(o.response), Some(o.item), audio)), bs, Some(WithPart(o, Played(audio))))
  {
    SpokenWith(o.parts, Played(audio));
    ShapePart(ch, bs, o, Played(audio), ch.conv);
  }

  function Closed(o: OpenBlock, transcript: string, status: Status): Block {
    Block(o.response, o.item, o.parts, transcript, status)
  }

  /** Finishing closes the open block with the transcript held at that moment. */
  lemma ShapeFinish(ch: Channel, bs: seq<Block>, o: OpenBlock, transcript: string, status: Status)
    requires Shape(ch.(conv := ch.conv.(slot := SlotOf(Some(o)))), bs, Some(o))
    requires ch.conv.slot == SlotOf(Some(o)).(transcript := transcript)
    ensures Shape(ch.Finish(status), bs + [Closed(o, transcript, status)], None)
  {
    var b := Closed(o, transcript, status);
    var es := FinishEvents(ch.conv.TakeSnapshot(status));
    assert es == Closing(b);
    ResponseEventsAppend(ch.log, es);
    AllResponseEvents(es);
    var bs' := bs + [b];
    assert bs'[..|bs|] == bs;
    assert Render(bs', None) == Render(bs, Some(o)) + es;
  }

  // ----- The items that transcripts are kept for -----

  /** Telling more text of the open response keeps a transcript for its item. */
  lemma KeptSaid(conv: Conv, conv': Conv, bs: seq<Block>, o: OpenBlock, o': OpenBlock)
    requires Kept(conv, bs, Some(o)) && o'.item == o.item && Spoken(o'.parts) != ""
    requires conv'.itemTranscripts.Keys == conv.itemTranscripts.Keys + {o.item}
    ensures Kept(conv', bs, Some(o'))
  {
    hide Spoken;
    forall item: Id ensures item in conv'.itemTranscripts <==> Spoke(bs, Some(o'), item) {
      assert item in conv.itemTranscripts <==> Spoke(bs, Some(o), item);
    }
  }

  /** Finishing keeps the transcript, if there is one. */
  lemma KeptFinished(ch: Channel, bs: seq<Block>, b: Block)
    requires ch.conv.slot.status == Some(InProgress) && ch.conv.slot.response.Some?
    requires ch.conv.slot.item == Some(b.item) && ch.conv.slot.transcript == b.transcript
    requires b.item in ch.conv.itemTranscripts ==> b.transcript != ""
    requires forall item: Id | item != b.item :: item in ch.conv.itemTranscripts <==> Spoke(bs, None, item)
    requires !Spoke(bs, None, b.item)
    ensures Kept(ch.Finish(b.status).conv, bs + [b], None)
  {
    forall item: Id ensures Spoke(bs + [b], None, item) <==>
      Spoke(bs, None, item) || (item == b.item && b.transcript != "")
    {
      SpokeNext(bs, b, item);
    }
  }

  lemma SpokeNext(bs: seq<Block>, b: Block, item: Id)
    ensures Spoke(bs + [b], None, item) <==> Spoke(bs, None, item) || (item == b.item && b.transcript != "")
  {
    assert (bs + [b])[|bs|] == b;
    if k: nat :| k < |bs| && bs[k].item == item && bs[k].transcript != "" {
      assert (bs + [b])[k] == bs[k];
    }
  }

  lemma FreshItem(bs: seq<Block>, o: OpenBlock, next: Id)
    requires Increasing(bs, Some(o), next)
    ensures !Spoke(bs, None, o.item)
  {
  }

  // ----- What an input does to responses, from the input -----

  /** The status with which an input ends a response, if it is one that can end it. */
  function EndingStatus(i: Input): Option<Status> {
    match i
    case Pushed(p) => (
      match p.frame
      case TtsStopped(fromOutput) => if fromOutput then Some(Completed) else None
      case LlmResponseEnd(skipTts) => if skipTts then Some(Completed) else None
      case Interruption => Some(Cancelled)
      case PipelineError(fatal) => if fatal then Some(Failed) else None
      case _ => None)
    case Received(m) => if m.ResponseCancel? || m.ItemTruncate? then Some(Cancelled) else None
    case _ => None
  }

  /** The input ends the open response: a frame that is handled, a cancel that names this response or none, or a
      truncation of its item or of the item of any response with a transcript. */
  ghost predicate Ends(s: Session, i: Input, g: Ledger) {
    && EndingStatus(i).Some? && g.open.Some?
    && match i
       case Pushed(p) => Accepts(s.sys.watch, p)
       case Received(ResponseCancel(response)) => response == None || response == Some(g.open.value.response)
       case Received(ItemTruncate(item, audioEndMs)) =>
         && item.Some? && audioEndMs.Some? && audioEndMs.value >= 0
         && (item == Some(g.open.value.item) || Spoke(g.bs, g.open, item.value))
       case _ => false
  }

  /** The input begins a response if none is open. */
  predicate Begins(s: Session, i: Input) {
    match i
    case Pushed(p) => Accepts(s.sys.watch, p) && (
      match p.frame
      case BotStartedSpeaking => true
      case TtsText(text) => text != ""
      case LlmText(text) => text != ""
      case _ => false)
    case Received(m) => m == ResponseCreate(false) && Responded(s)
    case _ => false
  }

  /** The audio an input sends to an open response. */
  function AudioSent(i: Input): seq<seq<bv8>> {
    if i.AudioOut? && i.pcm != [] && i.resampled.Some? then [i.resampled.value] else []
  }

  /** The block that an open response becomes. */
  ghost predicate Becomes(o: OpenBlock, b: Block, status: Status) {
    b.response == o.response && b.item == o.item && b.status == status && AudioOf(b.parts) == AudioOf(o.parts)
  }

  // ----- Which text belongs to which response -----

  /** The TTS text that step `i` delivers to response `r`. */
  function TtsWord(s: Session, i: Input, r: Id): string {
    if i.Pushed? && i.push.frame.TtsText? && Accepts(s.sys.watch, i.push) &&
      Step(s, i).0.sys.ch.conv.slot.response == Some(r)
    then i.push.frame.text else ""
  }

  /** The text a response has been told once one more TTS word is delivered to it: a word the text already ends
      with is not told again. */
  function Tell(told: string, word: string): string {
    if EndsWith(told, word) then told else told + word
  }

  /** The LLM text that step `i` delivers to response `r`. */
  function LlmWord(s: Session, i: Input, r: Id): string {
    if i.Pushed? && i.push.frame.LlmText? && Accepts(s.sys.watch, i.push) &&
      Step(s, i).0.sys.ch.conv.slot.response == Some(r)
    then i.push.frame.text else ""
  }

  /** Whether step `i` is a client message that ends response `r`. */
  predicate Cuts(s: Session, i: Input, r: Id) {
    && i.Received? && (i.message.ResponseCancel? || i.message.ItemTruncate?)
    && s.sys.ch.conv.slot.response == Some(r) && Step(s, i).0.sys.ch.conv.slot.response != Some(r)
  }

  /** The observer's text fields, given the TTS text told and the LLM text delivered to the open response so far. */
  ghost predicate Texts(w: Watch, generation: nat, open: Option<OpenBlock>, told: string, llm: string) {
    match open
    case None => w.buffer == "" && !w.fromTts && told == "" && llm == ""
    case Some(o) =>
      && (w.buffer != "" ==> w.bufferGeneration == generation)
      && Spoken(o.parts) == told
      && (told == "" ==> !w.fromTts && w.buffer == llm)
  }

  ghost predicate Inv(s: System, bs: seq<Block>, open: Option<OpenBlock>, told: string, llm: string) {
    && Shape(s.ch, bs, open)
    && Kept(s.ch.conv, bs, open)
    && Texts(s.watch, s.ch.conv.generation, open, told, llm)
    && !s.ch.conv.slot.requested
  }

  /** What a block's transcript is: the TTS text told, or, when there was none, all the LLM text of that response;
      and what the client was told of it: all, unless it cut the response short with only LLM text known. */
  ghost predicate Faithful(b: Block, told: string, llm: string, cut: bool) {
    && b.transcript == (if told != "" then told else llm)
    && Spoken(b.parts) == (if told == "" && cut then "" else b.transcript)
  }

  lemma InvAside(s: System, s': System, bs: seq<Block>, open: Option<OpenBlock>, told: string, llm: string)
    requires Inv(s, bs, open, told, llm) && Aside(s.ch, s'.ch)
    requires s'.watch.(processed := {}, history := []) == s.watch.(processed := {}, history := [])
    ensures Inv(s', bs, open, told, llm)
  {
  }

  /** The finish of the observer tells the client untold text first. */
  lemma UntoldIsSaid(s: System, bs: seq<Block>, o: OpenBlock, told: string, llm: string, status: Status)
    returns (b: Block)
    requires Inv(s, bs, Some(o), told, llm) && Spoken(o.parts) == "" && llm != ""
    ensures Inv(s.Finish(status), bs + [b], None, "", "")
    ensures Becomes(o, b, status) && Faithful(b, told, llm, false) && s.Finish(status).ch.conv.hasResponded
    ensures s.Finish(status).ch.conv.nextId == s.ch.conv.nextId
  {
    hide Render, ResponseEvents, Spoke;
    ShapeSay(s.ch, bs, o, llm);
    var o' := WithPart(o, Said(llm));
    SpokenWith(o.parts, Said(llm));
    ShapeFinish(Say(s.ch, llm), bs, o', llm, status);
    b := Closed(o', llm, status);
    OpenUnspoken(s.ch.conv, bs, o);
    KeptFinished(Say(s.ch, llm), bs, b);
  }

  /** What is known of the items when the open response has said nothing, and when it has. */
  lemma OpenUnspoken(conv: Conv, bs: seq<Block>, o: OpenBlock)
    requires Kept(conv, bs, Some(o)) && Increasing(bs, Some(o), conv.nextId)
    ensures !Spoke(bs, None, o.item)
    ensures forall item: Id | item != o.item :: item in conv.itemTranscripts <==> Spoke(bs, None, item)
    ensures o.item in conv.itemTranscripts <==> Spoken(o.parts) != ""
  {
    hide Spoken;
    FreshItem(bs, o, conv.nextId);
    forall item: Id ensures item in conv.itemTranscripts <==> Spoke(bs, Some(o), item) {
    }
  }

  /** The finish of the observer closes an open response. */
  lemma ObserverFinishes(s: System, bs: seq<Block>, o: OpenBlock, told: string, llm: string, status: Status)
    returns (b: Block)
    requires Inv(s, bs, Some(o), told, llm)
    ensures Inv(s.Finish(status), bs + [b], None, "", "")
    ensures Becomes(o, b, status) && Faithful(b, told, llm, false) && s.Finish(status).ch.conv.hasResponded
    ensures s.Finish(status).ch.conv.nextId == s.ch.conv.nextId
  {
    if told == "" && llm != "" {
      b := UntoldIsSaid(s, bs, o, told, llm, status);
    } else {
      ShapeFinish(s.ch, bs, o, told, status);
      b := Closed(o, told, status);
      OpenUnspoken(s.ch.conv, bs, o);
      KeptFinished(s.ch, bs, b);
    }
  }

  /** The finish of a client cancel closes the open response; untold text is kept but not told. */
  lemma ClientFinishes(s: System, bs: seq<Block>, o: OpenBlock, told: string, llm: string)
    returns (b: Block)
    requires Inv(s, bs, Some(o), told, llm)
    ensures Inv(CancelResponse(s), bs + [b], None, "", "")
    ensures Becomes(o, b, Cancelled) && Faithful(b, told, llm, true) && CancelResponse(s).ch.conv.hasResponded
  {
    var conv := s.ch.conv;
    var text := s.watch.buffer;
    var transcript := if text != "" && conv.slot.transcript == "" then text else conv.slot.transcript;
    var conv' := if text != "" && conv.slot.transcript == "" then conv.AppendAssistantTranscript(text) else conv;
    assert "" + text == text;
    ShapeFinish(s.ch.(conv := conv'), bs, o, transcript, Cancelled);
    b := Closed(o, transcript, Cancelled);
    OpenUnspoken(conv, bs, o);
    KeptFinished(s.ch.(conv := conv'), bs, b);
  }

  lemma AnnounceKeeps(s: System, bs: seq<Block>, open: Option<OpenBlock>, told: string, llm: string, w: Watch)
    requires Inv(s, bs, open, told, llm)
    requires w.(processed := {}, history := []) == s.watch.(processed := {}, history := []) ||
      (open.None? && w == s.watch.ForgetText())
    ensures Inv(System(s.ch.Announce(), w), bs, Some(Opened(s.ch, open)), told, llm)
  {
    ShapeAnnounce(s.ch, bs, open);
  }

  function AfterTts(w: Watch): Watch {
    w.ForgetText().(fromTts := true)
  }

  /** A TTS word is told, and with it the observer forgets the LLM text. */
  lemma TtsSays(s: System, bs: seq<Block>, o: OpenBlock, told: string, llm: string, text: string)
    requires Inv(s, bs, Some(o), told, llm) && text != ""
    ensures Inv(System(Say(s.ch, text), AfterTts(s.watch)), bs, Some(WithPart(o, Said(text))), told + text, llm)
  {
    hide Render, ResponseEvents, Increasing, Spoke;
    ShapeSay(s.ch, bs, o, text);
    SpokenWith(o.parts, Said(text));
    KeptSaid(s.ch.conv, Say(s.ch, text).conv, bs, o, WithPart(o, Said(text)));
  }

  /** A TTS word that what was told ends with is not told again. */
  lemma TtsRepeats(s: System, bs: seq<Block>, o: OpenBlock, told: string, llm: string)
    requires Inv(s, bs, Some(o), told, llm) && told != ""
    ensures Inv(System(s.ch, AfterTts(s.watch)), bs, Some(o), told, llm)
  {
    hide Shape, Kept;
  }

  lemma SpeakTtsIs(s: System, bs: seq<Block>, o: OpenBlock, told: string, llm: string, text: string)
    requires text != "" && Inv(s.On(s.ch.Announce()), bs, Some(o), told, llm)
    ensures SpeakTts(s, text) ==
      System(if EndsWith(told, text) then s.ch.Announce() else Say(s.ch.Announce(), text), AfterTts(s.watch))
  {
    hide Render, ResponseEvents, Increasing, Kept, Say, Spoken, EndsWith;
  }

  lemma TtsKeeps(s: System, bs: seq<Block>, open: Option<OpenBlock>, told: string, llm: string, text: string)
    returns (o: OpenBlock)
    requires Inv(s, bs, open, told, llm) && text != ""
    ensures var was := Opened(s.ch, open);
            o.response == was.response && o.item == was.item && AudioOf(o.parts) == AudioOf(was.parts)
    ensures Inv(SpeakTts(s, text), bs, Some(o), Tell(told, text), llm)
  {
    hide Inv, AfterTts, SpeakTts, AudioOf, Opened;
    o := Opened(s.ch, open);
    AnnounceKeeps(s, bs, open, told, llm, s.watch);
    var announced := s.On(s.ch.Announce());
    SpeakTtsIs(s, bs, o, told, llm, text);
    if EndsWith(told, text) {
      TtsRepeats(announced, bs, o, told, llm);
    } else {
      TtsSays(announced, bs, o, told, llm, text);
      SpokenWith(o.parts, Said(text));
      o := WithPart(o, Said(text));
    }
  }

  lemma LlmKeeps(s: System, bs: seq<Block>, open: Option<OpenBlock>, told: string, llm: string, text: string)
    requires Inv(s, bs, open, told, llm) && text != ""
    ensures Inv(BufferLlm(s, text), bs, Some(Opened(s.ch, open)), told, llm + text)
  {
    ShapeAnnounce(s.ch, bs, open);
  }

  // ----- One step -----

  /** The blocks after a step, and the text told and delivered of the open one so far. */
  datatype Ledger = Ledger(bs: seq<Block>, open: Option<OpenBlock>, told: string, llm: string)

  ghost predicate Holds(s: System, g: Ledger) {
    Inv(s, g.bs, g.open, g.told, g.llm)
  }

  /** How a step changes the ledger: the open response goes on, with the audio sent to it, until an input ends it, and
      then it has the status of that input; with nothing open an input that begins a response opens a fresh one. */
  ghost predicate Evolves(s: Session, i: Input, g: Ledger, g': Ledger) {
    match g'.open
    case Some(o) =>
      && g'.bs == g.bs
      && (match g.open
          case Some(was) => GoesOn(s, i, g, was, o)
          case None =>
            Begins(s, i) && o.response == s.sys.ch.conv.nextId && o.item == o.response + 1 && AudioOf(o.parts) == [])
      && g'.told == Tell(g.told, TtsWord(s, i, o.response))
      && g'.llm == g.llm + LlmWord(s, i, o.response)
    case None =>
      match g.open
      case Some(was) =>
        && EndingStatus(i).Some? && Ends(s, i, g)
        && |g'.bs| == |g.bs| + 1 && g'.bs[..|g.bs|] == g.bs
        && Becomes(was, g'.bs[|g.bs|], EndingStatus(i).value)
        && Faithful(g'.bs[|g.bs|], g.told, g.llm, Cuts(s, i, was.response))
      case None => g'.bs == g.bs && !Begins(s, i)
  }

  ghost predicate GoesOn(s: Session, i: Input, g: Ledger, was: OpenBlock, o: OpenBlock) {
    && !Ends(s, i, g)
    && o.response == was.response && o.item == was.item && AudioOf(o.parts) == AudioOf(was.parts) + AudioSent(i)
  }

  predicate Responded(s: Session) {
    s.sys.ch.conv.hasResponded
  }

  /** `g'` is the ledger after step `i`. */
  ghost predicate Advances(s: Session, i: Input, g: Ledger, g': Ledger) {
    var s' := Step(s, i).0;
    && Holds(s'.sys, g') && Evolves(s, i, g, g')
    && (Responded(s') <==> Responded(s) || i.GateOpened? || |g'.bs| > |g.bs|)
    && s'.sys.ch.conv.nextId >= s.sys.ch.conv.nextId
  }

  /** The step delivers no text to a response. */
  predicate Wordless(s: Session, i: Input) {
    i.Pushed? && (i.push.frame.TtsText? || i.push.frame.LlmText?) && Accepts(s.sys.watch, i.push) ==>
      i.push.frame.text == ""
  }

  /** The step neither ends the open response nor sends it audio, and begins none. */
  ghost predicate Idles(s: Session, i: Input, g: Ledger) {
    if g.open.Some? then !Ends(s, i, g) && AudioSent(i) == [] else !Begins(s, i)
  }

  /** A step that leaves the slot of responses alone and delivers no text. */
  lemma StepAside(s: Session, i: Input, g: Ledger)
    requires Holds(s.sys, g)
    requires var s' := Step(s, i).0;
             && Aside(s.sys.ch, s'.sys.ch)
             && s'.sys.watch.(processed := {}, history := []) == s.sys.watch.(processed := {}, history := [])
    requires !i.GateOpened? && Wordless(s, i) && Idles(s, i, g)
    ensures Advances(s, i, g, g)
  {
    InvAside(s.sys, Step(s, i).0.sys, g.bs, g.open, g.told, g.llm);
  }

  lemma StepObserverFinish(s: Session, i: Input, g: Ledger, s': System, status: Status) returns (g': Ledger)
    requires Holds(s.sys, g) && i.Pushed? && Wordless(s, i) && Holds(s', g)
    requires s'.ch.conv.hasResponded == s.sys.ch.conv.hasResponded && s'.ch.conv.nextId == s.sys.ch.conv.nextId
    requires Step(s, i).0.sys == s'.Finish(status)
    requires if g.open.Some? then Ends(s, i, g) && EndingStatus(i) == Some(status) else !Begins(s, i)
    ensures Advances(s, i, g, g')
  {
    hide Observe, Receive, Render, Increasing, ResponseEvents;
    match g.open
    case None => g' := g;
    case Some(o) =>
      var b := ObserverFinishes(s', g.bs, o, g.told, g.llm, status);
      g' := Ledger(g.bs + [b], None, "", "");
  }

  lemma StepError(s: Session, i: Input, g: Ledger) returns (g': Ledger)
    requires Holds(s.sys, g) && i.Pushed? && i.push.frame.PipelineError? && Accepts(s.sys.watch, i.push)
    ensures Advances(s, i, g, g')
  {
    var s' := s.sys.(watch := s.sys.watch.Remember(i.push.id));
    var told := s'.On(s'.ch.Emit(ErrorSent("pipeline_error")));
    AsideEmits(s.sys.ch, s.sys.ch.conv, [ErrorSent("pipeline_error")]);
    InvAside(s.sys, told, g.bs, g.open, g.told, g.llm);
    if i.push.frame.fatal {
      g' := StepObserverFinish(s, i, g, told, Failed);
    } else {
      StepAside(s, i, g);
      g' := g;
    }
  }

  lemma StepTts(s: Session, i: Input, g: Ledger, text: string) returns (g': Ledger)
    requires Holds(s.sys, g) && i.Pushed? && Accepts(s.sys.watch, i.push) && i.push.frame == TtsText(text)
    ensures Advances(s, i, g, g')
  {
    if text == "" {
      StepAside(s, i, g);
      return g;
    }
    var s' := s.sys.(watch := s.sys.watch.Remember(i.push.id));
    InvAside(s.sys, s', g.bs, g.open, g.told, g.llm);
    var o := TtsKeeps(s', g.bs, g.open, g.told, g.llm, text);
    g' := Ledger(g.bs, Some(o), Tell(g.told, text), g.llm);
    StepSpoke(s, i, g, g', SpeakTts(s', text));
  }

  /** Nothing is decided about responses but what the frame says and which response is open. */
  lemma StepSpoke(s: Session, i: Input, g: Ledger, g': Ledger, s': System)
    requires i.Pushed? && Accepts(s.sys.watch, i.push) && i.push.frame.TtsText? && i.push.frame.text != ""
    requires Step(s, i).0.sys == s' && Holds(s', g') && g'.open.Some? && g'.bs == g.bs && g'.llm == g.llm
    requires var o, was := g'.open.value, Opened(s.sys.ch, g.open);
             o.response == was.response && o.item == was.item && AudioOf(o.parts) == AudioOf(was.parts)
    requires g'.told == Tell(g.told, i.push.frame.text)
    requires s'.ch.conv.nextId >= s.sys.ch.conv.nextId && s'.ch.conv.hasResponded == s.sys.ch.conv.hasResponded
    ensures Advances(s, i, g, g')
  {
    hide Render, Increasing, ResponseEvents, Kept, Texts, Spoken, Tell, Observe;
    SlotIsOpen(s', g');
  }

  lemma SlotIsOpen(s: System, g: Ledger)
    requires Holds(s, g) && g.open.Some?
    ensures s.ch.conv.slot.response == Some(g.open.value.response)
  {
  }

  lemma StepLlm(s: Session, i: Input, g: Ledger, text: string) returns (g': Ledger)
    requires Holds(s.sys, g) && i.Pushed? && Accepts(s.sys.watch, i.push) && i.push.frame == LlmText(text)
    ensures Advances(s, i, g, g')
  {
    if text == "" {
      StepAside(s, i, g);
      return g;
    }
    var s' := s.sys.(watch := s.sys.watch.Remember(i.push.id));
    InvAside(s.sys, s', g.bs, g.open, g.told, g.llm);
    LlmKeeps(s', g.bs, g.open, g.told, g.llm, text);
    g' := Ledger(g.bs, Some(Opened(s'.ch, g.open)), g.told, g.llm + text);
  }

  lemma StepBot(s: Session, i: Input, g: Ledger) returns (g': Ledger)
    requires Holds(s.sys, g) && i.Pushed? && Accepts(s.sys.watch, i.push) && i.push.frame.BotStartedSpeaking?
    ensures Advances(s, i, g, g')
  {
    var s' := s.sys.(watch := s.sys.watch.Remember(i.push.id));
    InvAside(s.sys, s', g.bs, g.open, g.told, g.llm);
    AnnounceKeeps(s', g.bs, g.open, g.told, g.llm, Step(s, i).0.sys.watch);
    g' := g.(open := Some(Opened(s'.ch, g.open)));
  }

  lemma StepPushed(s: Session, i: Input, g: Ledger) returns (g': Ledger)
    requires Holds(s.sys, g) && i.Pushed?
    ensures Advances(s, i, g, g')
  {
    g' := g;
    var p := i.push;
    var s' := s.sys.(watch := s.sys.watch.Remember(p.id));
    InvAside(s.sys, s', g.bs, g.open, g.told, g.llm);
    if !Accepts(s.sys.watch, p) || p.frame.ToolCall? || p.frame == LlmResponseEnd(false) {
      StepAside(s, i, g);
    } else if p.frame.PipelineError? {
      g' := StepError(s, i, g);
    } else if p.frame.Interruption? {
      g' := StepObserverFinish(s, i, g, s', Cancelled);
    } else if p.frame.TtsStopped? || p.frame.LlmResponseEnd? {
      g' := StepObserverFinish(s, i, g, s', Completed);
    } else if IsTurnFrame(p.frame) {
      AsideTurn(s', p.frame);
      StepAside(s, i, g);
    } else if p.frame.TtsText? {
      g' := StepTts(s, i, g, p.frame.text);
    } else if p.frame.LlmText? {
      g' := StepLlm(s, i, g, p.frame.text);
    } else {
      g' := StepBot(s, i, g);
    }
  }

  /** The client asks for the response to end. */
  lemma StepCut(s: Session, i: Input, g: Ledger) returns (g': Ledger)
    requires Holds(s.sys, g) && i.Received? && (i.message.ResponseCancel? || i.message.ItemTruncate?)
    requires Ends(s, i, g) && Step(s, i).0.sys == CancelResponse(s.sys)
    ensures Advances(s, i, g, g')
  {
    var b := ClientFinishes(s.sys, g.bs, g.open.value, g.told, g.llm);
    g' := Ledger(g.bs + [b], None, "", "");
  }

  lemma StepReject(s: Session, i: Input, g: Ledger, code: string)
    requires Holds(s.sys, g) && i.Received? && Step(s, i).0 == s.Reject(code) && Idles(s, i, g)
    ensures Advances(s, i, g, g)
  {
    AsideEmits(s.sys.ch, s.sys.ch.conv, [ErrorSent(code)]);
    StepAside(s, i, g);
  }

  lemma StepCreate(s: Session, i: Input, g: Ledger) returns (g': Ledger)
    requires Holds(s.sys, g) && i.Received? && i.message.ResponseCreate?
    ensures Advances(s, i, g, g')
  {
    g' := g;
    var conv := s.sys.ch.conv;
    if !conv.hasResponded {
      StepReject(s, i, g, "response_create_rejected_pre_intro");
    } else if i.message.overridden {
      StepReject(s, i, g, "unsupported_response_override");
    } else if g.open.Some? {
      StepReject(s, i, g, "conversation_already_has_active_response");
    } else {
      var reserved := s.sys.ch.(conv := conv.(slot := conv.slot.(requested := true)));
      assert reserved.Announce() == s.sys.ch.Announce();
      AnnounceKeeps(s.sys, g.bs, g.open, g.told, g.llm, s.sys.watch);
      g' := g.(open := Some(Opened(s.sys.ch, g.open)));
    }
  }

  lemma StepItemCreate(s: Session, i: Input, g: Ledger)
    requires Holds(s.sys, g) && i.Received? && i.message.ItemCreate?
    ensures Advances(s, i, g, g)
  {
    match i.message.newItem
    case NotAnObject => StepReject(s, i, g, "invalid_item");
    case FunctionCallOutput => StepReject(s, i, g, "unsupported_item");
    case OtherItem => StepReject(s, i, g, "unsupported_item");
    case UserMessage(id, text) =>
      if text == None {
        StepReject(s, i, g, "invalid_item");
      } else if !s.sys.ch.conv.hasResponded {
        StepReject(s, i, g, "item_rejected_pre_intro");
      } else {
        AsideEmits(s.sys.ch, Step(s, i).0.sys.ch.conv,
          [UserTextItemCreated(id.GetOr(s.sys.ch.conv.nextId), text.value)]);
        StepAside(s, i, g);
      }
  }

  lemma StepCancel(s: Session, i: Input, g: Ledger) returns (g': Ledger)
    requires Holds(s.sys, g) && i.Received? && (i.message.ResponseCancel? || i.message.ItemTruncate?)
    ensures Advances(s, i, g, g')
  {
    g' := g;
    if Step(s, i).1 == Some(Interrupt) {
      g' := StepCut(s, i, g);
    } else if Step(s, i).0 == s {
      StepAside(s, i, g);
    } else if i.message.ResponseCancel? {
      StepReject(s, i, g, "invalid_value");
    } else {
      StepReject(s, i, g, "invalid_truncate");
    }
  }

  lemma StepAudioMessage(s: Session, i: Input, g: Ledger)
    requires Holds(s.sys, g) && i.Received?
    requires i.message.AudioAppend? || i.message.AudioCommit? || i.message.AudioClear?
    ensures Advances(s, i, g, g)
  {
    hide Holds, Advances, Render, Increasing, ResponseEvents, Observe;
    match i.message
    case AudioAppend(pcm) =>
      if pcm.Failure? {
        StepReject(s, i, g, pcm.error);
      } else if pcm.value > MAX_PENDING_INPUT_BYTES {
        StepReject(s, i, g, "input_buffer_overflow");
      } else {
        StepAside(s, i, g);
      }
    case AudioCommit =>
      if s.uncommitted == 0 {
        StepReject(s, i, g, "input_audio_buffer_commit_empty");
      } else {
        StepAside(s, i, g);
      }
    case AudioClear =>
      AsideEmits(s.sys.ch, s.sys.ch.conv, [AudioCleared]);
      StepAside(s, i, g);
  }

  lemma StepUpdate(s: Session, i: Input, g: Ledger)
    requires Holds(s.sys, g) && i.Received? && (i.message.SessionUpdate? || i.message.Unusable?)
    ensures Advances(s, i, g, g)
  {
    hide Holds, Advances, Render, Increasing, ResponseEvents, Observe;
    match i.message
    case Unusable(code) => StepReject(s, i, g, code);
    case SessionUpdate(applied) =>
      if applied.Failure? {
        StepReject(s, i, g, applied.error);
      } else {
        AsideEmits(s.sys.ch, s.sys.ch.conv, [SessionUpdated]);
        StepAside(s, i, g);
      }
  }

  lemma StepReceived(s: Session, i: Input, g: Ledger) returns (g': Ledger)
    requires Holds(s.sys, g) && i.Received?
    ensures Advances(s, i, g, g')
  {
    hide *;
    g' := g;
    match i.message
    case Unusable(_) => StepUpdate(s, i, g);
    case SessionUpdate(_) => StepUpdate(s, i, g);
    case AudioAppend(_) => StepAudioMessage(s, i, g);
    case AudioCommit => StepAudioMessage(s, i, g);
    case AudioClear => StepAudioMessage(s, i, g);
    case ResponseCreate(_) => g' := StepCreate(s, i, g);
    case ResponseCancel(_) => g' := StepCancel(s, i, g);
    case ItemTruncate(_, _) => g' := StepCancel(s, i, g);
    case ItemCreate(_) => StepItemCreate(s, i, g);
  }

  lemma StepAudioOut(s: Session, i: Input, g: Ledger) returns (g': Ledger)
    requires Holds(s.sys, g) && i.AudioOut?
    ensures Advances(s, i, g, g')
  {
    hide Observe, Receive, Render, Increasing, ResponseEvents, Spoken, AnnounceEvents;
    if i.pcm == [] || i.resampled == None || g.open == None {
      StepAside(s, i, g);
      return g;
    }
    var o := g.open.value;
    ShapeAnnounce(s.sys.ch, g.bs, g.open);
    ShapeAudio(s.sys.ch.Announce(), g.bs, o, i.resampled.value);
    SpokenWith(o.parts, Played(i.resampled.value));
    g' := g.(open := Some(WithPart(o, Played(i.resampled.value))));
  }

  lemma StepGate(s: Session, i: Input, g: Ledger)
    requires Holds(s.sys, g) && i.GateOpened?
    ensures Advances(s, i, g, g)
  {
    hide Observe, Receive, Render, Increasing, ResponseEvents;
  }

  /** Every step keeps the ledger. */
  lemma StepKeeps(s: Session, i: Input, g: Ledger) returns (g': Ledger)
    requires Holds(s.sys, g)
    ensures Advances(s, i, g, g')
  {
    hide *;
    match i
    case Pushed(_) => g' := StepPushed(s, i, g);
    case Received(_) => g' := StepReceived(s, i, g);
    case AudioOut(_, _) => g' := StepAudioOut(s, i, g);
    case GateOpened =>
      g' := g;
      StepGate(s, i, g);
  }
}
