/** The observer's frame deduplication (src/realtime/observer.py, `_remember_frame`): a set and a bounded deque
    that together remember exactly the last accepted ids. */
module FrameDedupe {
  import opened Wrappers
  import opened Conversation
  import opened Observer
  import opened Protocol
  import opened Serializer

  /** What happens to the memory: a frame id is offered, or a response has ended and it is cleared. */
  datatype Op = Offer(id: nat) | Clear

  function Replay(ops: seq<Op>, limit: nat): Watch {
    if ops == [] then InitialWatch(limit)
    else
      var w := Replay(ops[..|ops| - 1], limit);
      match ops[|ops| - 1]
      case Offer(id) => w.Remember(id)
      case Clear => w.ForgetFrames()
  }

  /** The ids accepted since the last clear, when an id is refused exactly while it is among the last `limit`. */
  function Accepted(ops: seq<Op>, limit: nat): seq<nat> {
    if ops == [] then []
    else
      var a := Accepted(ops[..|ops| - 1], limit);
      match ops[|ops| - 1]
      case Offer(id) => if id in Bounded(a, limit) then a else a + [id]
      case Clear => []
  }

  ghost predicate Distinct(h: seq<nat>) {
    forall j, k | 0 <= j < k < |h| :: h[j] != h[k]
  }

  lemma {:induction false} DistinctSize(h: seq<nat>)
    requires Distinct(h)
    ensures |Elements(h)| == |h|
  {
    if h != [] {
      var n := |h| - 1;
      DistinctSize(h[..n]);
      assert Elements(h) == Elements(h[..n]) + {h[n]};
    }
  }

  lemma BoundedAppend(a: seq<nat>, id: nat, limit: nat)
    ensures Bounded(Bounded(a, limit) + [id], limit) == Bounded(a + [id], limit)
  {
  }

  /** Remembering an id keeps the set equal to the elements of the deque. */
  lemma RememberKeeps(w: Watch, id: nat)
    requires w.processed == Elements(w.history) && Distinct(w.history) && |w.history| <= w.maxFrames
    ensures var w' := w.Remember(id);
            && w'.processed == Elements(w'.history) && Distinct(w'.history) && |w'.history| <= w'.maxFrames
            && w'.maxFrames == w.maxFrames
            && w'.history == if id in w.history then w.history else Bounded(w.history + [id], w.maxFrames)
  {
    if id !in w.history {
      var h, h' := w.history + [id], w.Remember(id).history;
      DistinctSize(w.history);
      DistinctSize(h);
      DistinctSize(h');
      assert Elements(h) == w.processed + {id};
    }
  }

  /** The memory is always the last `limit` accepted ids, so a frame is handled exactly when its id is not
      among them. */
  lemma {:induction false} RemembersLast(ops: seq<Op>, limit: nat)
    ensures var w := Replay(ops, limit); var last := Bounded(Accepted(ops, limit), limit);
            && w.history == last && w.processed == Elements(last) && Distinct(last) && w.maxFrames == limit
            && (forall id :: id in w.processed <==> id in last)
  {
    if ops != [] {
      var front := ops[..|ops| - 1];
      RemembersLast(front, limit);
      match ops[|ops| - 1]
      case Offer(id) =>
        RememberKeeps(Replay(front, limit), id);
        BoundedAppend(Accepted(front, limit), id, limit);
      case Clear =>
    }
  }

  // ----- In the observer's runs -----

  /** Whether a step ends a response, at which the memory is cleared. */
  predicate Forgets(s: Session, i: Input) {
    match i
    case Pushed(p) =>
      Accepts(s.sys.watch, p) && (
        match p.frame
        case Interruption => s.sys.ch.conv.Active()
        case TtsStopped(_) => s.sys.ch.conv.Active()
        case LlmResponseEnd(skipTts) => skipTts && s.sys.ch.conv.Active()
        case PipelineError(fatal) => fatal && (s.sys.ch.conv.Active() || s.sys.ch.conv.slot.requested)
        case _ => false)
    case Received(m) => Receive(s, m).1 == Some(Interrupt)
    case _ => false
  }

  /** What a step does to the memory. */
  function OpsOf(s: Session, i: Input): seq<Op> {
    (if i.Pushed? && Relevant(i.push) then [Offer(i.push.id)] else []) + if Forgets(s, i) then [Clear] else []
  }

  function RunOps(s0: Session, ins: seq<Input>): seq<Op> {
    if ins == [] then []
    else
      var n := |ins| - 1;
      RunOps(s0, ins[..n]) + OpsOf(Run(s0, ins[..n]), ins[n])
  }

  ghost predicate SameMemory(w: Watch, w': Watch) {
    w.processed == w'.processed && w.history == w'.history && w.maxFrames == w'.maxFrames
  }

  lemma ReplayNext(ops: seq<Op>, op: Op, limit: nat)
    ensures Replay(ops + [op], limit) ==
      match op
      case Offer(id) => Replay(ops, limit).Remember(id)
      case Clear => Replay(ops, limit).ForgetFrames()
  {
    assert (ops + [op])[..|ops|] == ops;
  }

  lemma FinishMemory(s: System, status: Status)
    ensures SameMemory(s.Finish(status).watch, if s.ch.conv.Active() then s.watch.ForgetFrames() else s.watch)
  {
    hide Say;
  }

  lemma ErrorMemory(s: System, fatal: bool)
    ensures SameMemory(HandleError(s, fatal).watch,
      if fatal && (s.ch.conv.Active() || s.ch.conv.slot.requested) then s.watch.ForgetFrames() else s.watch)
  {
    var told := s.On(s.ch.Emit(ErrorSent("pipeline_error")));
    FinishMemory(told, Failed);
    FinishMemory(told.On(told.ch.Announce()), Failed);
  }

  lemma PushedMemory(s: System, p: Push)
    ensures var s0 := Session(s, 0, 0); var w := if Relevant(p) then s.watch.Remember(p.id) else s.watch;
            SameMemory(Observe(s, p).watch, if Forgets(s0, Pushed(p)) then w.ForgetFrames() else w)
  {
    hide HandleError, StartTurn, StopTurn, HearInterim, ShowTranscript, Say;
    var s' := s.(watch := s.watch.Remember(p.id));
    FinishMemory(s', Cancelled);
    FinishMemory(s', Completed);
    if p.frame.PipelineError? {
      ErrorMemory(s', p.frame.fatal);
    }
  }

  lemma ReceivedMemory(s: Session, m: Message)
    ensures SameMemory(Receive(s, m).0.sys.watch,
      if Receive(s, m).1 == Some(Interrupt) then s.sys.watch.ForgetFrames() else s.sys.watch)
  {
  }

  lemma StepMemory(s: Session, i: Input)
    ensures var w := if i.Pushed? && Relevant(i.push) then s.sys.watch.Remember(i.push.id) else s.sys.watch;
            SameMemory(Step(s, i).0.sys.watch, if Forgets(s, i) then w.ForgetFrames() else w)
  {
    hide Observe, Receive;
    match i
    case Pushed(p) => PushedMemory(s.sys, p);
    case Received(m) => ReceivedMemory(s, m);
    case _ =>
  }

  lemma RememberSame(w: Watch, w': Watch, id: nat)
    requires SameMemory(w, w')
    ensures SameMemory(w.Remember(id), w'.Remember(id)) && SameMemory(w.ForgetFrames(), w'.ForgetFrames())
  {
  }

  lemma StepIsReplay(s: Session, i: Input, ops: seq<Op>, limit: nat)
    requires SameMemory(s.sys.watch, Replay(ops, limit))
    ensures SameMemory(Step(s, i).0.sys.watch, Replay(ops + OpsOf(s, i), limit))
  {
    hide Step, Forgets, Relevant, Replay;
    StepMemory(s, i);
    var offers := i.Pushed? && Relevant(i.push);
    var w := if offers then s.sys.watch.Remember(i.push.id) else s.sys.watch;
    var offered := ops + if offers then [Offer(i.push.id)] else [];
    if offers {
      ReplayNext(ops, Offer(i.push.id), limit);
      RememberSame(s.sys.watch, Replay(ops, limit), i.push.id);
    } else {
      assert offered == ops;
    }
    ReplayNext(offered, Clear, limit);
    RememberSame(w, Replay(offered, limit), 0);
    assert ops + OpsOf(s, i) == offered + if Forgets(s, i) then [Clear] else [];
    assert offered + [] == offered;
  }

  lemma {:induction false} RunIsReplay(s0: Session, ins: seq<Input>, limit: nat)
    requires SameMemory(s0.sys.watch, InitialWatch(limit))
    ensures SameMemory(Run(s0, ins).sys.watch, Replay(RunOps(s0, ins), limit))
  {
    if ins != [] {
      hide Step, OpsOf, SameMemory, Replay;
      var n := |ins| - 1;
      RunIsReplay(s0, ins[..n], limit);
      StepIsReplay(Run(s0, ins[..n]), ins[n], RunOps(s0, ins[..n]), limit);
    }
  }

  /** Errors and interruptions count whichever way they go, other frames only downstream; the end of synthesized speech
      only from the output itself. */
  predicate Passes(p: Push) {
    match p.frame
    case PipelineError(_) => true
    case Interruption => true
    case TtsStopped(fromOutput) => p.downstream && fromOutput
    case Unobserved => false
    case _ => p.downstream
  }

  lemma PassesIs(p: Push)
    ensures Relevant(p) <==> Passes(p)
  {
  }

  /** In every run a frame is handled exactly if it passes the filters and its id is not among the last `maxFrames`
      ids that were accepted since a response ended. */
  lemma {:induction false} HandledExactly(rate: nat, hasResponded: bool, maxFrames: nat, ins: seq<Input>, p: Push)
    ensures var s0 := Start(rate, hasResponded, maxFrames);
            Accepts(Run(s0, ins).sys.watch, p) <==>
              Passes(p) && p.id !in Bounded(Accepted(RunOps(s0, ins), maxFrames), maxFrames)
  {
    hide Run, Relevant, Passes, RunOps;
    PassesIs(p);
    var s0 := Start(rate, hasResponded, maxFrames);
    RunIsReplay(s0, ins, maxFrames);
    RemembersLast(RunOps(s0, ins), maxFrames);
  }
}
