/** Keeping the all-dots reply away from text-to-speech (src/examples/generic/silent_reply.py): a filter that
    holds a reply back until it is known to be speech or silence. */
module SilentReply {
  import opened Text

  datatype Kind = ReplyStart | ReplyText(text: string) | ReplyEnd | Interruption | OtherSystem | OtherFrame

  /** A frame on its way downstream. */
  datatype Frame = Frame(id: nat, kind: Kind, skipTts: bool)

  predicate IsSystem(f: Frame) {
    f.kind.Interruption? || f.kind.OtherSystem?
  }

  /** Text that `_SILENCE_TEXT` matches: dots, ellipses and white space only. */
  predicate Dotted(text: string) {
    forall i | 0 <= i < |text| :: text[i] == '.' || text[i] == '\U{2026}' || IsSpace(text[i])
  }

  /** `is_silence_reply`. */
  predicate IsSilenceReply(text: string) {
    Strip(text) != "" && Dotted(text)
  }

  lemma {:induction false} StripEmpty(s: string)
    ensures Strip(s) == "" <==> AllSpace(s)
  {
    LStripSplits(s);
    var k := |s| - |LStrip(s)|;
    if LStrip(s) == "" {
      assert s == s[..k];
    } else {
      assert s[k] == LStrip(s)[0];
      RStripKeeps(LStrip(s));
    }
  }

  lemma {:induction false} RStripKeeps(s: string)
    requires s != "" && !IsSpace(s[0])
    ensures RStrip(s) != ""
  {
    if IsSpace(s[|s| - 1]) {
      RStripKeeps(s[..|s| - 1]);
    }
  }

  /** The silence reply is dots and white space with at least one dot. */
  lemma SilenceIsDots(text: string)
    ensures IsSilenceReply(text) <==>
      Dotted(text) && exists i | 0 <= i < |text| :: text[i] == '.' || text[i] == '\U{2026}'
  {
    StripEmpty(text);
    if IsSilenceReply(text) {
      var i :| 0 <= i < |text| && !IsSpace(text[i]);
      assert text[i] == '.' || text[i] == '\U{2026}';
    } else if i: nat :| i < |text| && (text[i] == '.' || text[i] == '\U{2026}') {
      assert !IsSpace(text[i]);
    }
  }

  // ----- The filter as a state machine -----

  datatype State = State(held: seq<Frame>, holding: bool, text: string)

  const IDLE := State([], false, "")

  function Muted(fs: seq<Frame>): seq<Frame> {
    seq(|fs|, k requires 0 <= k < |fs| => fs[k].(skipTts := true))
  }

  /** The state after a downstream frame, and the frames pushed on. */
  function Filter(s: State, f: Frame): (State, seq<Frame>) {
    match f.kind
    case Interruption => (IDLE, [f])
    case ReplyStart => (State([f], true, ""), s.held)
    case _ =>
      if !s.holding || IsSystem(f) then (s, [f])
      else
        match f.kind
        case ReplyText(t) =>
          var s' := State(s.held + [f], true, s.text + t);
          if Dotted(s'.text) then (s', []) else (IDLE, s'.held)
        case ReplyEnd =>
          var all := s.held + [f];
          (IDLE, if IsSilenceReply(s.text) then Muted(all) else all)
        case _ => (IDLE, s.held + [f])
  }

  function StateAfter(fs: seq<Frame>): State {
    if fs == [] then IDLE else Filter(StateAfter(fs[..|fs| - 1]), fs[|fs| - 1]).0
  }

  function PushedAfter(fs: seq<Frame>): seq<Frame> {
    if fs == [] then []
    else PushedAfter(fs[..|fs| - 1]) + Filter(StateAfter(fs[..|fs| - 1]), fs[|fs| - 1]).1
  }

  // ----- The filter itself -----

  class SilentReplyFilter {
    var held: seq<Frame>
    var holding: bool
    var text: string
    ghost var received: seq<Frame>
    ghost var pushed: seq<Frame>
    ghost var upstream: seq<Frame>

    /** Between frames the fields and everything pushed are those of the state machine. */
    ghost predicate Valid()
      reads this
    {
      State(held, holding, text) == StateAfter(received) && pushed == PushedAfter(received)
    }

    constructor ()
      ensures Valid() && received == []
    {
      held, holding, text := [], false, "";
      received, pushed, upstream := [], [], [];
    }

    method Push(f: Frame)
      modifies this`pushed
      ensures pushed == old(pushed) + [f]
    {
      pushed := pushed + [f];
    }

    method Reset()
      modifies this`held, this`holding, this`text
      ensures State(held, holding, text) == IDLE
    {
      held := [];
      holding := false;
      text := "";
    }

    method Release()
      modifies this`held, this`holding, this`text, this`pushed
      ensures State(held, holding, text) == IDLE && pushed == old(pushed) + old(held)
    {
      var frames := held;
      Reset();
      for i := 0 to |frames|
        invariant State(held, holding, text) == IDLE && pushed == old(pushed) + frames[..i]
      {
        assert frames[..i + 1] == frames[..i] + [frames[i]];
        Push(frames[i]);
      }
      assert frames[..|frames|] == frames;
    }

    method MuteHeld()
      modifies this`held
      ensures held == Muted(old(held))
    {
      var i := 0;
      while i < |held|
        invariant 0 <= i <= |held| == |old(held)|
        invariant forall k | 0 <= k < |held| ::
          held[k] == if k < i then old(held)[k].(skipTts := true) else old(held)[k]
      {
        held := held[i := held[i].(skipTts := true)];
        i := i + 1;
      }
    }

    method ProcessDownstream(f: Frame)
      modifies this`held, this`holding, this`text, this`pushed
      ensures var (s', out) := Filter(State(old(held), old(holding), old(text)), f);
              State(held, holding, text) == s' && pushed == old(pushed) + out
    {
      if f.kind.Interruption? {
        Reset();
        Push(f);
        return;
      }
      if f.kind.ReplyStart? {
        Release();
        holding := true;
        held := [f];
        return;
      }
      if !holding || IsSystem(f) {
        Push(f);
        return;
      }
      if f.kind.ReplyText? {
        held := held + [f];
        text := text + f.kind.text;
        if !Dotted(text) {
          Release();
        }
        return;
      }
      if f.kind.ReplyEnd? {
        held := held + [f];
        if IsSilenceReply(text) {
          MuteHeld();
        }
        Release();
        return;
      }
      assert pushed + (held + [f]) == pushed + held + [f];
      Release();
      Push(f);
    }

    method ProcessFrame(f: Frame, downstream: bool)
      requires Valid()
      modifies this
      ensures Valid()
      ensures received == if downstream then old(received) + [f] else old(received)
      ensures upstream == if downstream then old(upstream) else old(upstream) + [f]
    {
      if !downstream {
        upstream := upstream + [f];
        return;
      }
      received := received + [f];
      assert received[..|received| - 1] == old(received);
      ProcessDownstream(f);
    }
  }

  // ----- What becomes of each frame, by looking at the whole stream -----

  function SpokenText(fs: seq<Frame>): string {
    if fs == [] then ""
    else
      var f := fs[|fs| - 1];
      SpokenText(fs[..|fs| - 1]) + if f.kind.ReplyText? then f.kind.text else ""
  }

  function NonSystem(fs: seq<Frame>): seq<Frame> {
    if fs == [] then []
    else
      var f := fs[|fs| - 1];
      NonSystem(fs[..|fs| - 1]) + if IsSystem(f) then [] else [f]
  }

  /** After `n` frames the reply that started at `a` is still open and has said nothing but dots. */
  ghost predicate Undecided(fs: seq<Frame>, a: nat, n: nat) {
    && a < n <= |fs|
    && fs[a].kind.ReplyStart?
    && (forall k | a < k < n :: fs[k].kind.ReplyText? || fs[k].kind.OtherSystem?)
    && Dotted(SpokenText(fs[a..n]))
  }

  /** Frame `k` belongs to a reply that an interruption ended while it was undecided. */
  ghost predicate Lost(fs: seq<Frame>, k: nat) {
    exists a: nat, b: nat :: a <= k < b < |fs| && fs[b].kind.Interruption? && Undecided(fs, a, b)
  }

  /** Frame `k` belongs to a reply that is undecided at the end. */
  ghost predicate Pending(fs: seq<Frame>, k: nat) {
    exists a: nat :: a <= k && Undecided(fs, a, |fs|)
  }

  /** Frame `k` belongs to a complete reply of dots. */
  ghost predicate InSilentReply(fs: seq<Frame>, k: nat) {
    exists a: nat, b: nat :: a <= k <= b < |fs| && fs[b].kind.ReplyEnd? && Undecided(fs, a, b)
      && IsSilenceReply(SpokenText(fs[a..b]))
  }

  datatype Fate = Withheld | Passed | MutedAndPassed

  ghost function FateOf(fs: seq<Frame>, k: nat): Fate
    requires k < |fs|
  {
    if IsSystem(fs[k]) || Lost(fs, k) || Pending(fs, k) then Withheld
    else if InSilentReply(fs, k) then MutedAndPassed
    else Passed
  }

  /** The first `n` frames, each with its fate. */
  ghost function Delivered(fs: seq<Frame>, n: nat): seq<Frame>
    requires n <= |fs|
  {
    if n == 0 then []
    else
      Delivered(fs, n - 1) + Render(FateOf(fs, n - 1), [fs[n - 1]])
  }

  lemma {:induction false} DeliveredSame(fs: seq<Frame>, gs: seq<Frame>, n: nat)
    requires n <= |fs| && n <= |gs| && forall k | 0 <= k < n :: fs[k] == gs[k] && FateOf(fs, k) == FateOf(gs, k)
    ensures Delivered(fs, n) == Delivered(gs, n)
  {
    hide FateOf, Render;
    if n > 0 {
      DeliveredSame(fs, gs, n - 1);
    }
  }

  function Render(fate: Fate, fs: seq<Frame>): seq<Frame> {
    match fate
    case Withheld => []
    case Passed => fs
    case MutedAndPassed => Muted(fs)
  }

  /** A stretch of frames that share their fate. */
  lemma {:induction false} DeliveredStretch(fs: seq<Frame>, a: nat, n: nat, fate: Fate)
    requires a <= n <= |fs| && forall k | a <= k < n && !IsSystem(fs[k]) :: FateOf(fs, k) == fate
    ensures Delivered(fs, n) == Delivered(fs, a) + Render(fate, NonSystem(fs[a..n]))
  {
    hide FateOf, Render;
    if a < n {
      DeliveredStretch(fs, a, n - 1, fate);
      assert fs[a..n][..n - a - 1] == fs[a..n - 1];
      var f := fs[n - 1];
      assert fs[a..n][n - a - 1] == f;
      if IsSystem(f) {
        SystemWithheld(fs, n - 1);
        assert NonSystem(fs[a..n]) == NonSystem(fs[a..n - 1]);
      } else {
        RenderAppend(fate, NonSystem(fs[a..n - 1]), f);
      }
    } else {
      assert fs[a..n] == [];
      RenderNone(fate);
    }
  }

  lemma SystemWithheld(fs: seq<Frame>, k: nat)
    requires k < |fs| && IsSystem(fs[k])
    ensures FateOf(fs, k) == Withheld && Render(Withheld, [fs[k]]) == []
  {
  }

  lemma RenderNone(fate: Fate)
    ensures Render(fate, []) == []
  {
  }

  lemma RenderAppend(fate: Fate, fs: seq<Frame>, f: Frame)
    ensures Render(fate, fs + [f]) == Render(fate, fs) + Render(fate, [f])
  {
  }

  lemma UndecidedUnique(fs: seq<Frame>, a: nat, b: nat, n: nat)
    requires Undecided(fs, a, n) && Undecided(fs, b, n)
    ensures a == b
  {
  }

  /** Whether a reply is undecided is settled by the frames so far. */
  lemma UndecidedPrefix(gs: seq<Frame>, f: Frame, a: nat, n: nat)
    requires n <= |gs|
    ensures Undecided(gs + [f], a, n) <==> Undecided(gs, a, n)
  {
    assert forall k | 0 <= k < |gs| :: (gs + [f])[k] == gs[k];
    if a < n {
      assert (gs + [f])[a..n] == gs[a..n];
    }
  }

  lemma UndecidedNext(gs: seq<Frame>, f: Frame, a: nat)
    requires a < |gs|
    ensures Undecided(gs + [f], a, |gs| + 1) <==>
      Undecided(gs, a, |gs|) &&
        (f.kind.OtherSystem? || (f.kind.ReplyText? && Dotted(SpokenText(gs[a..]) + f.kind.text)))
  {
    var fs := gs + [f];
    assert fs[a..|gs| + 1] == gs[a..] + [f];
    assert (gs[a..] + [f])[..|gs| - a] == gs[a..];
    assert gs[a..|gs|] == gs[a..];
    if f.kind.ReplyText? {
      assert forall i | 0 <= i < |SpokenText(gs[a..])| ::
        SpokenText(gs[a..])[i] == (SpokenText(gs[a..]) + f.kind.text)[i];
    } else {
      assert SpokenText(gs[a..]) + "" == SpokenText(gs[a..]);
    }
    assert forall k | a < k < |gs| :: fs[k] == gs[k];
  }

  lemma UndecidedLast(gs: seq<Frame>, f: Frame)
    ensures Undecided(gs + [f], |gs|, |gs| + 1) <==> f.kind.ReplyStart?
  {
    assert (gs + [f])[|gs|..|gs| + 1] == [f];
    assert [f][..0] == [] && SpokenText([f][..0]) == "";
    assert f.kind.ReplyStart? ==> SpokenText([f]) == "";
  }

  /** The state after a stream, and where the undecided reply starts (or the end of the stream). */
  ghost predicate Mirrors(s: State, fs: seq<Frame>, a: nat) {
    if s.holding then
      Undecided(fs, a, |fs|) && s.held == NonSystem(fs[a..]) && s.text == SpokenText(fs[a..])
    else
      a == |fs| && s == IDLE && forall b: nat :: !Undecided(fs, b, |fs|)
  }

  /** Frames before the undecided reply keep their fate when one more frame arrives. */
  lemma FateSettled(gs: seq<Frame>, f: Frame, a: nat, k: nat)
    requires Mirrors(StateAfter(gs), gs, a) && k < a
    ensures FateOf(gs + [f], k) == FateOf(gs, k)
  {
    var fs, n := gs + [f], |gs|;
    forall b: nat, m: nat | m <= n ensures Undecided(fs, b, m) <==> Undecided(gs, b, m) {
      UndecidedPrefix(gs, f, b, m);
    }
    forall b: nat | b <= k ensures !Undecided(gs, b, |gs|) && !Undecided(fs, b, |fs|) {
      UndecidedNext(gs, f, b);
      if Undecided(gs, b, n) {
        UndecidedUnique(gs, a, b, n);
      }
    }
    assert |fs| == n + 1 && fs[k] == gs[k];
    assert !Pending(gs, k) && !Pending(fs, k);
    SilentSettled(gs, f, k);
    LostSettled(gs, f, k);
  }

  lemma SilentSettled(gs: seq<Frame>, f: Frame, k: nat)
    requires k < |gs| && forall b: nat | b <= k :: !Undecided(gs, b, |gs|)
    ensures InSilentReply(gs + [f], k) <==> InSilentReply(gs, k)
  {
    var fs := gs + [f];
    if a: nat, b: nat :|
      a <= k <= b < |fs| && fs[b].kind.ReplyEnd? && Undecided(fs, a, b) && IsSilenceReply(SpokenText(fs[a..b])) {
      UndecidedPrefix(gs, f, a, b);
      assert fs[a..b] == gs[a..b] && b < |gs|;
    }
    if a: nat, b: nat :|
      a <= k <= b < |gs| && gs[b].kind.ReplyEnd? && Undecided(gs, a, b) && IsSilenceReply(SpokenText(gs[a..b])) {
      UndecidedPrefix(gs, f, a, b);
      assert fs[a..b] == gs[a..b] && fs[b] == gs[b];
    }
  }

  lemma LostSettled(gs: seq<Frame>, f: Frame, k: nat)
    requires k < |gs| && forall b: nat | b <= k :: !Undecided(gs, b, |gs|)
    ensures Lost(gs + [f], k) <==> Lost(gs, k)
  {
    var fs := gs + [f];
    if a: nat, b: nat :| a <= k < b < |fs| && fs[b].kind.Interruption? && Undecided(fs, a, b) {
      UndecidedPrefix(gs, f, a, b);
      assert b < |gs|;
    }
    if a: nat, b: nat :| a <= k < b < |gs| && gs[b].kind.Interruption? && Undecided(gs, a, b) {
      UndecidedPrefix(gs, f, a, b);
      assert fs[b] == gs[b];
    }
  }

  // ----- One more frame -----

  lemma StateMirrors(gs: seq<Frame>, f: Frame, a: nat) returns (a': nat)
    requires Mirrors(StateAfter(gs), gs, a)
    ensures Mirrors(Filter(StateAfter(gs), f).0, gs + [f], a')
    ensures a' == if Filter(StateAfter(gs), f).0.holding then (if f.kind.ReplyStart? then |gs| else a) else |gs| + 1
  {
    var s, fs := StateAfter(gs), gs + [f];
    var s' := Filter(s, f).0;
    a' := if s'.holding then (if f.kind.ReplyStart? then |gs| else a) else |gs| + 1;
    forall b: nat | b < |fs| ensures Undecided(fs, b, |fs|) <==> (if b == |gs| then f.kind.ReplyStart? else
        Undecided(gs, b, |gs|) &&
          (f.kind.OtherSystem? || (f.kind.ReplyText? && Dotted(SpokenText(gs[b..]) + f.kind.text)))) {
      if b == |gs| {
        UndecidedLast(gs, f);
      } else {
        UndecidedNext(gs, f, b);
      }
    }
    MirrorsHeld(gs, f, a');
  }

  lemma MirrorsHeld(gs: seq<Frame>, f: Frame, a: nat)
    ensures a < |gs| ==> NonSystem((gs + [f])[a..]) == NonSystem(gs[a..]) + if IsSystem(f) then [] else [f]
    ensures a < |gs| ==>
      SpokenText((gs + [f])[a..]) == SpokenText(gs[a..]) + if f.kind.ReplyText? then f.kind.text else ""
    ensures a == |gs| && f.kind.ReplyStart? ==> NonSystem((gs + [f])[a..]) == [f] && SpokenText((gs + [f])[a..]) == ""
  {
    var fs := gs + [f];
    if a < |gs| {
      assert fs[a..] == gs[a..] + [f] && (gs[a..] + [f])[..|gs| - a] == gs[a..];
    } else if a == |gs| {
      assert fs[a..] == [f] && [f][..0] == [];
      assert NonSystem([f][..0]) == [] && SpokenText([f][..0]) == "";
    }
  }

  lemma {:induction false} NonSystemAppend(fs: seq<Frame>, gs: seq<Frame>)
    ensures NonSystem(fs + gs) == NonSystem(fs) + NonSystem(gs)
  {
    if gs == [] {
      assert fs + gs == fs;
    } else {
      assert (fs + gs)[..|fs + gs| - 1] == fs + gs[..|gs| - 1];
      NonSystemAppend(fs, gs[..|gs| - 1]);
    }
  }

  lemma {:induction false} NonSystemMembers(fs: seq<Frame>)
    ensures forall k | 0 <= k < |NonSystem(fs)| :: !IsSystem(NonSystem(fs)[k])
  {
    if fs != [] {
      NonSystemMembers(fs[..|fs| - 1]);
    }
  }

  lemma {:induction false} NonSystemAll(fs: seq<Frame>)
    requires forall k | 0 <= k < |fs| :: !IsSystem(fs[k])
    ensures NonSystem(fs) == fs
  {
    if fs != [] {
      NonSystemAll(fs[..|fs| - 1]);
    }
  }

  lemma NonSystemOne(f: Frame)
    ensures NonSystem([f]) == if IsSystem(f) then [] else [f]
  {
    assert [f][..0] == [];
  }

  /** What a frame decides about the undecided reply and itself. */
  ghost function Verdict(s: State, f: Frame): Fate {
    if f.kind.Interruption? || (Filter(s, f).0.holding && !f.kind.ReplyStart?) then Withheld
    else if f.kind.ReplyEnd? && IsSilenceReply(s.text) then MutedAndPassed
    else Passed
  }

  /** In the whole stream the frames of the reply that was undecided have the fate the new frame decides. */
  lemma VerdictIsFate(gs: seq<Frame>, f: Frame, a: nat, k: nat)
    requires StateAfter(gs).holding && Mirrors(StateAfter(gs), gs, a)
    requires a <= k <= |gs| && (k < |gs| || !f.kind.ReplyStart?) && !IsSystem((gs + [f])[k])
    ensures FateOf(gs + [f], k) == Verdict(StateAfter(gs), f)
  {
    var s, fs := StateAfter(gs), gs + [f];
    assert fs[|gs|] == f;
    UndecidedNext(gs, f, a);
    forall b: nat, m: nat | m <= |gs| ensures Undecided(fs, b, m) <==> Undecided(gs, b, m) {
      UndecidedPrefix(gs, f, b, m);
    }
    var a' := StateMirrors(gs, f, a);
    assert fs[a..|gs|] == gs[a..];
    LostIff(gs, f, a, k);
    SilentIff(gs, f, a, k);
    PendingIff(gs, f, a, k);
  }

  lemma OnlyReply(gs: seq<Frame>, f: Frame, a: nat, b: nat, m: nat, k: nat)
    requires Undecided(gs, a, |gs|) && Undecided(gs + [f], b, m) && b <= k && a <= k && k < m
    requires k < |gs| || !f.kind.ReplyStart?
    requires !IsSystem((gs + [f])[k])
    ensures b == a
  {
    var fs := gs + [f];
    assert forall j | 0 <= j < |gs| :: fs[j] == gs[j];
    assert fs[|gs|] == f;
    assert fs[a].kind.ReplyStart? && fs[b].kind.ReplyStart?;
  }

  lemma PendingIff(gs: seq<Frame>, f: Frame, a: nat, k: nat)
    requires Undecided(gs, a, |gs|) && a <= k <= |gs| && (k < |gs| || !f.kind.ReplyStart?) && !IsSystem((gs + [f])[k])
    ensures Pending(gs + [f], k) <==> Undecided(gs + [f], a, |gs| + 1)
  {
    var fs := gs + [f];
    if b: nat :| b <= k && Undecided(fs, b, |fs|) {
      OnlyReply(gs, f, a, b, |fs|, k);
    }
  }

  lemma LossIsNow(gs: seq<Frame>, f: Frame, a: nat, b: nat, m: nat, k: nat)
    requires Undecided(gs, a, |gs|) && a <= k <= |gs| && (k < |gs| || !f.kind.ReplyStart?)
    requires b <= k < m <= |gs| && (gs + [f])[m].kind.Interruption?
    ensures m == |gs|
  {
    assert forall j | 0 <= j < |gs| :: (gs + [f])[j] == gs[j];
  }

  lemma LostIff(gs: seq<Frame>, f: Frame, a: nat, k: nat)
    requires Undecided(gs, a, |gs|) && a <= k <= |gs| && (k < |gs| || !f.kind.ReplyStart?) && !IsSystem((gs + [f])[k])
    ensures Lost(gs + [f], k) <==> f.kind.Interruption?
  {
    var fs := gs + [f];
    UndecidedPrefix(gs, f, a, |gs|);
    assert fs[|gs|] == f;
    if b: nat, m: nat :| b <= k < m < |fs| && fs[m].kind.Interruption? && Undecided(fs, b, m) {
      LossIsNow(gs, f, a, b, m, k);
    }
  }

  lemma SilentReplyEndsNow(gs: seq<Frame>, f: Frame, a: nat, b: nat, m: nat, k: nat)
    requires Undecided(gs, a, |gs|) && a <= k <= |gs| && (k < |gs| || !f.kind.ReplyStart?)
    requires b <= k <= m <= |gs| && (gs + [f])[m].kind.ReplyEnd? && Undecided(gs + [f], b, m)
    ensures m == |gs| && b == a
  {
    var fs := gs + [f];
    assert forall j | 0 <= j < |gs| :: fs[j] == gs[j];
    assert fs[a].kind.ReplyStart? && fs[b].kind.ReplyStart?;
  }

  lemma SilentIff(gs: seq<Frame>, f: Frame, a: nat, k: nat)
    requires Undecided(gs, a, |gs|) && a <= k <= |gs| && (k < |gs| || !f.kind.ReplyStart?) && !IsSystem((gs + [f])[k])
    ensures InSilentReply(gs + [f], k) <==> f.kind.ReplyEnd? && IsSilenceReply(SpokenText(gs[a..]))
  {
    var fs := gs + [f];
    UndecidedPrefix(gs, f, a, |gs|);
    assert fs[|gs|] == f && fs[a..|gs|] == gs[a..];
    if b: nat, m: nat :|
      b <= k <= m < |fs| && fs[m].kind.ReplyEnd? && Undecided(fs, b, m) && IsSilenceReply(SpokenText(fs[b..m])) {
      SilentReplyEndsNow(gs, f, a, b, m, k);
    }
  }

  /** A frame that finds no reply undecided passes, unless it starts one. */
  lemma LoneFate(gs: seq<Frame>, f: Frame)
    requires !IsSystem(f) && forall b: nat :: !Undecided(gs, b, |gs|)
    ensures FateOf(gs + [f], |gs|) == if f.kind.ReplyStart? then Withheld else Passed
  {
    var fs, n := gs + [f], |gs|;
    UndecidedLast(gs, f);
    assert fs[n] == f;
    forall b: nat | b <= n ensures !Undecided(fs, b, n) && (Undecided(fs, b, n + 1) ==> b == n) {
      UndecidedPrefix(gs, f, b, n);
      if b < n {
        UndecidedNext(gs, f, b);
      }
    }
    assert f.kind.ReplyStart? ==> Pending(fs, n);
    if b: nat :| b <= n && Undecided(fs, b, |fs|) {
      assert Undecided(fs, b, n) || b == n;
      assert f.kind.ReplyStart?;
    }
    assert !InSilentReply(fs, n);
    assert !Lost(fs, n);
    assert !IsSystem(fs[n]);
  }

  /** What the filter pushes for a frame that finds a reply undecided. */
  lemma OutputIsVerdict(s: State, f: Frame, reply: seq<Frame>)
    requires s.holding && s.held == NonSystem(reply) && !f.kind.ReplyStart?
    ensures NonSystem(Filter(s, f).1) == Render(Verdict(s, f), s.held + if IsSystem(f) then [] else [f])
  {
    hide NonSystem, Dotted, IsSilenceReply;
    NonSystemMembers(reply);
    NonSystemOne(f);
    NonSystemNone();
    if !IsSystem(f) {
      NonSystemAll(s.held + [f]);
      NonSystemAll(Muted(s.held + [f]));
    }
  }

  lemma DeliveredBefore(gs: seq<Frame>, f: Frame, a: nat)
    requires Mirrors(StateAfter(gs), gs, a)
    ensures Delivered(gs + [f], a) == Delivered(gs, |gs|)
  {
    hide FateOf, Render, StateAfter;
    forall k | 0 <= k < a ensures (gs + [f])[k] == gs[k] && FateOf(gs + [f], k) == FateOf(gs, k) {
      FateSettled(gs, f, a, k);
    }
    DeliveredSame(gs + [f], gs, a);
    DeliveredSettled(gs, a);
  }

  lemma DeliveredSettled(gs: seq<Frame>, a: nat)
    requires Mirrors(StateAfter(gs), gs, a)
    ensures a <= |gs| && Delivered(gs, |gs|) == Delivered(gs, a)
  {
    hide FateOf, Render, StateAfter;
    PendingWithheld(gs, a);
    DeliveredStretch(gs, a, |gs|, Withheld);
    RenderWithheld(NonSystem(gs[a..|gs|]));
  }

  /** Everything the filter has pushed, after one more frame. */
  lemma DeliveredNext(gs: seq<Frame>, f: Frame, a: nat)
    requires Mirrors(StateAfter(gs), gs, a)
    ensures Delivered(gs + [f], |gs| + 1) == Delivered(gs, |gs|) + NonSystem(Filter(StateAfter(gs), f).1)
  {
    DeliveredBefore(gs, f, a);
    if StateAfter(gs).holding && !f.kind.ReplyStart? {
      DeliveredReply(gs, f, a);
    } else {
      DeliveredLone(gs, f, a);
    }
  }

  lemma DeliveredReply(gs: seq<Frame>, f: Frame, a: nat)
    requires Mirrors(StateAfter(gs), gs, a) && StateAfter(gs).holding && !f.kind.ReplyStart?
    ensures Delivered(gs + [f], |gs| + 1) == Delivered(gs + [f], a) + NonSystem(Filter(StateAfter(gs), f).1)
  {
    var s, fs := StateAfter(gs), gs + [f];
    hide FateOf, Filter, Render, StateAfter, Verdict;
    forall k | a <= k < |gs| + 1 && !IsSystem(fs[k]) ensures FateOf(fs, k) == Verdict(s, f) {
      VerdictIsFate(gs, f, a, k);
    }
    DeliveredStretch(fs, a, |gs| + 1, Verdict(s, f));
    MirrorsHeld(gs, f, a);
    OutputIsVerdict(s, f, gs[a..]);
    assert fs[a..|gs| + 1] == fs[a..];
  }

  lemma DeliveredLone(gs: seq<Frame>, f: Frame, a: nat)
    requires Mirrors(StateAfter(gs), gs, a) && (f.kind.ReplyStart? || !StateAfter(gs).holding)
    ensures Delivered(gs + [f], |gs| + 1) == Delivered(gs + [f], a) + NonSystem(Filter(StateAfter(gs), f).1)
  {
    var s, fs, n := StateAfter(gs), gs + [f], |gs|;
    hide StateAfter, FateOf, NonSystem, Undecided;
    UndecidedBounds(gs, a, n);
    assert fs[n] == f && fs[a..n] == gs[a..];
    forall k | a <= k < n && !IsSystem(fs[k]) ensures FateOf(fs, k) == Passed {
      VerdictIsFate(gs, f, a, k);
    }
    DeliveredStretch(fs, a, n, Passed);
    NonSystemOne(f);
    NonSystemNone();
    LastFate(gs, f, a);
    if f.kind.ReplyStart? {
      NonSystemMembers(gs[a..]);
      NonSystemAll(NonSystem(gs[a..]));
    }
  }

  lemma LastFate(gs: seq<Frame>, f: Frame, a: nat)
    requires Mirrors(StateAfter(gs), gs, a) && (f.kind.ReplyStart? || !StateAfter(gs).holding)
    ensures FateOf(gs + [f], |gs|) == if f.kind.ReplyStart? || IsSystem(f) then Withheld else Passed
  {
    hide StateAfter;
    assert (gs + [f])[|gs|] == f;
    if f.kind.ReplyStart? {
      UndecidedLast(gs, f);
      assert Pending(gs + [f], |gs|);
    } else if !IsSystem(f) {
      LoneFate(gs, f);
    }
  }

  lemma PendingWithheld(gs: seq<Frame>, a: nat)
    requires Mirrors(StateAfter(gs), gs, a)
    ensures forall k | a <= k < |gs| :: FateOf(gs, k) == Withheld
  {
    forall k | a <= k < |gs| ensures Pending(gs, k) {
      assert Undecided(gs, a, |gs|);
    }
  }

  lemma RenderWithheld(fs: seq<Frame>)
    ensures Render(Withheld, fs) == []
  {
  }

  // ----- The results -----

  lemma NothingFated()
    ensures Mirrors(StateAfter([]), [], 0)
    ensures NonSystem(PushedAfter([])) == Delivered([], 0)
  {
  }

  lemma AfterNext(gs: seq<Frame>, f: Frame)
    ensures StateAfter(gs + [f]) == Filter(StateAfter(gs), f).0
    ensures PushedAfter(gs + [f]) == PushedAfter(gs) + Filter(StateAfter(gs), f).1
  {
    assert (gs + [f])[..|gs|] == gs;
    hide Filter;
  }

  /** For every stream of downstream frames: what was pushed is each non-system frame with the fate the
      stream gives it, and the frames held are those of the reply still undecided. */
  lemma {:induction false} FatesDelivered(fs: seq<Frame>) returns (a: nat)
    ensures Mirrors(StateAfter(fs), fs, a)
    ensures NonSystem(PushedAfter(fs)) == Delivered(fs, |fs|)
  {
    hide *;
    if fs == [] {
      a := 0;
      NothingFated();
    } else {
      var gs, f := fs[..|fs| - 1], fs[|fs| - 1];
      var a0 := FatesDelivered(gs);
      assert gs + [f] == fs;
      AfterNext(gs, f);
      a := StateMirrors(gs, f, a0);
      DeliveredNext(gs, f, a0);
      NonSystemAppend(PushedAfter(gs), Filter(StateAfter(gs), f).1);
    }
  }

  function Ids(fs: seq<Frame>): seq<nat> {
    seq(|fs|, k requires 0 <= k < |fs| => fs[k].id)
  }

  /** The non-system frames among the first `n` that no interruption took with it, in order. */
  ghost function Surviving(fs: seq<Frame>, n: nat): seq<nat>
    requires n <= |fs|
  {
    if n == 0 then []
    else Surviving(fs, n - 1) + if IsSystem(fs[n - 1]) || Lost(fs, n - 1) then [] else [fs[n - 1].id]
  }

  lemma {:induction false} SettledIds(fs: seq<Frame>, n: nat)
    requires n <= |fs| && forall k | 0 <= k < n :: !Pending(fs, k)
    ensures Ids(Delivered(fs, n)) == Surviving(fs, n)
  {
    if n > 0 {
      SettledIds(fs, n - 1);
    }
  }

  lemma {:induction false} PendingIds(fs: seq<Frame>, a: nat, n: nat)
    requires a <= n <= |fs| && (a < |fs| ==> Undecided(fs, a, |fs|))
    ensures Surviving(fs, n) == Surviving(fs, a) + Ids(NonSystem(fs[a..n]))
  {
    if a < n {
      PendingIds(fs, a, n - 1);
      assert fs[a..n][..n - a - 1] == fs[a..n - 1] && fs[a..n][n - a - 1] == fs[n - 1];
      assert !Lost(fs, n - 1);
    }
  }

  lemma NonePendingBefore(fs: seq<Frame>, a: nat)
    requires Mirrors(StateAfter(fs), fs, a)
    ensures forall k | 0 <= k < a :: !Pending(fs, k)
  {
    hide StateAfter;
    forall k | 0 <= k < a ensures !Pending(fs, k) {
      if b: nat :| b <= k && Undecided(fs, b, |fs|) {
        UndecidedUnique(fs, a, b, |fs|);
      }
    }
  }

  lemma HeldIds(fs: seq<Frame>, a: nat)
    requires Mirrors(StateAfter(fs), fs, a)
    ensures Surviving(fs, |fs|) == Surviving(fs, a) + Ids(StateAfter(fs).held)
  {
    hide StateAfter, Surviving, Undecided, NonSystem;
    UndecidedBounds(fs, a, |fs|);
    assert fs[a..] == fs[a..|fs|];
    PendingIds(fs, a, |fs|);
    NonSystemNone();
  }

  lemma UndecidedBounds(fs: seq<Frame>, a: nat, n: nat)
    ensures Undecided(fs, a, n) ==> a < n <= |fs|
  {
  }

  lemma NonSystemNone()
    ensures NonSystem([]) == []
  {
  }

  /** The frames pushed and the frames held are the frames received, each once and in order, without the frames
      an interruption found held. */
  lemma {:induction false} FramesConserved(fs: seq<Frame>)
    ensures Ids(NonSystem(PushedAfter(fs))) + Ids(StateAfter(fs).held) == Surviving(fs, |fs|)
  {
    hide FateOf, Lost, Pending, StateAfter, PushedAfter, Undecided, Delivered, Surviving, NonSystem;
    var a := FatesDelivered(fs);
    HeldIds(fs, a);
    UndecidedBounds(fs, a, |fs|);
    NonePendingBefore(fs, a);
    SettledIds(fs, a);
    DeliveredSettled(fs, a);
  }

  function SystemOnly(fs: seq<Frame>): seq<Frame> {
    if fs == [] then []
    else
      var f := fs[|fs| - 1];
      SystemOnly(fs[..|fs| - 1]) + if IsSystem(f) then [f] else []
  }

  lemma {:induction false} SystemOnlyAppend(fs: seq<Frame>, gs: seq<Frame>)
    ensures SystemOnly(fs + gs) == SystemOnly(fs) + SystemOnly(gs)
  {
    if gs == [] {
      assert fs + gs == fs;
    } else {
      assert (fs + gs)[..|fs + gs| - 1] == fs + gs[..|gs| - 1];
      SystemOnlyAppend(fs, gs[..|gs| - 1]);
    }
  }

  lemma {:induction false} SystemOnlyNone(fs: seq<Frame>)
    requires forall k | 0 <= k < |fs| :: !IsSystem(fs[k])
    ensures SystemOnly(fs) == []
  {
    if fs != [] {
      SystemOnlyNone(fs[..|fs| - 1]);
    }
  }

  lemma FilterPassesSystem(s: State, f: Frame)
    requires forall k | 0 <= k < |s.held| :: !IsSystem(s.held[k])
    ensures SystemOnly(Filter(s, f).1) == if IsSystem(f) then [f] else []
  {
    if IsSystem(f) {
      assert [f][..0] == [];
    } else {
      SystemOnlyNone(Filter(s, f).1);
    }
  }

  /** System frames pass untouched and in order. */
  lemma {:induction false} SystemFramesPass(fs: seq<Frame>)
    ensures SystemOnly(PushedAfter(fs)) == SystemOnly(fs)
  {
    hide Filter;
    if fs != [] {
      var gs, f := fs[..|fs| - 1], fs[|fs| - 1];
      SystemFramesPass(gs);
      SystemOnlyAppend(PushedAfter(gs), Filter(StateAfter(gs), f).1);
      var a := FatesDelivered(gs);
      NonSystemMembers(gs[a..]);
      FilterPassesSystem(StateAfter(gs), f);
    }
  }
}
