/** The incremental splitter of `<transcript>` and `<response>` sections
    (nvidia_omni_multimodal_service.py, `_TranscriptResponseExtractor`), proved against a
    specification that parses the whole reply at once. */
module TranscriptExtractor {
  import opened Wrappers
  import opened Text

  /** The tags are four constants in the source. Nothing but the round trip depends on which ones. */
  type Tag = s: string | |s| > 1 witness "<>"
  datatype Tags = Tags(transcriptOpen: Tag, transcriptClose: Tag, responseOpen: Tag, responseClose: Tag)

  const TAGS := Tags("<transcript>", "</transcript>", "<response>", "</response>")

  datatype TagMatch = Match | Partial | No

  /** `_tag_match`: how `tag` compares with the start of `text`. */
  function MatchTag(text: string, tag: string): TagMatch {
    if tag <= text then Match
    else if |text| < |tag| && text <= tag then Partial
    else No
  }

  lemma MatchExtends(s: string, tag: string, x: string)
    requires MatchTag(s, tag) == Match
    ensures MatchTag(s + x, tag) == Match && (s + x)[|tag|..] == s[|tag|..] + x
  {
    assert (s + x)[..|tag|] == s[..|tag|] == tag;
  }

  lemma MismatchExtends(s: string, tag: string, x: string)
    requires MatchTag(s, tag) == No
    ensures MatchTag(s + x, tag) == No
  {
    var k :| 0 <= k < |s| && k < |tag| && s[k] != tag[k];
    assert (s + x)[k] != tag[k];
  }

  // ----- The whole-text specification -----

  /** What a complete model reply amounts to: the text to speak and the reported transcript. */
  datatype Reply = Reply(response: string, transcript: string, done: bool)

  /** How much of a text cannot be the beginning of a `tag` at its end. */
  function SafeLength(s: string, tag: Tag): (n: nat)
    ensures n <= |s|
  {
    if |s| < |tag| then 0 else |s| - (|tag| - 1)
  }

  /** A stream that has ended without the transcript's close tag reports only the text that could no
      longer belong to that tag. */
  function UnclosedTranscript(g: Tags, body: string): Reply {
    var kept := body[..SafeLength(body, g.transcriptClose)];
    Reply("", Strip(kept), Strip(kept) != "")
  }

  function ResponseOf(g: Tags, r: string): string {
    match Find(r, g.responseClose)
    case Some(i) => r[..i]
    case None => r
  }

  /** What is spoken after the transcript: the response section, or all of it when it has no open tag. */
  function ResponseText(g: Tags, rest: string): string {
    var s := LStrip(rest);
    if g.responseOpen <= s then ResponseOf(g, s[|g.responseOpen|..]) else s
  }

  function ParseBody(g: Tags, body: string): Reply {
    match Find(body, g.transcriptClose)
    case None => UnclosedTranscript(g, body)
    case Some(i) => Reply(ResponseText(g, body[i + |g.transcriptClose|..]), Strip(body[..i]), true)
  }

  /** The one-shot parse of a whole reply. */
  function Parse(g: Tags, w: string): Reply {
    var s := LStrip(w);
    if g.transcriptOpen <= s then ParseBody(g, s[|g.transcriptOpen|..])
    else if s <= g.transcriptOpen then Reply(w, "", false)
    else Reply(s, "", false)
  }

  // ----- The loop of the incremental splitter -----

  datatype Phase = Detecting | InTranscript | Between | Passthrough | InResponse | Done

  /** The splitter's fields, and in `out` everything it has released so far. */
  datatype Progress = Progress(
    phase: Phase, buffer: string, collected: string, transcript: string, done: bool, out: string)
  {
    function Read(text: string): Progress {
      this.(buffer := buffer + text)
    }
  }

  /** The close tag has been found `i` characters into the buffer. */
  function CloseTranscript(p: Progress, i: nat, tag: Tag): Progress
    requires i + |tag| <= |p.buffer|
  {
    var t := p.collected + p.buffer[..i];
    Progress(Between, p.buffer[i + |tag|..], t, Strip(t), true, p.out)
  }

  function Rank(phase: Phase): nat {
    match phase
    case Detecting => 4
    case InTranscript => 3
    case Between => 2
    case _ => 1
  }

  /** The loop of `feed`: apply the rule of the current phase until one of them returns. */
  function Work(g: Tags, p: Progress): Progress
    decreases Rank(p.phase)
  {
    if p.buffer == "" then p
    else
      match p.phase
      case Detecting => (
        var s := LStrip(p.buffer);
        match MatchTag(s, g.transcriptOpen)
        case Partial => p
        case Match => Work(g, p.(buffer := s[|g.transcriptOpen|..], phase := InTranscript))
        case No => Work(g, p.(buffer := s, phase := Passthrough)))
      case InTranscript => (
        match Find(p.buffer, g.transcriptClose)
        case None =>
          var safe := SafeLength(p.buffer, g.transcriptClose);
          p.(collected := p.collected + p.buffer[..safe], buffer := p.buffer[safe..])
        case Some(i) => Work(g, CloseTranscript(p, i, g.transcriptClose)))
      case Between => (
        var s := LStrip(p.buffer);
        match MatchTag(s, g.responseOpen)
        case Partial => p.(buffer := s)
        case Match => Work(g, p.(buffer := s[|g.responseOpen|..], phase := InResponse))
        case No => Work(g, p.(buffer := s, phase := Passthrough)))
      case Passthrough => p.(out := p.out + p.buffer, buffer := "")
      case _ => (
        match Find(p.buffer, g.responseClose)
        case None =>
          var safe := SafeLength(p.buffer, g.responseClose);
          p.(out := p.out + p.buffer[..safe], buffer := p.buffer[safe..])
        case Some(i) => p.(out := p.out + p.buffer[..i], buffer := "", phase := Done))
  }

  /** The state a whole text leads to when it is read at once. */
  function After(g: Tags, w: string): Progress {
    Work(g, Progress(Detecting, w, "", "", false, ""))
  }

  // ----- Reading in chunks -----

  /** A tag that has been found stays where it is. */
  lemma FindExtends(s: string, x: string, tag: string)
    requires Find(s, tag).Some?
    ensures Find(s + x, tag) == Find(s, tag)
    ensures var i := Find(s, tag).value; (s + x)[..i] == s[..i] && (s + x)[i + |tag|..] == s[i + |tag|..] + x
  {
    var i := Find(s, tag).value;
    FindIsFirst(s, tag);
    forall j | 0 <= j <= i ensures OccursAt(s + x, tag, j) <==> OccursAt(s, tag, j) {
      OccursInPrefix(s, x, tag, j);
    }
    FindUnique(s + x, tag, i);
  }

  /** Text in which no tag has been found can be let go of, except for its last `|tag| - 1` characters. */
  lemma SafeToRelease(b: string, x: string, tag: Tag)
    requires Find(b, tag) == None
    ensures NoneStartsBefore(b + x, tag, SafeLength(b, tag))
  {
    FindIsFirst(b, tag);
    forall j | 0 <= j < SafeLength(b, tag) ensures !OccursAt(b + x, tag, j) {
      OccursInPrefix(b, x, tag, j);
    }
  }

  /** After letting go of `u`, the search in the rest finds the same tag. */
  lemma FindAfterRelease(u: string, v: string, tag: string)
    requires NoneStartsBefore(u + v, tag, |u|)
    ensures Find(u + v, tag) == match Find(v, tag) case Some(i) => Some(|u| + i) case None => None
  {
    FindIsFirst(v, tag);
    assert (u + v)[|u|..] == v;
    forall j | |u| <= j ensures OccursAt(u + v, tag, j) <==> OccursAt(v, tag, j - |u|) {
      OccursInSuffix(u + v, |u|, tag, j - |u|);
    }
    match Find(v, tag)
    case None => FindAbsent(u + v, tag);
    case Some(i) => FindUnique(u + v, tag, |u| + i);
  }

  lemma SplitAfterRelease(u: string, v: string, i: nat)
    requires i <= |v|
    ensures (u + v)[..|u| + i] == u + v[..i] && (u + v)[|u| + i..] == v[i..]
  {
  }

  lemma CloseAfterRelease(p: Progress, u: string, v: string, i: nat, tag: Tag)
    requires i + |tag| <= |v|
    ensures CloseTranscript(p.(buffer := u + v), |u| + i, tag)
         == CloseTranscript(p.(collected := p.collected + u, buffer := v), i, tag)
  {
    SplitAfterRelease(u, v, i);
    SplitAfterRelease(u, v, i + |tag|);
    assert p.collected + (u + v[..i]) == p.collected + u + v[..i];
  }

  lemma WorkCloses(g: Tags, p: Progress, i: nat)
    requires p.phase == InTranscript && p.buffer != "" && Find(p.buffer, g.transcriptClose) == Some(i)
    ensures Work(g, p) == Work(g, CloseTranscript(p, i, g.transcriptClose))
  {
  }

  lemma WorkKeeps(g: Tags, p: Progress)
    requires p.phase == InTranscript && p.buffer != "" && Find(p.buffer, g.transcriptClose) == None
    ensures var safe := SafeLength(p.buffer, g.transcriptClose);
            Work(g, p) == p.(collected := p.collected + p.buffer[..safe], buffer := p.buffer[safe..])
  {
  }

  lemma ReleaseUnclosed(g: Tags, p: Progress, u: string, v: string)
    requires p.phase == InTranscript && v != ""
    requires Find(v, g.transcriptClose) == None && Find(u + v, g.transcriptClose) == None
    requires SafeLength(u + v, g.transcriptClose) == |u| + SafeLength(v, g.transcriptClose)
    ensures Work(g, p.(buffer := u + v)) == Work(g, p.(collected := p.collected + u, buffer := v))
  {
    var n := SafeLength(v, g.transcriptClose);
    WorkKeeps(g, p.(buffer := u + v));
    WorkKeeps(g, p.(collected := p.collected + u, buffer := v));
    SplitAfterRelease(u, v, n);
    assert p.collected + (u + v[..n]) == p.collected + u + v[..n];
  }

  lemma ReleaseClosed(g: Tags, p: Progress, u: string, v: string, i: nat)
    requires p.phase == InTranscript && v != ""
    requires Find(v, g.transcriptClose) == Some(i) && Find(u + v, g.transcriptClose) == Some(|u| + i)
    ensures Work(g, p.(buffer := u + v)) == Work(g, p.(collected := p.collected + u, buffer := v))
  {
    WorkCloses(g, p.(buffer := u + v), |u| + i);
    WorkCloses(g, p.(collected := p.collected + u, buffer := v), i);
    CloseAfterRelease(p, u, v, i, g.transcriptClose);
  }

  /** What moving `u` out of the buffer changes: nothing. */
  lemma ReleaseTranscript(g: Tags, p: Progress, u: string, v: string)
    requires p.phase == InTranscript && v != ""
    requires NoneStartsBefore(u + v, g.transcriptClose, |u|)
    requires SafeLength(u + v, g.transcriptClose) == |u| + SafeLength(v, g.transcriptClose)
    ensures Work(g, p.(buffer := u + v)) == Work(g, p.(collected := p.collected + u, buffer := v))
  {
    FindAfterRelease(u, v, g.transcriptClose);
    match Find(v, g.transcriptClose)
    case None => ReleaseUnclosed(g, p, u, v);
    case Some(i) => ReleaseClosed(g, p, u, v, i);
  }

  lemma ReleaseResponse(g: Tags, p: Progress, u: string, v: string)
    requires p.phase == InResponse && v != ""
    requires NoneStartsBefore(u + v, g.responseClose, |u|)
    requires SafeLength(u + v, g.responseClose) == |u| + SafeLength(v, g.responseClose)
    ensures Work(g, p.(buffer := u + v)) == Work(g, p.(out := p.out + u, buffer := v))
  {
    FindAfterRelease(u, v, g.responseClose);
    match Find(v, g.responseClose)
    case None =>
      SplitAfterRelease(u, v, SafeLength(v, g.responseClose));
      assert p.out + (u + v[..SafeLength(v, g.responseClose)]) == p.out + u + v[..SafeLength(v, g.responseClose)];
    case Some(i) =>
      SplitAfterRelease(u, v, i);
      assert p.out + (u + v[..i]) == p.out + u + v[..i];
  }

  /** White space already stripped makes no difference to what comes after it. */
  lemma MatchAfterStrip(b: string, x: string, tag: Tag)
    ensures var s := LStrip(b);
            match MatchTag(s, tag)
            case Match => MatchTag(LStrip(b + x), tag) == Match && LStrip(b + x)[|tag|..] == s[|tag|..] + x
            case Partial => LStrip(b + x) == LStrip(s + x)
            case No => MatchTag(LStrip(b + x), tag) == No && LStrip(b + x) == s + x
  {
    var s := LStrip(b);
    LStripAppend(b, x);
    match MatchTag(s, tag)
    case Match =>
      LStripExtend(b, x);
      MatchExtends(s, tag, x);
    case Partial =>
    case No =>
      LStripExtend(b, x);
      MismatchExtends(s, tag, x);
  }

  /** Stopping after `p.buffer` and going on with `x` is the same as reading both at once. */
  lemma {:induction false} Resumable(g: Tags, p: Progress, x: string)
    requires p.phase != Done
    ensures var q := Work(g, p);
            Work(g, p.Read(x)) == if q.phase == Done then q else Work(g, q.Read(x))
    decreases Rank(p.phase)
  {
    if p.buffer == "" {
      return;
    }
    match p.phase
    case Detecting => ResumableDetecting(g, p, x);
    case InTranscript => ResumableTranscript(g, p, x);
    case Between => ResumableBetween(g, p, x);
    case Passthrough => assert p.out + (p.buffer + x) == p.out + p.buffer + x;
    case _ => ResumableResponse(g, p, x);
  }

  lemma {:induction false} ResumableDetecting(g: Tags, p: Progress, x: string)
    requires p.phase == Detecting && p.buffer != ""
    ensures var q := Work(g, p);
            Work(g, p.Read(x)) == if q.phase == Done then q else Work(g, q.Read(x))
    decreases Rank(p.phase), 0
  {
    MatchAfterStrip(p.buffer, x, g.transcriptOpen);
    var s := LStrip(p.buffer);
    match MatchTag(s, g.transcriptOpen)
    case Match => Resumable(g, p.(buffer := s[|g.transcriptOpen|..], phase := InTranscript), x);
    case Partial =>
    case No => Resumable(g, p.(buffer := s, phase := Passthrough), x);
  }

  lemma ResumableOpen(g: Tags, p: Progress, x: string)
    requires p.phase == InTranscript && p.buffer != "" && Find(p.buffer, g.transcriptClose) == None
    ensures Work(g, p.Read(x)) == Work(g, Work(g, p).Read(x))
  {
    var b, safe := p.buffer, SafeLength(p.buffer, g.transcriptClose);
    SafeToRelease(b, x, g.transcriptClose);
    assert b[..safe] + (b[safe..] + x) == b + x;
    ReleaseTranscript(g, p, b[..safe], b[safe..] + x);
  }

  lemma {:induction false} ResumableTranscript(g: Tags, p: Progress, x: string)
    requires p.phase == InTranscript && p.buffer != ""
    ensures var q := Work(g, p);
            Work(g, p.Read(x)) == if q.phase == Done then q else Work(g, q.Read(x))
    decreases Rank(p.phase), 0
  {
    match Find(p.buffer, g.transcriptClose)
    case None =>
      ResumableOpen(g, p, x);
    case Some(i) =>
      FindExtends(p.buffer, x, g.transcriptClose);
      var q := CloseTranscript(p, i, g.transcriptClose);
      assert CloseTranscript(p.Read(x), i, g.transcriptClose) == q.Read(x);
      Resumable(g, q, x);
  }

  lemma {:induction false} ResumableBetween(g: Tags, p: Progress, x: string)
    requires p.phase == Between && p.buffer != ""
    ensures var q := Work(g, p);
            Work(g, p.Read(x)) == if q.phase == Done then q else Work(g, q.Read(x))
    decreases Rank(p.phase), 0
  {
    MatchAfterStrip(p.buffer, x, g.responseOpen);
    var s := LStrip(p.buffer);
    match MatchTag(s, g.responseOpen)
    case Match => Resumable(g, p.(buffer := s[|g.responseOpen|..], phase := InResponse), x);
    case Partial =>
    case No => Resumable(g, p.(buffer := s, phase := Passthrough), x);
  }

  lemma ResumableResponse(g: Tags, p: Progress, x: string)
    requires p.phase == InResponse && p.buffer != ""
    ensures var q := Work(g, p);
            Work(g, p.Read(x)) == if q.phase == Done then q else Work(g, q.Read(x))
  {
    var b, safe := p.buffer, SafeLength(p.buffer, g.responseClose);
    match Find(b, g.responseClose)
    case None =>
      SafeToRelease(b, x, g.responseClose);
      assert b[..safe] + (b[safe..] + x) == b + x;
      ReleaseResponse(g, p, b[..safe], b[safe..] + x);
    case Some(i) => FindExtends(b, x, g.responseClose);
  }

  /** One `feed` turns the state of `w` into the state of `w + x`. */
  lemma FeedAdvances(g: Tags, w: string, x: string)
    ensures var p, q := After(g, w), After(g, w + x);
            q == if p.phase == Done then p else Work(g, p.Read(x))
  {
    Resumable(g, Progress(Detecting, w, "", "", false, ""), x);
  }

  // ----- The splitter itself -----

  class Extractor {
    const g: Tags
    var phase: Phase
    var buffer: string
    var collected: string
    var transcript: string
    var transcriptDone: bool
    ghost var consumed: string
    ghost var released: string

    ghost function View(): Progress
      reads this
    {
      Progress(phase, buffer, collected, transcript, transcriptDone, released)
    }

    /** Between calls the fields are those that reading all the text at once would have left. */
    ghost predicate Valid()
      reads this
    {
      View() == After(g, consumed)
    }

    constructor (g: Tags)
      ensures Valid() && consumed == "" && released == "" && this.g == g
    {
      this.g := g;
      phase, buffer, collected, transcript, transcriptDone := Detecting, "", "", "", false;
      consumed, released := "", "";
    }

    /** `feed`: consume a delta and return the response text that is ready. */
    method Feed(text: string) returns (out: string)
      requires Valid()
      modifies this
      ensures Valid() && consumed == old(consumed) + text && released == old(released) + out
    {
      FeedAdvances(g, consumed, text);
      consumed := consumed + text;
      out := "";
      if phase == Done { return; }
      buffer := buffer + text;
      ghost var q := After(g, consumed);
      var more := true;
      while more && buffer != ""
        invariant consumed == old(consumed) + text && released == old(released)
        invariant if more then Work(g, View()) == q else View() == q
        invariant phase.Passthrough? || phase.InResponse? ==> more
        decreases more, Rank(phase)
      {
        if phase == Detecting {
          more := Detect();
        } else if phase == InTranscript {
          more := Collect();
        } else if phase == Between {
          more := Separate();
        } else {
          out := Release();
          return;
        }
      }
    }

    /** The `detecting` rule. */
    method Detect() returns (more: bool)
      requires phase == Detecting && buffer != ""
      modifies this`buffer, this`phase
      ensures if more then Work(g, View()) == Work(g, old(View())) && Rank(phase) < Rank(Detecting)
              else View() == Work(g, old(View())) && phase == Detecting
    {
      var stripped := LStrip(buffer);
      match MatchTag(stripped, g.transcriptOpen)
      case Partial => return false;
      case Match => buffer, phase := stripped[|g.transcriptOpen|..], InTranscript; return true;
      case No => buffer, phase := stripped, Passthrough; return true;
    }

    /** The `transcript` rule. */
    method Collect() returns (more: bool)
      requires phase == InTranscript && buffer != ""
      modifies this`buffer, this`phase, this`collected, this`transcript, this`transcriptDone
      ensures if more then Work(g, View()) == Work(g, old(View())) && phase == Between
              else View() == Work(g, old(View())) && phase == InTranscript
    {
      hide LStrip, RStrip, Strip;
      match Find(buffer, g.transcriptClose)
      case None =>
        var safe := |buffer| - (|g.transcriptClose| - 1);
        if safe > 0 {
          collected := collected + buffer[..safe];
          buffer := buffer[safe..];
        }
        return false;
      case Some(i) =>
        collected := collected + buffer[..i];
        transcript := Strip(collected);
        transcriptDone := true;
        buffer, phase := buffer[i + |g.transcriptClose|..], Between;
        return true;
    }

    /** The `between` rule. */
    method Separate() returns (more: bool)
      requires phase == Between && buffer != ""
      modifies this`buffer, this`phase
      ensures if more then Work(g, View()) == Work(g, old(View())) && Rank(phase) < Rank(Between)
              else View() == Work(g, old(View())) && phase == Between
    {
      var stripped := LStrip(buffer);
      match MatchTag(stripped, g.responseOpen)
      case Partial => buffer := stripped; return false;
      case Match => buffer, phase := stripped[|g.responseOpen|..], InResponse; return true;
      case No => buffer, phase := stripped, Passthrough; return true;
    }

    /** The `passthrough` and `response` rules, which let text out. */
    method Release() returns (out: string)
      requires phase != Detecting && phase != InTranscript && phase != Between && buffer != ""
      modifies this`buffer, this`phase, this`released
      ensures View() == Work(g, old(View())) && released == old(released) + out
    {
      if phase == Passthrough {
        out := buffer;
        buffer := "";
      } else {
        match Find(buffer, g.responseClose) {
          case Some(i) =>
            out := buffer[..i];
            buffer, phase := "", Done;
          case None =>
            var safe := |buffer| - (|g.responseClose| - 1);
            out := "";
            if safe > 0 {
              out := buffer[..safe];
              buffer := buffer[safe..];
            }
        }
      }
      released := released + out;
    }

    /** `finalize`: what is left to speak once the stream has ended. */
    method Finalize() returns (remainder: string)
      requires Valid()
      modifies this`buffer, this`transcript, this`transcriptDone
      ensures Reply(released + remainder, transcript, transcriptDone) == Parse(g, consumed)
    {
      FlushIsParse(g, consumed);
      remainder := buffer;
      buffer := "";
      if phase == InTranscript {
        if collected != "" && !transcriptDone {
          transcript := Strip(collected);
          transcriptDone := transcript != "";
        }
        return "";
      }
      if phase == Done {
        return "";
      }
    }
  }

  // ----- The one-shot parse and the loop agree -----

  function Flush(p: Progress): Reply {
    match p.phase
    case InTranscript => Reply(p.out, Strip(p.collected), Strip(p.collected) != "")
    case Done => Reply(p.out, p.transcript, p.done)
    case _ => Reply(p.out + p.buffer, p.transcript, p.done)
  }

  lemma FlushResponse(g: Tags, r: string, t: string)
    ensures var p := Work(g, Progress(InResponse, r, t, Strip(t), true, ""));
            Flush(p) == Reply(ResponseOf(g, r), Strip(t), true) && p.phase != InTranscript
  {
    var safe := SafeLength(r, g.responseClose);
    assert "" + r[..safe] + r[safe..] == r;
  }

  lemma FlushRest(g: Tags, rest: string, t: string)
    ensures var p := Work(g, Progress(Between, rest, t, Strip(t), true, ""));
            Flush(p) == Reply(ResponseText(g, rest), Strip(t), true) && p.phase != InTranscript
  {
    var s := LStrip(rest);
    if MatchTag(s, g.responseOpen) == Match {
      FlushResponse(g, s[|g.responseOpen|..], t);
    }
  }

  lemma FlushUnclosed(g: Tags, body: string)
    requires Find(body, g.transcriptClose) == None
    ensures var p := Work(g, Progress(InTranscript, body, "", "", false, ""));
            && Flush(p) == UnclosedTranscript(g, body)
            && p.phase == InTranscript && !p.done && p.transcript == "" && p.out == ""
  {
    var kept := body[..SafeLength(body, g.transcriptClose)];
    assert "" + kept == kept;
  }

  lemma FoundInside(s: string, tag: Tag, i: nat)
    requires Find(s, tag) == Some(i)
    ensures s != "" && i + |tag| <= |s|
  {
    FindIsFirst(s, tag);
  }

  lemma FlushClosed(g: Tags, body: string, i: nat)
    requires Find(body, g.transcriptClose) == Some(i)
    ensures var p := Work(g, Progress(InTranscript, body, "", "", false, ""));
            && Flush(p) == Reply(ResponseText(g, body[i + |g.transcriptClose|..]), Strip(body[..i]), true)
            && p.phase != InTranscript
  {
    hide Work, Flush, Find, Strip, ResponseText;
    var p := Progress(InTranscript, body, "", "", false, "");
    assert "" + body[..i] == body[..i];
    FoundInside(body, g.transcriptClose, i);
    WorkCloses(g, p, i);
    FlushRest(g, body[i + |g.transcriptClose|..], body[..i]);
  }

  lemma FlushBody(g: Tags, body: string)
    ensures var p := Work(g, Progress(InTranscript, body, "", "", false, ""));
            && Flush(p) == ParseBody(g, body)
            && (p.phase == InTranscript ==> !p.done && p.transcript == "" && p.out == "")
  {
    match Find(body, g.transcriptClose)
    case None => FlushUnclosed(g, body);
    case Some(i) => FlushClosed(g, body, i);
  }

  lemma WorkDetects(g: Tags, w: string)
    ensures var s := LStrip(w); var p := Progress(Detecting, w, "", "", false, "");
            match MatchTag(s, g.transcriptOpen)
            case Match => After(g, w) == Work(g, p.(buffer := s[|g.transcriptOpen|..], phase := InTranscript))
            case Partial => After(g, w) == p
            case No => After(g, w) == p.(buffer := "", phase := Passthrough, out := s)
  {
    hide Work, LStrip, MatchTag;
    var s, p := LStrip(w), Progress(Detecting, w, "", "", false, "");
    if w == "" {
      NothingDetected(g);
    } else {
      WorkDetecting(g, p);
      if MatchTag(s, g.transcriptOpen) == No {
        StripNotEmpty(g, w);
        WorkPassthrough(g, p.(buffer := s, phase := Passthrough));
        assert "" + s == s;
      }
    }
  }

  lemma NothingDetected(g: Tags)
    ensures LStrip("") == "" && MatchTag("", g.transcriptOpen) == Partial
    ensures Work(g, Progress(Detecting, "", "", "", false, "")) == Progress(Detecting, "", "", "", false, "")
  {
  }

  /** A text that is no tag after stripping is not empty after stripping. */
  lemma StripNotEmpty(g: Tags, w: string)
    requires MatchTag(LStrip(w), g.transcriptOpen) == No
    ensures LStrip(w) != ""
  {
  }

  lemma WorkDetecting(g: Tags, p: Progress)
    requires p.phase == Detecting && p.buffer != ""
    ensures var s := LStrip(p.buffer);
            match MatchTag(s, g.transcriptOpen)
            case Match => Work(g, p) == Work(g, p.(buffer := s[|g.transcriptOpen|..], phase := InTranscript))
            case Partial => Work(g, p) == p
            case No => Work(g, p) == Work(g, p.(buffer := s, phase := Passthrough))
  {
    hide LStrip, Find, Strip, CloseTranscript, SafeLength;
  }

  lemma WorkPassthrough(g: Tags, p: Progress)
    requires p.phase == Passthrough && p.buffer != ""
    ensures Work(g, p) == p.(out := p.out + p.buffer, buffer := "")
  {
    hide LStrip, Find, Strip, MatchTag, SafeLength;
  }

  /** Flushing the state of a text gives the one-shot parse of that text. */
  lemma FlushIsParse(g: Tags, w: string)
    ensures var p := After(g, w);
            && Flush(p) == Parse(g, w)
            && (p.phase == InTranscript ==> !p.done && p.transcript == "" && p.out == "")
  {
    WorkDetects(g, w);
    var s := LStrip(w);
    match MatchTag(s, g.transcriptOpen)
    case Match => FlushBody(g, s[|g.transcriptOpen|..]);
    case Partial => assert "" + w == w;
    case No => assert s + "" == s;
  }

  // ----- Any chunking -----

  function Concat(chunks: seq<string>): string {
    if chunks == [] then "" else Concat(chunks[..|chunks| - 1]) + chunks[|chunks| - 1]
  }

  /** Feed a stream delta by delta and finalize it: the result is the parse of the whole text, so it does not
      depend on where the stream was cut. */
  method ExtractAll(g: Tags, chunks: seq<string>) returns (response: string, transcript: string, done: bool)
    ensures Reply(response, transcript, done) == Parse(g, Concat(chunks))
  {
    var extractor := new Extractor(g);
    response := "";
    for i := 0 to |chunks|
      invariant extractor.Valid() && extractor.g == g && fresh(extractor)
      invariant extractor.consumed == Concat(chunks[..i]) && extractor.released == response
    {
      assert chunks[..i + 1][..i] == chunks[..i];
      var out := extractor.Feed(chunks[i]);
      response := response + out;
    }
    assert chunks[..|chunks|] == chunks;
    var remainder := extractor.Finalize();
    response, transcript, done := response + remainder, extractor.transcript, extractor.transcriptDone;
  }

  lemma {:induction false} WorkOnlyReleases(g: Tags, p: Progress)
    ensures p.out <= Work(g, p).out
    ensures Work(g, p).phase == InResponse ==> |Work(g, p).buffer| < |g.responseClose|
    decreases Rank(p.phase)
  {
    if p.buffer == "" { return; }
    match p.phase
    case Detecting =>
      var s := LStrip(p.buffer);
      match MatchTag(s, g.transcriptOpen) {
        case Partial =>
        case Match => WorkOnlyReleases(g, p.(buffer := s[|g.transcriptOpen|..], phase := InTranscript));
        case No => WorkOnlyReleases(g, p.(buffer := s, phase := Passthrough));
      }
    case InTranscript =>
      if Find(p.buffer, g.transcriptClose).Some? {
        WorkOnlyReleases(g, CloseTranscript(p, Find(p.buffer, g.transcriptClose).value, g.transcriptClose));
      }
    case Between =>
      var s := LStrip(p.buffer);
      match MatchTag(s, g.responseOpen) {
        case Partial =>
        case Match => WorkOnlyReleases(g, p.(buffer := s[|g.responseOpen|..], phase := InResponse));
        case No => WorkOnlyReleases(g, p.(buffer := s, phase := Passthrough));
      }
    case _ =>
  }

  /** What has been spoken is never retracted: it is a prefix of the response whatever still follows. */
  lemma NeverRetracted(g: Tags, w: string, x: string)
    ensures After(g, w).out <= Parse(g, w + x).response
  {
    FeedAdvances(g, w, x);
    FlushIsParse(g, w + x);
    WorkOnlyReleases(g, After(g, w).Read(x));
  }

  /** Inside the response section the text not yet spoken is shorter than the close tag. */
  lemma HeldBackIsShort(g: Tags, w: string)
    requires After(g, w).phase == InResponse
    ensures var spoken, all := After(g, w).out, Parse(g, w).response;
            spoken <= all && |all| - |spoken| < |g.responseClose|
    ensures g == TAGS ==> |Parse(g, w).response| - |After(g, w).out| <= 10
  {
    FlushIsParse(g, w);
    WorkOnlyReleases(g, Progress(Detecting, w, "", "", false, ""));
  }

  // ----- Round trip -----

  /** No proper suffix of `tag` is also a prefix of it. */
  ghost predicate BorderFree(tag: string) {
    forall k | 0 < k < |tag| :: tag[k..] != tag[..|tag| - k]
  }

  /** Two copies of a tag that overlap show a border. */
  lemma OverlapIsBorder(w: string, tag: string, i: nat, j: nat)
    requires OccursAt(w, tag, i) && OccursAt(w, tag, j) && i < j < i + |tag|
    ensures var k := j - i; tag[k..] == tag[..|tag| - k]
  {
    var k := j - i;
    assert tag[k..] == w[i..i + |tag|][k..] == w[j..i + |tag|] == w[j..j + |tag|][..|tag| - k];
  }

  /** Printed after a text that does not contain it, a border-free tag is found where it was printed. */
  lemma FindPrinted(t: string, tag: Tag, rest: string)
    requires BorderFree(tag) && Find(t, tag) == None
    ensures Find(t + tag + rest, tag) == Some(|t|)
  {
    var w := t + tag + rest;
    FindIsFirst(t, tag);
    assert w[|t|..|t| + |tag|] == tag;
    forall j | 0 <= j < |t| ensures !OccursAt(w, tag, j) {
      if j + |tag| <= |t| {
        assert w == t + (tag + rest);
        OccursInPrefix(t, tag + rest, tag, j);
      } else if OccursAt(w, tag, j) {
        OverlapIsBorder(w, tag, j, |t|);
      }
    }
    FindUnique(w, tag, |t|);
  }

  /** Being border-free is exactly what it takes: with a border some text hides the tag printed after it. */
  lemma {:induction false} BorderFreeExactly(tag: Tag)
    ensures BorderFree(tag) <==> forall t | Find(t, tag) == None :: Find(t + tag, tag) == Some(|t|)
  {
    if BorderFree(tag) {
      forall t | Find(t, tag) == None ensures Find(t + tag, tag) == Some(|t|) {
        FindPrinted(t, tag, "");
        assert t + tag + "" == t + tag;
      }
    } else {
      var k :| 0 < k < |tag| && tag[k..] == tag[..|tag| - k];
      var t := tag[..k];
      FindAbsent(t, tag);
      assert (t + tag)[..|tag|] == t + tag[..|tag| - k] == t + tag[k..] == tag;
      FindUnique(t + tag, tag, 0);
    }
  }

  lemma SourceTagsAreBorderFree()
    ensures BorderFree(TAGS.transcriptClose) && BorderFree(TAGS.responseClose)
  {
    assert forall k | 0 < k < |TAGS.transcriptClose| :: TAGS.transcriptClose[k..][0] != '<';
    assert forall k | 0 < k < |TAGS.responseClose| :: TAGS.responseClose[k..][0] != '<';
  }

  lemma LStripTagged(ws: string, tag: Tag, rest: string)
    requires AllSpace(ws) && !IsSpace(tag[0])
    ensures tag <= LStrip(ws + tag + rest) && LStrip(ws + tag + rest)[|tag|..] == rest
  {
    assert ws + tag + rest == ws + (tag + rest);
    LStripSkips(ws, tag + rest);
  }

  /** Printing the two sections and parsing the result gives both back. */
  lemma RoundTripAny(g: Tags, ws: string, t: string, ws': string, r: string, rest: string)
    requires BorderFree(g.transcriptClose) && BorderFree(g.responseClose)
    requires !IsSpace(g.transcriptOpen[0]) && !IsSpace(g.responseOpen[0])
    requires AllSpace(ws) && AllSpace(ws')
    requires Find(t, g.transcriptClose) == None && Find(r, g.responseClose) == None
    ensures var answer := ws' + g.responseOpen + (r + g.responseClose + rest);
            Parse(g, ws + g.transcriptOpen + (t + g.transcriptClose + answer)) == Reply(r, Strip(t), true)
  {
    var answer := ws' + g.responseOpen + (r + g.responseClose + rest);
    var body := t + g.transcriptClose + answer;
    LStripTagged(ws, g.transcriptOpen, body);
    FindPrinted(t, g.transcriptClose, answer);
    assert body[..|t|] == t && body[|t| + |g.transcriptClose|..] == answer;
    RoundTripResponse(g, ws', r, rest);
  }

  lemma RoundTripResponse(g: Tags, ws: string, r: string, rest: string)
    requires BorderFree(g.responseClose) && !IsSpace(g.responseOpen[0])
    requires AllSpace(ws) && Find(r, g.responseClose) == None
    ensures ResponseText(g, ws + g.responseOpen + (r + g.responseClose + rest)) == r
  {
    LStripTagged(ws, g.responseOpen, r + g.responseClose + rest);
    FindPrinted(r, g.responseClose, rest);
    assert (r + g.responseClose + rest)[..|r|] == r;
  }

  /** The source's tags in particular. */
  lemma RoundTrip(ws: string, t: string, ws': string, r: string, rest: string)
    requires AllSpace(ws) && AllSpace(ws')
    requires Find(t, TAGS.transcriptClose) == None && Find(r, TAGS.responseClose) == None
    ensures var answer := ws' + TAGS.responseOpen + (r + TAGS.responseClose + rest);
            Parse(TAGS, ws + TAGS.transcriptOpen + (t + TAGS.transcriptClose + answer)) == Reply(r, Strip(t), true)
  {
    SourceTagsAreBorderFree();
    RoundTripAny(TAGS, ws, t, ws', r, rest);
  }
}
