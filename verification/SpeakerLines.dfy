/** Joining speaker lines that follow each other without a reply between them
    (src/examples/generic/silent_reply.py, `join_back_to_back_lines`). */
module SpeakerLines {

  datatype Content = Text(text: string) | NotText(tag: nat)

  /** A chat message; `rest` stands for its other keys. */
  datatype Message = Message(role: string, content: Content, rest: nat)

  const SPEAKER := "Speaker "

  predicate IsLine(m: Message) {
    m.role == "user" && m.content.Text? && SPEAKER <= m.content.text
  }

  /** All speaker labels of a text, as the source's regular expression finds them. */
  type Labels = string -> seq<string>

  /** The label is dropped when the same speaker goes on. */
  function Continued(labels: Labels, said: string, text: string): string {
    var found := labels(said);
    if found != [] && found[|found| - 1] <= text then text[|found[|found| - 1]|..] else text
  }

  function JoinTwo(labels: Labels, a: Message, b: Message): Message
    requires IsLine(a) && IsLine(b)
  {
    a.(content := Text(a.content.text + " " + Continued(labels, a.content.text, b.content.text)))
  }

  function Joined(labels: Labels, ms: seq<Message>): seq<Message> {
    if ms == [] then []
    else
      var j, m := Joined(labels, ms[..|ms| - 1]), ms[|ms| - 1];
      if j != [] && IsLine(j[|j| - 1]) && IsLine(m) then j[|j| - 1 := JoinTwo(labels, j[|j| - 1], m)] else j + [m]
  }

  lemma JoinedNone(labels: Labels)
    ensures Joined(labels, []) == []
  {
  }

  lemma JoinedNext(labels: Labels, ms: seq<Message>, m: Message)
    ensures var j := Joined(labels, ms);
            Joined(labels, ms + [m]) ==
              if j != [] && IsLine(j[|j| - 1]) && IsLine(m) then j[|j| - 1 := JoinTwo(labels, j[|j| - 1], m)]
              else j + [m]
  {
    assert (ms + [m])[..|ms|] == ms;
  }

  /** `join_back_to_back_lines`. */
  method JoinBackToBackLines(labels: Labels, messages: seq<Message>) returns (joined: seq<Message>)
    ensures joined == Joined(labels, messages)
  {
    hide Joined;
    joined := [];
    JoinedNone(labels);
    for i := 0 to |messages|
      invariant joined == Joined(labels, messages[..i])
    {
      var message := messages[i];
      JoinedNext(labels, messages[..i], message);
      assert messages[..i + 1] == messages[..i] + [message];
      if joined != [] && IsLine(joined[|joined| - 1]) && IsLine(message) {
        var previous := joined[|joined| - 1];
        var text := message.content.text;
        var found := labels(previous.content.text);
        if found != [] && found[|found| - 1] <= text {
          text := text[|found[|found| - 1]|..];
        }
        joined := joined[|joined| - 1 := previous.(content := Text(previous.content.text + " " + text))];
      } else {
        joined := joined + [message];
      }
    }
    assert messages[..|messages|] == messages;
  }

  // ----- Runs of lines -----

  /** The runs once a message is added: it joins the last run, or starts one. */
  function Cut(runs: seq<seq<Message>>, m: Message, joins: bool): seq<seq<Message>> {
    if joins && runs != [] then runs[..|runs| - 1] + [runs[|runs| - 1] + [m]] else runs + [[m]]
  }

  /** The list cut into the longest runs of speaker lines, other messages standing alone. */
  function Runs(ms: seq<Message>): seq<seq<Message>> {
    if ms == [] then []
    else
      var m := ms[|ms| - 1];
      Cut(Runs(ms[..|ms| - 1]), m, |ms| > 1 && IsLine(ms[|ms| - 2]) && IsLine(m))
  }

  /** What a later line adds to what was said: all of it, or, where it starts with the label of the speaker who was
      speaking last, what follows that label. */
  ghost predicate Adds(labels: Labels, said: string, line: string, added: string) {
    if labels(said) != [] && labels(said)[|labels(said)| - 1] <= line
    then labels(said)[|labels(said)| - 1] + added == line else added == line
  }

  /** What a run of lines says: its first line, then after a space what each later one adds. */
  ghost predicate RunSays(labels: Labels, run: seq<Message>, text: string)
    requires run != [] && forall k | 0 <= k < |run| :: IsLine(run[k])
  {
    var m := run[|run| - 1];
    assert IsLine(m);
    if |run| == 1 then text == m.content.text
    else exists said, added ::
      RunSays(labels, run[..|run| - 1], said) && Adds(labels, said, m.content.text, added) && text == said + " " + added
  }

  ghost predicate IsRun(run: seq<Message>) {
    run != [] && (|run| > 1 ==> forall k | 0 <= k < |run| :: IsLine(run[k]))
  }

  /** A message that stands for a run: a message alone as it is, and lines as the first of them with the run's text. */
  ghost predicate StandsFor(labels: Labels, m: Message, run: seq<Message>)
    requires IsRun(run)
  {
    if IsLine(run[0]) then m.content.Text? && RunSays(labels, run, m.content.text) && m == run[0].(content := m.content)
    else m == run[0]
  }

  function Flat(runs: seq<seq<Message>>): seq<Message> {
    if runs == [] then [] else Flat(runs[..|runs| - 1]) + runs[|runs| - 1]
  }

  /** The runs make up the list, and none could be longer. */
  ghost predicate IsCut(runs: seq<seq<Message>>, ms: seq<Message>) {
    && Flat(runs) == ms && (runs == [] <==> ms == [])
    && (forall k | 0 <= k < |runs| :: IsRun(runs[k]))
    && (forall k | 0 < k < |runs| :: !(IsLine(runs[k - 1][|runs[k - 1]| - 1]) && IsLine(runs[k][0])))
    && (runs != [] ==> runs[|runs| - 1][|runs[|runs| - 1]| - 1] == ms[|ms| - 1])
  }

  lemma CutNext(runs: seq<seq<Message>>, ms: seq<Message>, m: Message)
    requires IsCut(runs, ms)
    ensures IsCut(Cut(runs, m, ms != [] && IsLine(ms[|ms| - 1]) && IsLine(m)), ms + [m])
  {
    var cut := Cut(runs, m, ms != [] && IsLine(ms[|ms| - 1]) && IsLine(m));
    if |cut| == |runs| {
      var n := |runs| - 1;
      assert cut[..n] == runs[..n] && cut[n] == runs[n] + [m];
      assert Flat(cut) == Flat(runs[..n]) + (runs[n] + [m]) == Flat(runs) + [m];
      assert IsRun(runs[n]) && IsRun(cut[n]);
    } else {
      assert cut[..|runs|] == runs;
    }
  }

  lemma {:induction false} RunsCut(ms: seq<Message>)
    ensures IsCut(Runs(ms), ms)
  {
    if ms != [] {
      var front := ms[..|ms| - 1];
      RunsCut(front);
      CutNext(Runs(front), front, ms[|ms| - 1]);
      assert ms == front + [ms[|ms| - 1]];
    }
  }

  /** A later line joins its run. */
  lemma LineJoins(labels: Labels, m: Message, run: seq<Message>, line: Message)
    requires IsRun(run) && StandsFor(labels, m, run) && IsLine(run[|run| - 1]) && IsLine(line)
    ensures IsRun(run + [line]) && IsLine(m) && StandsFor(labels, JoinTwo(labels, m, line), run + [line])
  {
    hide Continued;
    assert (run + [line])[..|run|] == run;
    var said := m.content.text;
    RunSaysLine(labels, run, said);
    ContinuedAdds(labels, said, line.content.text);
    assert RunSays(labels, run + [line], said + " " + Continued(labels, said, line.content.text));
  }

  lemma ContinuedAdds(labels: Labels, said: string, line: string)
    ensures Adds(labels, said, line, Continued(labels, said, line))
  {
  }

  lemma {:induction false} RunSaysLine(labels: Labels, run: seq<Message>, text: string)
    requires run != [] && (forall k | 0 <= k < |run| :: IsLine(run[k])) && RunSays(labels, run, text)
    ensures SPEAKER <= text
  {
    if |run| > 1 {
      var m := run[|run| - 1];
      assert IsLine(m);
      var said, added :| RunSays(labels, run[..|run| - 1], said) && Adds(labels, said, m.content.text, added)
        && text == said + " " + added;
      RunSaysLine(labels, run[..|run| - 1], said);
    }
  }

  /** The messages stand for the runs, one by one. */
  ghost predicate Stand(labels: Labels, j: seq<Message>, runs: seq<seq<Message>>) {
    |j| == |runs| && forall k | 0 <= k < |runs| :: IsRun(runs[k]) && StandsFor(labels, j[k], runs[k])
  }

  lemma StandsNext(labels: Labels, j: seq<Message>, runs: seq<seq<Message>>, m: Message)
    requires Stand(labels, j, runs)
    requires j != [] && IsLine(j[|j| - 1]) && IsLine(m) ==> var run := runs[|runs| - 1]; IsLine(run[|run| - 1])
    ensures var joins := j != [] && IsLine(j[|j| - 1]) && IsLine(m);
            Stand(labels, if joins then j[|j| - 1 := JoinTwo(labels, j[|j| - 1], m)] else j + [m], Cut(runs, m, joins))
  {
    hide RunSays;
    if j != [] && IsLine(j[|j| - 1]) && IsLine(m) {
      LineJoins(labels, j[|j| - 1], runs[|runs| - 1], m);
    } else if IsLine(m) {
      OneLine(labels, m);
    }
  }

  lemma RunsNext(ms: seq<Message>, m: Message)
    ensures Runs(ms + [m]) == Cut(Runs(ms), m, ms != [] && IsLine(ms[|ms| - 1]) && IsLine(m))
  {
    assert (ms + [m])[..|ms|] == ms;
  }

  lemma LastOfRuns(runs: seq<seq<Message>>, ms: seq<Message>)
    requires IsCut(runs, ms)
    ensures runs == [] <==> ms == []
    ensures runs != [] ==> runs[|runs| - 1] != [] && runs[|runs| - 1][|runs[|runs| - 1]| - 1] == ms[|ms| - 1]
  {
  }

  /** Whether the list ends with a line is what it was. */
  lemma {:induction false} JoinedLast(labels: Labels, ms: seq<Message>)
    ensures var j := Joined(labels, ms);
            (j == [] <==> ms == []) && (j != [] ==> IsLine(j[|j| - 1]) == IsLine(ms[|ms| - 1]))
  {
    if ms == [] {
      JoinedNone(labels);
    } else {
      hide Joined, IsLine;
      var front, m := ms[..|ms| - 1], ms[|ms| - 1];
      assert ms == front + [m];
      JoinedLast(labels, front);
      JoinedNext(labels, front, m);
      var j := Joined(labels, front);
      if j != [] && IsLine(j[|j| - 1]) && IsLine(m) {
        JoinTwoIsLine(labels, j[|j| - 1], m);
      }
    }
  }

  lemma JoinTwoIsLine(labels: Labels, a: Message, b: Message)
    requires IsLine(a) && IsLine(b)
    ensures IsLine(JoinTwo(labels, a, b))
  {
  }

  lemma NothingStands(labels: Labels)
    ensures Stand(labels, Joined(labels, []), Runs([])) && IsCut(Runs([]), [])
  {
  }

  /** The result has exactly one message for each run, in order, and it has exactly the run's text. */
  lemma {:induction false} OnePerRun(labels: Labels, ms: seq<Message>)
    ensures Stand(labels, Joined(labels, ms), Runs(ms)) && IsCut(Runs(ms), ms)
  {
    hide *;
    RunsCut(ms);
    if ms == [] {
      NothingStands(labels);
    } else {
      var front, m := ms[..|ms| - 1], ms[|ms| - 1];
      assert ms == front + [m];
      OnePerRun(labels, front);
      RunsNext(front, m);
      JoinedNext(labels, front, m);
      JoinedLast(labels, front);
      LastOfRuns(Runs(front), front);
      StandsNext(labels, Joined(labels, front), Runs(front), m);
    }
  }

  lemma OneLine(labels: Labels, m: Message)
    requires IsLine(m)
    ensures RunSays(labels, [m], m.content.text) && m.(content := Text(m.content.text)) == m
  {
  }

  ghost predicate Apart(ms: seq<Message>) {
    forall k | 0 < k < |ms| :: !(IsLine(ms[k - 1]) && IsLine(ms[k]))
  }

  /** No two lines follow each other in the result. */
  lemma {:induction false} NoBackToBack(labels: Labels, ms: seq<Message>)
    ensures Apart(Joined(labels, ms))
  {
    if ms != [] {
      NoBackToBack(labels, ms[..|ms| - 1]);
    }
  }

  /** Exactly the lists without back-to-back lines are left alone; so joining twice is joining once. */
  lemma {:induction false} ApartIsKept(labels: Labels, ms: seq<Message>)
    ensures Joined(labels, ms) == ms <==> Apart(ms)
  {
    NoBackToBack(labels, ms);
    if Apart(ms) {
      KeptWhenApart(labels, ms);
    }
  }

  lemma {:induction false} KeptWhenApart(labels: Labels, ms: seq<Message>)
    requires Apart(ms)
    ensures Joined(labels, ms) == ms
  {
    if ms != [] {
      KeptWhenApart(labels, ms[..|ms| - 1]);
      assert ms == ms[..|ms| - 1] + [ms[|ms| - 1]];
    }
  }

  lemma {:induction false} JoinTwice(labels: Labels, ms: seq<Message>)
    ensures Joined(labels, Joined(labels, ms)) == Joined(labels, ms)
  {
    NoBackToBack(labels, ms);
    ApartIsKept(labels, Joined(labels, ms));
  }
}
