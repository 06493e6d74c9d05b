/** The string operations the modelled code relies on: `str.strip`, `str.lstrip`,
    `str.startswith` and `str.find`. */
module Text {
  import opened Wrappers

  /** `str.isspace` on one character; `str.strip` and the regular-expression class `\s` use the same set. */
  predicate IsSpace(c: char) {
    || '\t' <= c <= '\r'
    || '\U{1c}' <= c <= ' '
    || c == '\U{85}' || c == '\U{a0}' || c == '\U{1680}'
    || '\U{2000}' <= c <= '\U{200a}'
    || c == '\U{2028}' || c == '\U{2029}' || c == '\U{202f}' || c == '\U{205f}' || c == '\U{3000}'
  }

  predicate AllSpace(s: string) {
    forall i | 0 <= i < |s| :: IsSpace(s[i])
  }

  /** `s.lstrip()`: the suffix of `s` that starts at its first non-space character. */
  function LStrip(s: string): string {
    if s == [] || !IsSpace(s[0]) then s else LStrip(s[1..])
  }

  /** `r` is `s` without the white space at its start. */
  ghost predicate LStripsTo(s: string, r: string) {
    |r| <= |s| && s == s[..|s| - |r|] + r && AllSpace(s[..|s| - |r|]) && (r == [] || !IsSpace(r[0]))
  }

  lemma LStripsOneMore(first: char, rest: string, r: string)
    requires LStripsTo(rest, r) && IsSpace(first)
    ensures LStripsTo([first] + rest, r)
  {
    hide IsSpace, AllSpace;
    SpaceJoin(rest[..|rest| - |r|], [first]);
    assert ([first] + rest)[..|rest| + 1 - |r|] == [first] + rest[..|rest| - |r|];
  }

  lemma LStripsNothing(s: string)
    requires s == [] || !IsSpace(s[0])
    ensures LStripsTo(s, s)
  {
    hide IsSpace;
  }

  lemma LStripIs(s: string)
    requires s != []
    ensures LStrip(s) == if IsSpace(s[0]) then LStrip(s[1..]) else s
  {
    hide IsSpace;
  }

  lemma {:induction false} LStripSplits(s: string)
    ensures LStripsTo(s, LStrip(s))
  {
    if s == [] {
      LStripsNothing(s);
    } else {
      hide *;
      LStripIs(s);
      if IsSpace(s[0]) {
        LStripSplits(s[1..]);
        LStripsOneMore(s[0], s[1..], LStrip(s[1..]));
        assert s == [s[0]] + s[1..];
      } else {
        LStripsNothing(s);
      }
    }
  }

  /** `s.rstrip()`. */
  function RStrip(s: string): string {
    if s == [] || !IsSpace(s[|s| - 1]) then s else RStrip(s[..|s| - 1])
  }

  function Strip(s: string): string {
    RStrip(LStrip(s))
  }

  lemma SpaceJoin(a: string, b: string)
    requires AllSpace(a) && forall k | 0 <= k < |b| :: IsSpace(b[k])
    ensures AllSpace(a + b) && AllSpace(b + a)
  {
    hide IsSpace;
  }

  /** `r` is `s` without the white space at its end. */
  ghost predicate StripsTo(s: string, r: string) {
    |r| <= |s| && s[..|r|] == r && AllSpace(s[|r|..]) && (r == [] || !IsSpace(r[|r| - 1]))
  }

  lemma StripsOneMore(front: string, last: char, r: string)
    requires StripsTo(front, r) && IsSpace(last)
    ensures StripsTo(front + [last], r)
  {
    hide IsSpace, AllSpace;
    SpaceJoin(front[|r|..], [last]);
    assert (front + [last])[|r|..] == front[|r|..] + [last];
  }

  lemma StripsNothing(s: string)
    requires s == [] || !IsSpace(s[|s| - 1])
    ensures StripsTo(s, s)
  {
    hide IsSpace;
  }

  lemma RStripIs(s: string)
    requires s != []
    ensures RStrip(s) == if IsSpace(s[|s| - 1]) then RStrip(s[..|s| - 1]) else s
  {
    hide IsSpace;
  }

  lemma {:induction false} RStripSplits(s: string)
    ensures StripsTo(s, RStrip(s))
  {
    if s == [] {
      StripsNothing(s);
    } else {
      hide *;
      RStripIs(s);
      var front, last := s[..|s| - 1], s[|s| - 1];
      if IsSpace(last) {
        RStripSplits(front);
        StripsOneMore(front, last, RStrip(front));
        assert s == front + [last];
      } else {
        StripsNothing(s);
      }
    }
  }

  /** `r` is what is left of `s` when the white space at both ends is gone. */
  ghost predicate Trims(s: string, r: string) {
    && (exists a, b :: AllSpace(a) && AllSpace(b) && s == a + r + b)
    && (r == [] || (!IsSpace(r[0]) && !IsSpace(r[|r| - 1])))
  }

  lemma StripTrims(s: string)
    ensures Trims(s, Strip(s))
  {
    hide IsSpace, LStrip, RStrip;
    LStripSplits(s);
    var l := LStrip(s);
    RStripSplits(l);
    var r := RStrip(l);
    var a, b := s[..|s| - |l|], l[|r|..];
    assert l == r + b;
    assert AllSpace(a) && AllSpace(b) && s == a + r + b;
    assert r != [] ==> r[0] == l[0];
  }

  /** There is only one such text, so stripping takes off exactly the white space at both ends. */
  lemma StripExactly(s: string, r: string)
    ensures Trims(s, r) <==> r == Strip(s)
  {
    hide IsSpace, Strip;
    StripTrims(s);
    if Trims(s, r) {
      TrimsOnce(s, r, Strip(s));
    }
  }

  lemma TrimsOnce(s: string, r: string, t: string)
    requires Trims(s, r) && Trims(s, t)
    ensures r == t
  {
    hide IsSpace;
    var a, b :| AllSpace(a) && AllSpace(b) && s == a + r + b;
    var c, d :| AllSpace(c) && AllSpace(d) && s == c + t + d;
    if r == [] {
      NoneLeft(s, a, b, c, t, d);
    } else if t == [] {
      NoneLeft(s, c, d, a, r, b);
    } else {
      NotLonger(s, a, r, b, c, t, d);
      NotLonger(s, c, t, d, a, r, b);
      assert r == s[|a|..|s| - |b|] && t == s[|c|..|s| - |d|];
    }
  }

  lemma CharAt(a: string, r: string, b: string, i: nat)
    requires i < |a + r + b|
    ensures (a + r + b)[i] == if i < |a| then a[i] else if i < |a + r| then r[i - |a|] else b[i - |a + r|]
  {
  }

  lemma NoneLeft(s: string, a: string, b: string, c: string, t: string, d: string)
    requires s == a + b == c + t + d && AllSpace(a) && AllSpace(b) && (t == [] || !IsSpace(t[0]))
    ensures t == []
  {
    hide IsSpace;
    assert AllSpace(s);
    if |c| < |s| {
      CharAt(c, t, d, |c|);
    }
  }

  lemma NotLonger(s: string, a: string, r: string, b: string, c: string, t: string, d: string)
    requires s == a + r + b == c + t + d && AllSpace(a) && AllSpace(b)
    requires t != [] && !IsSpace(t[0]) && !IsSpace(t[|t| - 1])
    ensures |a| <= |c| && |b| <= |d|
  {
    hide IsSpace;
    CharAt(c, t, d, |c|);
    CharAt(c, t, d, |s| - |d| - 1);
    CharAt(a, r, b, |c|);
    CharAt(a, r, b, |s| - |d| - 1);
  }

  /** Leading white space does not count. */
  lemma {:induction false} LStripSkips(ws: string, s: string)
    requires AllSpace(ws)
    ensures LStrip(ws + s) == LStrip(s)
  {
    if ws == [] {
      assert ws + s == s;
    } else {
      assert (ws + s)[1..] == ws[1..] + s;
      LStripSkips(ws[1..], s);
    }
  }

  /** Stripping what has been read before more arrives changes nothing. */
  lemma LStripAppend(s: string, t: string)
    ensures LStrip(s + t) == LStrip(LStrip(s) + t)
  {
    LStripSplits(s);
    var k := |s| - |LStrip(s)|;
    assert s + t == s[..k] + (LStrip(s) + t);
    LStripSkips(s[..k], LStrip(s) + t);
  }

  /** Once a non-space character has been read, more text only extends what `LStrip` returns. */
  lemma LStripExtend(s: string, t: string)
    requires LStrip(s) != []
    ensures LStrip(s + t) == LStrip(s) + t
  {
    LStripAppend(s, t);
    LStripSplits(s);
  }

  predicate OccursAt(s: string, tag: string, i: nat) {
    i + |tag| <= |s| && s[i..i + |tag|] == tag
  }

  /** No copy of `tag` starts in the first `n` characters. */
  ghost predicate NoneStartsBefore(s: string, tag: string, n: nat) {
    forall j | 0 <= j < n :: !OccursAt(s, tag, j)
  }

  /** `s.find(tag)`: where `tag` first occurs in `s`, if it does. */
  function Find(s: string, tag: string): (r: Option<nat>)
    ensures r.Some? ==> r.value + |tag| <= |s|
  {
    FindFrom(s, tag, 0)
  }

  function FindFrom(s: string, tag: string, from: nat): (r: Option<nat>)
    ensures r.Some? ==> r.value + |tag| <= |s|
    decreases |s| - from
  {
    if OccursAt(s, tag, from) then Some(from)
    else if from + |tag| >= |s| then None
    else FindFrom(s, tag, from + 1)
  }

  lemma {:induction false} FindFromIsFirst(s: string, tag: string, from: nat)
    requires NoneStartsBefore(s, tag, from)
    ensures match FindFrom(s, tag, from)
            case Some(i) => OccursAt(s, tag, i) && NoneStartsBefore(s, tag, i)
            case None => NoneStartsBefore(s, tag, |s| + 1)
    decreases |s| - from
  {
    if !OccursAt(s, tag, from) && from + |tag| < |s| {
      FindFromIsFirst(s, tag, from + 1);
    }
  }

  /** `Find` returns the first occurrence, and nothing only when there is none. */
  lemma FindIsFirst(s: string, tag: string)
    ensures match Find(s, tag)
            case Some(i) => OccursAt(s, tag, i) && NoneStartsBefore(s, tag, i)
            case None => NoneStartsBefore(s, tag, |s| + 1)
  {
    FindFromIsFirst(s, tag, 0);
  }

  /** The first occurrence is unique, so any search that finds it agrees with `Find`. */
  lemma FindUnique(s: string, tag: string, i: nat)
    requires OccursAt(s, tag, i) && NoneStartsBefore(s, tag, i)
    ensures Find(s, tag) == Some(i)
  {
    FindIsFirst(s, tag);
  }

  lemma FindAbsent(s: string, tag: string)
    requires NoneStartsBefore(s, tag, |s| + 1)
    ensures Find(s, tag) == None
  {
    FindIsFirst(s, tag);
  }

  /** Reading more never moves an occurrence that is already complete. */
  lemma OccursInPrefix(s: string, t: string, tag: string, i: nat)
    requires i + |tag| <= |s|
    ensures OccursAt(s + t, tag, i) <==> OccursAt(s, tag, i)
  {
    assert (s + t)[i..i + |tag|] == s[i..i + |tag|];
  }

  /** Text that is dropped from the front shifts the occurrences. */
  lemma OccursInSuffix(s: string, k: nat, tag: string, i: nat)
    requires k <= |s|
    ensures OccursAt(s[k..], tag, i) <==> OccursAt(s, tag, k + i)
  {
    if k + i + |tag| <= |s| {
      assert s[k..][i..i + |tag|] == s[k + i..k + i + |tag|];
    }
  }
}
