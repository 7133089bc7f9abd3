/** FencedJSONBlocks: the bodies of Markdown code fences whose info string is empty or `json`. */
module Fences {
  import opened Strings

  const MARKER := "```"

  predicate HasPrefix(s: string, p: string) { |p| <= |s| && s[..|p|] == p }

  function Lower(c: char): char {
    if 'A' <= c <= 'Z' then (c as int - 'A' as int + 'a' as int) as char else c
  }

  function ToLower(s: string): string {
    if s == [] then [] else [Lower(s[0])] + ToLower(s[1..])
  }

  /** A line that opens or closes a fence. */
  predicate IsFence(line: string) { HasPrefix(TrimSpace(line), MARKER) }

  /** The lower-cased info string of a fence line. */
  function Info(line: string): string
    requires IsFence(line)
  {
    ToLower(TrimSpace(TrimSpace(line)[3..]))
  }

  predicate JsonInfo(line: string)
    requires IsFence(line)
  {
    Info(line) == "" || Info(line) == "json"
  }

  /** The numbers of the fence lines from `i` on. */
  function Marks(lines: seq<string>, i: nat): (marks: seq<nat>)
    ensures forall k | 0 <= k < |marks| :: i <= marks[k] < |lines| && IsFence(lines[marks[k]])
    decreases |lines| - i
  {
    if i >= |lines| then []
    else (if IsFence(lines[i]) then [i] else []) + Marks(lines, i + 1)
  }

  /** Marks lists every fence line, once, in order. */
  lemma {:induction false} MarksExact(lines: seq<string>, i: nat)
    ensures forall j, k | 0 <= j < k < |Marks(lines, i)| :: Marks(lines, i)[j] < Marks(lines, i)[k]
    ensures forall n: nat | i <= n < |lines| :: n in Marks(lines, i) <==> IsFence(lines[n])
    decreases |lines| - i
  {
    hide IsFence;
    if i < |lines| { MarksExact(lines, i + 1); }
  }

  function Body(lines: seq<string>, open: nat, close: nat): string
    requires open < close <= |lines|
  {
    TrimSpace(Join(lines[open + 1..close], '\n'))
  }

  /** The block of the fence between two lines, if it is a json fence. */
  function Block(lines: seq<string>, open: nat, close: nat): seq<string>
    requires open < close <= |lines| && IsFence(lines[open])
  {
    if JsonInfo(lines[open]) then [Body(lines, open, close)] else []
  }

  /** Pairing the marks off: the first opens, the second closes (or the text ends), and so on. */
  function Paired(lines: seq<string>, marks: seq<nat>): seq<string>
    requires forall k | 0 <= k < |marks| :: marks[k] < |lines| && IsFence(lines[marks[k]])
    requires forall j, k | 0 <= j < k < |marks| :: marks[j] < marks[k]
    decreases |marks|
  {
    hide *;
    if marks == [] then []
    else
      Block(lines, marks[0], if |marks| > 1 then marks[1] else |lines|)
      + Paired(lines, if |marks| > 1 then marks[2..] else [])
  }

  /** The fenced blocks of `lines` from line `i` on. */
  function FencedFrom(lines: seq<string>, i: nat): seq<string> {
    MarksExact(lines, i);
    Paired(lines, Marks(lines, i))
  }

  function Fenced(s: string): seq<string> { FencedFrom(Split(s, '\n'), 0) }

  lemma {:induction false} NoMarks(lines: seq<string>, i: nat, j: nat)
    requires i <= j <= |lines| && forall k | i <= k < j :: !IsFence(lines[k])
    ensures Marks(lines, i) == Marks(lines, j)
    decreases j - i
  {
    hide IsFence;
    if i < j { NoMarks(lines, i + 1, j); }
  }

  /** One fence: lines `open` and `close` (or the end) are neighbours among the marks. */
  lemma OneFence(lines: seq<string>, open: nat, close: nat)
    requires open < close <= |lines| && IsFence(lines[open])
    requires forall k | open < k < close :: !IsFence(lines[k])
    requires close < |lines| ==> IsFence(lines[close])
    ensures FencedFrom(lines, open)
         == (if JsonInfo(lines[open]) then [Body(lines, open, close)] else []) + FencedFrom(lines, close + 1)
  {
    hide IsFence;
    hide JsonInfo;
    hide Body;
    NeighbourMarks(lines, open, close);
    hide Marks;
    MarksExact(lines, open);
    MarksExact(lines, close + 1);
  }

  lemma NeighbourMarks(lines: seq<string>, open: nat, close: nat)
    requires open < close <= |lines| && IsFence(lines[open])
    requires forall k | open < k < close :: !IsFence(lines[k])
    requires close < |lines| ==> IsFence(lines[close])
    ensures var marks, later := Marks(lines, open), Marks(lines, close + 1);
      && (close < |lines| ==> |marks| > 1 && marks[0] == open && marks[1] == close && marks[2..] == later)
      && (close == |lines| ==> marks == [open] && later == [])
  {
    hide IsFence;
    hide Marks;
    NoMarks(lines, open + 1, close);
    MarkFence(lines, open);
    if close < |lines| {
      MarkFence(lines, close);
    } else {
      MarksEnd(lines, close);
      MarksEnd(lines, close + 1);
    }
  }

  lemma MarkFence(lines: seq<string>, i: nat)
    requires i < |lines| && IsFence(lines[i])
    ensures Marks(lines, i) == [i] + Marks(lines, i + 1)
  {
    hide IsFence;
  }

  lemma MarksEnd(lines: seq<string>, i: nat)
    requires i >= |lines|
    ensures Marks(lines, i) == []
  {
  }

  /** Text with one fence, closed or running to the end: its trimmed body is the one block if the fence is
      a json fence, and there is none otherwise. */
  lemma SingleFence(lines: seq<string>, open: nat, close: nat)
    requires open < close <= |lines| && IsFence(lines[open]) && (close < |lines| ==> IsFence(lines[close]))
    requires forall i | 0 <= i < |lines| && i != open && i != close :: !IsFence(lines[i])
    ensures FencedFrom(lines, 0) ==
      if JsonInfo(lines[open]) then [TrimSpace(Join(lines[open + 1..close], '\n'))] else []
  {
    hide IsFence;
    hide JsonInfo;
    NoMarks(lines, 0, open);
    OneFence(lines, open, close);
    if close < |lines| { NoMarks(lines, close + 1, |lines|); }
    MarksEnd(lines, if close < |lines| then |lines| else close + 1);
    hide Marks;
    hide Join;
    hide TrimSpace;
  }

  /** A fence line is one that starts, after white space, with three backticks; it is a json fence if
      what follows, but for space around it, is nothing or `json` in any case. */
  lemma FenceLineIff(line: string)
    ensures var t := TrimSpace(line);
      && (IsFence(line) <==> |t| >= 3 && t[0] == t[1] == t[2] == '`')
      && (IsFence(line) ==>
            var info := TrimSpace(t[3..]);
            JsonInfo(line) <==> info == "" || AnyCaseJson(info))
  {
    hide TrimSpace;
    var t := TrimSpace(line);
    assert |t| >= 3 ==> t[..3] == [t[0], t[1], t[2]];
    if IsFence(line) { LowerJson(TrimSpace(t[3..])); }
  }

  predicate AnyCaseJson(s: string) {
    |s| == 4 && s[0] in "jJ" && s[1] in "sS" && s[2] in "oO" && s[3] in "nN"
  }

  lemma LowerJson(s: string)
    ensures ToLower(s) == "json" <==> AnyCaseJson(s)
    ensures ToLower(s) == "" <==> s == ""
  {
    LowerEach(s);
    assert ToLower(s) == "json" <==> |s| == 4 && Lower(s[0]) == 'j' && Lower(s[1]) == 's' && Lower(s[2]) == 'o' && Lower(s[3]) == 'n';
  }

  lemma {:induction false} LowerEach(s: string)
    ensures |ToLower(s)| == |s| && forall i | 0 <= i < |s| :: ToLower(s)[i] == Lower(s[i])
  {
    if s != [] { LowerEach(s[1..]); }
  }

  lemma PlainLine(lines: seq<string>, i: nat)
    requires i < |lines| && !IsFence(lines[i])
    ensures FencedFrom(lines, i) == FencedFrom(lines, i + 1)
  {
    hide IsFence;
    assert Marks(lines, i) == Marks(lines, i + 1);
  }

  lemma PastTheEnd(lines: seq<string>, i: nat)
    requires i >= |lines|
    ensures FencedFrom(lines, i) == []
  {
  }

  /** FencedJSONBlocks pairs the fence lines off by parity. */
  method FencedJSONBlocks(s: string) returns (out: seq<string>)
    ensures out == Fenced(s)
  {
    hide IsFence;
    hide FencedFrom;
    hide TrimSpace;
    hide Join;
    hide Split;
    out := [];
    var lines := Split(s, '\n');
    var i := 0;
    while i < |lines|
      invariant 0 <= i <= |lines| + 1
      invariant out + FencedFrom(lines, i) == FencedFrom(lines, 0)
    {
      if !IsFence(lines[i]) {
        PlainLine(lines, i);
        i := i + 1;
        continue;
      }
      var lang := Info(lines[i]);
      ghost var open := i;
      var buf: seq<string> := [];
      i := i + 1;
      while i < |lines| && !IsFence(lines[i])
        invariant open < i <= |lines|
        invariant buf == lines[open + 1..i]
        invariant forall k | open < k < i :: !IsFence(lines[k])
      {
        assert lines[open + 1..i + 1] == lines[open + 1..i] + [lines[i]];
        buf := buf + [lines[i]];
        i := i + 1;
      }
      OneFence(lines, open, i);
      AppendBlock(out, [Body(lines, open, i)], FencedFrom(lines, i + 1));
      if lang == "" || lang == "json" {
        out := out + [TrimSpace(Join(buf, '\n'))];
      }
      i := i + 1;
    }
    PastTheEnd(lines, i);
  }

  lemma AppendBlock(out: seq<string>, block: seq<string>, rest: seq<string>)
    ensures out + (block + rest) == (out + block) + rest && out + ([] + rest) == out + rest
  {
  }

  // ---- fence-free text -----------------------------------------------------------------------

  ghost predicate NoFence(s: string) {
    forall i | 0 <= i < |Split(s, '\n')| :: !IsFence(Split(s, '\n')[i])
  }

  lemma NoFenceNoBlocks(s: string)
    requires NoFence(s)
    ensures Fenced(s) == []
  {
    NoMarks(Split(s, '\n'), 0, |Split(s, '\n')|);
  }

  /** Reading a text for a fence: at the margin, after one or two backticks there, past them, or
      a fence has been seen. */
  datatype At = Margin | One | Two | Inner | Seen

  function FenceStep(a: At, c: char): At {
    if a == Seen then Seen
    else if c == '\n' then Margin
    else match a
      case Margin => if c == '`' then One else if IsSpace(c) then Margin else Inner
      case One => if c == '`' then Two else Inner
      case Two => if c == '`' then Seen else Inner
      case _ => Inner
  }

  function FenceRun(a: At, s: string): At
    decreases |s|
  {
    if s == [] then a else FenceRun(FenceStep(a, s[0]), s[1..])
  }

  lemma {:induction false} SeenStays(s: string)
    ensures FenceRun(Seen, s) == Seen
  {
    if s != [] { SeenStays(s[1..]); }
  }

  lemma {:induction false} FenceRunConcat(a: At, s: string, t: string)
    ensures FenceRun(a, s + t) == FenceRun(FenceRun(a, s), t)
    decreases |s|
  {
    if s != [] {
      assert (s + t)[1..] == s[1..] + t;
      FenceRunConcat(FenceStep(a, s[0]), s[1..], t);
    } else {
      assert s + t == t;
    }
  }

  lemma {:induction false} InnerStays(line: string)
    requires '\n' !in line
    ensures FenceRun(Inner, line) == Inner
    decreases |line|
  {
    if line != [] {
      assert line[0] in line;
      InnerStays(line[1..]);
    }
  }

  /** On one line, the automaton and the test on the trimmed line agree. */
  lemma {:induction false} FenceLine(line: string)
    requires '\n' !in line
    ensures FenceRun(Margin, line) == Seen <==> IsFence(line)
    decreases |line|
  {
    if line != [] && IsSpace(line[0]) {
      assert line[0] in line;
      FenceLine(line[1..]);
      TrimSkipsSpace(line);
    } else {
      FenceAtStart(line);
    }
  }

  lemma TrimSkipsSpace(line: string)
    requires line != [] && IsSpace(line[0])
    ensures TrimSpace(line) == TrimSpace(line[1..])
  {
    LastOfTail(line);
    var t := line[1..];
    var a, b := Lead(t), Last(t);
    assert Lead(line) == a + 1;
    hide *;
    if b > 0 && a <= b {
      assert line[a + 1..b + 1] == t[a..b];
    }
  }

  lemma {:induction false} LastOfTail(line: string)
    requires line != []
    ensures Last(line) == if Last(line[1..]) > 0 then Last(line[1..]) + 1 else if IsSpace(line[0]) then 0 else 1
    decreases |line|
  {
    var n := |line|;
    if IsSpace(line[n - 1]) && n > 1 {
      assert line[1..][..n - 2] == line[..n - 1][1..];
      LastOfTail(line[..n - 1]);
    }
  }

  lemma FenceAtStart(line: string)
    requires '\n' !in line && (line != [] ==> !IsSpace(line[0]))
    ensures FenceRun(Margin, line) == Seen <==> IsFence(line)
  {
    PrefixSurvivesTrim(line);
    hide TrimSpace;
    hide IsSpace;
    var n := if |line| < 3 then |line| else 3;
    assert line == line[..n] + line[n..];
    FenceRunConcat(Margin, line[..n], line[n..]);
    if line[..n] == MARKER {
      assert FenceRun(Margin, MARKER) == Seen;
      SeenStays(line[n..]);
    } else {
      ShortRun(line[..n]);
      InnerStays(line[n..]);
    }
  }

  lemma PrefixSurvivesTrim(line: string)
    requires line != [] ==> !IsSpace(line[0])
    ensures HasPrefix(TrimSpace(line), MARKER) <==> HasPrefix(line, MARKER)
  {
    assert Lead(line) == 0 && TrimSpace(line) == line[..Last(line)];
    if HasPrefix(line, MARKER) {
      assert line[2] == line[..3][2] == '`';
      assert !IsSpace(line[2]) && Last(line) >= 3;
      assert line[..Last(line)][..3] == line[..3];
    }
  }

  /** Up to three characters that are not the marker open no fence. */
  lemma ShortRun(t: string)
    requires |t| <= 3 && t != MARKER && '\n' !in t && (t != [] ==> !IsSpace(t[0]))
    ensures FenceRun(Margin, t) != Seen
    ensures |t| == 3 ==> FenceRun(Margin, t) == Inner
  {
    if t != [] && t[0] != '`' {
      assert FenceStep(Margin, t[0]) == Inner;
      InnerStays(t[1..]);
    } else if |t| > 1 && t[1] != '`' {
      assert FenceRun(Margin, t) == FenceRun(One, t[1..]) == FenceRun(Inner, t[1..][1..]);
      InnerStays(t[1..][1..]);
    } else if |t| == 3 {
      assert t == [t[0], t[1], t[2]];
      assert FenceRun(Margin, t) == FenceRun(One, t[1..]) == FenceRun(Two, t[1..][1..]);
      assert t[1..][1..] == [t[2]] && [t[2]][1..] == [];
      assert t[2] != '`' && FenceRun(Two, [t[2]]) == FenceRun(Inner, []);
      assert FenceRun(Margin, t) == FenceRun(Inner, []);
    } else if |t| == 2 {
      assert FenceRun(Margin, t) == FenceRun(One, t[1..]) == FenceRun(Two, t[1..][1..]);
      assert t[1..][1..] == [];
    }
  }

  lemma {:induction false} FenceRunLines(a: At, s: string)
    requires a != Seen
    ensures FenceRun(a, s) == Seen <==>
            || FenceRun(a, Split(s, '\n')[0]) == Seen
            || exists i :: 1 <= i < |Split(s, '\n')| && FenceRun(Margin, Split(s, '\n')[i]) == Seen
    decreases |s|
  {
    if s != [] {
      var b := FenceStep(a, s[0]);
      var rest := Split(s[1..], '\n');
      var parts := Split(s, '\n');
      if s[0] == '\n' {
        FenceRunLines(Margin, s[1..]);
        assert parts[0] == [] && forall i | 1 <= i < |parts| :: parts[i] == rest[i - 1];
        if FenceRun(Margin, rest[0]) == Seen { assert FenceRun(Margin, parts[1]) == Seen; }
        if i :| 1 <= i < |rest| && FenceRun(Margin, rest[i]) == Seen { assert FenceRun(Margin, parts[i + 1]) == Seen; }
      } else {
        assert parts[0][1..] == rest[0] && forall i | 1 <= i < |parts| :: parts[i] == rest[i];
        if b == Seen {
          SeenStays(s[1..]);
          SeenStays(rest[0]);
        } else {
          FenceRunLines(b, s[1..]);
        }
      }
    }
  }

  /** A text is fence-free exactly when the automaton sees no fence in it. */
  lemma NoFenceIsRun(s: string)
    ensures NoFence(s) <==> FenceRun(Margin, s) != Seen
  {
    var parts := Split(s, '\n');
    FenceRunLines(Margin, s);
    forall i | 0 <= i < |parts| ensures FenceRun(Margin, parts[i]) == Seen <==> IsFence(parts[i]) {
      assert parts[i] in parts;
      FenceLine(parts[i]);
    }
  }
}
