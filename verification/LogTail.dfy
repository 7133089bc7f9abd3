/** Following an append-only log: complete lines are printed once, whatever the polls. Characters
    stand for bytes. */
module LogTail {
  import opened Strings

  const NEWLINE := '\n'

  /** What one poll finds: no readable file, or its contents with `n` bytes read from the offset on. */
  datatype Poll = Unreadable | Contents(file: string, n: nat)

  /** Where the last newline of `s` ends; 0 if there is none. */
  function LastLineEnd(s: string): (k: nat)
    ensures k <= |s|
    ensures k > 0 ==> s[k - 1] == NEWLINE
    ensures forall i | k <= i < |s| :: s[i] != NEWLINE
  {
    if s == [] then 0 else if s[|s| - 1] == NEWLINE then |s| else LastLineEnd(s[..|s| - 1])
  }

  /** strings.TrimRight(s, "\n"). */
  function DropNewlines(s: string): (r: string)
    ensures r <= s
    ensures r != [] ==> r[|r| - 1] != NEWLINE
    ensures forall i | |r| <= i < |s| :: s[i] == NEWLINE
  {
    if s != [] && s[|s| - 1] == NEWLINE then DropNewlines(s[..|s| - 1]) else s
  }

  // ---- one poll ------------------------------------------------------------------------------

  /** The bytes a poll gets from `offset` on. */
  function Fetched(p: Poll, offset: nat): string {
    if p.Unreadable? || |p.file| <= offset then []
    else p.file[offset..if offset + p.n < |p.file| then offset + p.n else |p.file|]
  }

  /** The complete lines among `fetched`, as one block. */
  function Chunk(fetched: string): string { fetched[..LastLineEnd(fetched)] }

  function Printed(fetched: string): seq<string> {
    if Chunk(fetched) == [] then [] else Split(DropNewlines(Chunk(fetched)), NEWLINE)
  }

  function Prefixed(prefix: string, lines: seq<string>): (r: seq<string>)
    ensures |r| == |lines| && forall i | 0 <= i < |r| :: r[i] == prefix + lines[i]
  {
    if lines == [] then [] else Prefixed(prefix, lines[..|lines| - 1]) + [prefix + lines[|lines| - 1]]
  }

  /** printNewContent. */
  method PrintNewContent(p: Poll, offset: nat, prefix: string) returns (next: nat, out: seq<string>)
    ensures next == offset + |Chunk(Fetched(p, offset))|
    ensures out == Prefixed(prefix, Printed(Fetched(p, offset)))
  {
    out := [];
    if p.Unreadable? || |p.file| <= offset {
      return offset, out;
    }
    var buf := p.file[offset..];
    buf := buf[..if p.n < |buf| then p.n else |buf|];
    assert buf == Fetched(p, offset);
    if buf == [] {
      return offset, out;
    }
    var end := LastLineEnd(buf);
    if end == 0 {
      return offset, out;
    }
    var lines := Split(DropNewlines(buf[..end]), NEWLINE);
    for i := 0 to |lines|
      invariant out == Prefixed(prefix, lines[..i])
    {
      assert lines[..i + 1][..i] == lines[..i];
      out := out + [prefix + lines[i]];
    }
    assert lines[..|lines|] == lines;
    next := offset + end;
  }

  /** The inbox is read to its end, and its text printed once trimmed. */
  method PrintNewInbox(p: Poll, offset: nat) returns (next: nat, out: seq<string>)
    ensures next == offset + |Fetched(p, offset)|
    ensures out == Nudge(Fetched(p, offset))
  {
    if p.Unreadable? || |p.file| <= offset {
      return offset, [];
    }
    var buf := p.file[offset..];
    buf := buf[..if p.n < |buf| then p.n else |buf|];
    assert buf == Fetched(p, offset);
    next := offset + |buf|;
    var text := TrimSpace(buf);
    if text == [] {
      return next, [];
    }
    out := [[], ">>> INBOX NUDGE <<<", text, ">>> END NUDGE <<<", []];
  }

  function Nudge(fetched: string): seq<string> {
    var text := TrimSpace(fetched);
    if text == [] then [] else [[], ">>> INBOX NUDGE <<<", text, ">>> END NUDGE <<<", []]
  }

  // ---- many polls ----------------------------------------------------------------------------

  /** The complete lines of a text; an unfinished last one is left out. */
  function Lines(s: string): seq<string> { Split(s, NEWLINE)[..|Split(s, NEWLINE)| - 1] }

  /** The offset after all of `polls`. */
  function Offset(start: nat, polls: seq<Poll>): nat {
    if polls == [] then start
    else
      var before := Offset(start, polls[..|polls| - 1]);
      before + |Chunk(Fetched(polls[|polls| - 1], before))|
  }

  /** Everything printed by `polls`, without prefixes. */
  function Output(start: nat, polls: seq<Poll>): seq<string> {
    if polls == [] then []
    else
      var before := polls[..|polls| - 1];
      Output(start, before) + Printed(Fetched(polls[|polls| - 1], Offset(start, before)))
  }

  function InboxOffset(start: nat, polls: seq<Poll>): nat {
    if polls == [] then start
    else
      var before := InboxOffset(start, polls[..|polls| - 1]);
      before + |Fetched(polls[|polls| - 1], before)|
  }

  /** One look at all three files. */
  datatype Tick = Tick(session: Poll, err: Poll, inbox: Poll)

  function Sessions(ticks: seq<Tick>): seq<Poll> { seq(|ticks|, i requires 0 <= i < |ticks| => ticks[i].session) }
  function Errors(ticks: seq<Tick>): seq<Poll> { seq(|ticks|, i requires 0 <= i < |ticks| => ticks[i].err) }
  function Inboxes(ticks: seq<Tick>): seq<Poll> { seq(|ticks|, i requires 0 <= i < |ticks| => ticks[i].inbox) }

  /** Everything printed, in order. */
  function Screen(session: nat, err: nat, inbox: nat, ticks: seq<Tick>): seq<string> {
    if ticks == [] then []
    else
      var n := |ticks| - 1;
      Screen(session, err, inbox, ticks[..n])
      + (Prefixed([], Printed(Fetched(ticks[n].session, Offset(session, Sessions(ticks[..n])))))
         + (Prefixed("[stderr] ", Printed(Fetched(ticks[n].err, Offset(err, Errors(ticks[..n])))))
            + Nudge(Fetched(ticks[n].inbox, InboxOffset(inbox, Inboxes(ticks[..n]))))))
  }

  /** tailFollow, for the ticks before its context ends. */
  method TailFollow(session: nat, err: nat, inbox: nat, ticks: seq<Tick>) returns (screen: seq<string>)
    ensures screen == Screen(session, err, inbox, ticks)
  {
    hide *;
    var sessionOff, stderrOff, inboxOff := session, err, inbox;
    screen := [];
    NoTicks(session, err, inbox, ticks[..0]);
    for i := 0 to |ticks|
      invariant sessionOff == Offset(session, Sessions(ticks[..i]))
      invariant stderrOff == Offset(err, Errors(ticks[..i]))
      invariant inboxOff == InboxOffset(inbox, Inboxes(ticks[..i]))
      invariant screen == Screen(session, err, inbox, ticks[..i])
    {
      var out: seq<string>, more: seq<string>, nudge: seq<string>;
      NextTick(session, err, inbox, ticks, i);
      sessionOff, out := PrintNewContent(ticks[i].session, sessionOff, []);
      stderrOff, more := PrintNewContent(ticks[i].err, stderrOff, "[stderr] ");
      inboxOff, nudge := PrintNewInbox(ticks[i].inbox, inboxOff);
      screen := screen + (out + (more + nudge));
    }
    assert ticks[..|ticks|] == ticks;
  }

  lemma NoTicks(session: nat, err: nat, inbox: nat, ticks: seq<Tick>)
    requires ticks == []
    ensures Offset(session, Sessions(ticks)) == session && Offset(err, Errors(ticks)) == err
    ensures InboxOffset(inbox, Inboxes(ticks)) == inbox && Screen(session, err, inbox, ticks) == []
  {
  }

  lemma NextTick(session: nat, err: nat, inbox: nat, ticks: seq<Tick>, i: nat)
    requires i < |ticks|
    ensures var now, was := ticks[..i + 1], ticks[..i];
      var s, e, b := Offset(session, Sessions(was)), Offset(err, Errors(was)), InboxOffset(inbox, Inboxes(was));
      && Offset(session, Sessions(now)) == s + |Chunk(Fetched(ticks[i].session, s))|
      && Offset(err, Errors(now)) == e + |Chunk(Fetched(ticks[i].err, e))|
      && InboxOffset(inbox, Inboxes(now)) == b + |Fetched(ticks[i].inbox, b)|
      && Screen(session, err, inbox, now) == Screen(session, err, inbox, was)
        + (Prefixed([], Printed(Fetched(ticks[i].session, s)))
           + (Prefixed("[stderr] ", Printed(Fetched(ticks[i].err, e))) + Nudge(Fetched(ticks[i].inbox, b))))
  {
    hide *;
    var now := ticks[..i + 1];
    assert now[..|now| - 1] == ticks[..i] && now[|now| - 1] == ticks[i];
    PollsOfTicks(ticks, i);
    OutputStep(session, Sessions(now));
    OutputStep(err, Errors(now));
    NudgeStep(inbox, Inboxes(now));
    ScreenStep(session, err, inbox, now);
  }

  lemma PollsOfTicks(ticks: seq<Tick>, i: nat)
    requires i < |ticks|
    ensures var s, e, b := Sessions(ticks[..i + 1]), Errors(ticks[..i + 1]), Inboxes(ticks[..i + 1]);
      && s != [] && s[..|s| - 1] == Sessions(ticks[..i]) && s[|s| - 1] == ticks[i].session
      && e != [] && e[..|e| - 1] == Errors(ticks[..i]) && e[|e| - 1] == ticks[i].err
      && b != [] && b[..|b| - 1] == Inboxes(ticks[..i]) && b[|b| - 1] == ticks[i].inbox
  {
  }

  lemma ScreenStep(session: nat, err: nat, inbox: nat, ticks: seq<Tick>)
    requires ticks != []
    ensures var n := |ticks| - 1;
      Screen(session, err, inbox, ticks) == Screen(session, err, inbox, ticks[..n])
      + (Prefixed([], Printed(Fetched(ticks[n].session, Offset(session, Sessions(ticks[..n])))))
         + (Prefixed("[stderr] ", Printed(Fetched(ticks[n].err, Offset(err, Errors(ticks[..n])))))
            + Nudge(Fetched(ticks[n].inbox, InboxOffset(inbox, Inboxes(ticks[..n]))))))
  {
    hide Fetched;
    hide Printed;
    hide Nudge;
    hide Prefixed;
    hide Offset;
    hide InboxOffset;
  }

  // ---- lines ---------------------------------------------------------------------------------

  predicate WholeLines(s: string) { s == [] || s[|s| - 1] == NEWLINE }

  /** Whole lines followed by more text. */
  lemma LinesAppend(a: string, b: string)
    requires WholeLines(a)
    ensures Lines(a + b) == Lines(a) + Lines(b)
  {
    if a == [] {
      assert a + b == b;
    } else {
      var c := a[..|a| - 1];
      assert a == c + [NEWLINE] + [] && a + b == c + [NEWLINE] + b;
      SplitAppend(c, b, NEWLINE);
      SplitAppend(c, [], NEWLINE);
    }
  }

  /** How many blank lines a poll leaves out. */
  function Skipped(c: string): nat { if c == [] then 0 else |c| - |DropNewlines(c)| - if WholeLines(c) then 1 else 0 }

  function Blanks(n: nat): seq<string> { if n == 0 then [] else Blanks(n - 1) + [[]] }

  /** What a poll leaves out: the blank lines at the end of what it got, but for one if there is
      nothing else. */
  lemma PrintedPlusBlanks(fetched: string)
    ensures Lines(Chunk(fetched)) == Printed(fetched) + Blanks(Skipped(Chunk(fetched)))
  {
    var c := Chunk(fetched);
    if c != [] {
      var d := c[..|c| - 1];
      assert c == d + [NEWLINE] + [];
      SplitAppend(d, [], NEWLINE);
      TrailingBlanks(d);
      assert c[..|c| - 1] == d;
    }
  }

  lemma {:induction false} TrailingBlanks(s: string)
    ensures Split(s, NEWLINE) == Split(DropNewlines(s), NEWLINE) + Blanks(|s| - |DropNewlines(s)|)
  {
    if s != [] && s[|s| - 1] == NEWLINE {
      var d := s[..|s| - 1];
      TrailingBlanks(d);
      assert s == d + [NEWLINE] + [];
      SplitAppend(d, [], NEWLINE);
    }
  }

  function NonEmpty(lines: seq<string>): seq<string> {
    if lines == [] then []
    else if lines[|lines| - 1] == [] then NonEmpty(lines[..|lines| - 1])
    else NonEmpty(lines[..|lines| - 1]) + [lines[|lines| - 1]]
  }

  lemma {:induction false} NonEmptyConcat(a: seq<string>, b: seq<string>)
    ensures NonEmpty(a + b) == NonEmpty(a) + NonEmpty(b)
    decreases |b|
  {
    if b == [] {
      assert a + b == a;
    } else {
      var n := |b| - 1;
      NonEmptyConcat(a, b[..n]);
      assert (a + b)[..|a + b| - 1] == a + b[..n];
    }
  }

  lemma {:induction false} BlanksEmpty(n: nat)
    ensures NonEmpty(Blanks(n)) == [] && |Blanks(n)| == n
  {
    if n > 0 {
      BlanksEmpty(n - 1);
      assert Blanks(n)[..n - 1] == Blanks(n - 1);
    }
  }

  // ---- all schedules -------------------------------------------------------------------------

  /** Every poll saw the beginning of `file`: it was only ever appended to. */
  ghost predicate Sees(polls: seq<Poll>, file: string) {
    forall i | 0 <= i < |polls| :: polls[i].Contents? ==> polls[i].file <= file
  }

  lemma FetchedIsSlice(p: Poll, offset: nat, file: string)
    requires p.Contents? ==> p.file <= file
    requires offset <= |file|
    ensures offset + |Fetched(p, offset)| <= |file|
    ensures Fetched(p, offset) == file[offset..offset + |Fetched(p, offset)|]
  {
  }

  /** The block a poll prints lies in the file right behind the offset. */
  lemma ChunkIsSlice(p: Poll, offset: nat, file: string)
    requires p.Contents? ==> p.file <= file
    requires offset <= |file|
    ensures var c := Chunk(Fetched(p, offset));
      offset + |c| <= |file| && c == file[offset..offset + |c|] && WholeLines(c)
  {
    FetchedIsSlice(p, offset, file);
    hide Fetched;
    var f := Fetched(p, offset);
    assert forall k | 0 <= k <= |f| :: f[..k] == file[offset..offset + |f|][..k];
  }

  /** The offset only grows, and once it has moved it sits right after a newline. */
  lemma {:induction false} OffsetsAdvance(start: nat, polls: seq<Poll>, file: string)
    requires Sees(polls, file) && start <= |file|
    ensures start <= Offset(start, polls) <= |file|
    ensures Offset(start, polls) > start ==> file[Offset(start, polls) - 1] == NEWLINE
    ensures WholeLines(file[start..Offset(start, polls)])
    decreases |polls|
  {
    hide *;
    if polls == [] {
      NothingYet(start, file);
      NoLinesWhole(file, start);
    } else {
      var n := |polls| - 1;
      var before := Offset(start, polls[..n]);
      SeesBefore(polls, file);
      OffsetsAdvance(start, polls[..n], file);
      ChunkIsSlice(polls[n], before, file);
      OutputStep(start, polls);
      MoreWholeLines(file, start, before, |Chunk(Fetched(polls[n], before))|);
    }
  }

  lemma NoLinesWhole(file: string, start: nat)
    requires start <= |file|
    ensures WholeLines(file[start..start])
  {
  }

  lemma MoreWholeLines(file: string, start: nat, mid: nat, k: nat)
    requires start <= mid && mid + k <= |file| && WholeLines(file[start..mid]) && WholeLines(file[mid..mid + k])
    ensures WholeLines(file[start..mid + k])
    ensures mid + k > start ==> file[mid + k - 1] == NEWLINE
  {
  }

  /** Whatever the polls, the non-empty lines printed are the non-empty complete lines of the file
      from the start to the offset reached: none split, repeated or lost. */
  lemma {:induction false} NonEmptyLinesOnce(start: nat, polls: seq<Poll>, file: string)
    requires Sees(polls, file) && start <= |file|
    ensures start <= Offset(start, polls) <= |file|
    ensures NonEmpty(Output(start, polls)) == NonEmpty(Lines(file[start..Offset(start, polls)]))
    decreases |polls|
  {
    hide *;
    OffsetsAdvance(start, polls, file);
    if polls != [] {
      var n := |polls| - 1;
      var before := Offset(start, polls[..n]);
      var fetched := Fetched(polls[n], before);
      SeesBefore(polls, file);
      NonEmptyLinesOnce(start, polls[..n], file);
      OffsetsAdvance(start, polls[..n], file);
      ChunkIsSlice(polls[n], before, file);
      OutputStep(start, polls);
      PollLines(file, start, before, fetched);
      NonEmptyConcat(Output(start, polls[..n]), Printed(fetched));
    } else {
      NothingYet(start, file);
    }
  }

  lemma SeesBefore(polls: seq<Poll>, file: string)
    requires Sees(polls, file) && polls != []
    ensures Sees(polls[..|polls| - 1], file)
    ensures polls[|polls| - 1].Contents? ==> polls[|polls| - 1].file <= file
  {
  }

  lemma NothingYet(start: nat, file: string)
    requires start <= |file|
    ensures Offset(start, []) == start && Output(start, []) == [] && Lines(file[start..start]) == []
    ensures EndsCleanly(start, [])
  {
  }

  lemma OutputStep(start: nat, polls: seq<Poll>)
    requires polls != []
    ensures var before := polls[..|polls| - 1];
      var fetched := Fetched(polls[|polls| - 1], Offset(start, before));
      && Offset(start, polls) == Offset(start, before) + |Chunk(fetched)|
      && Output(start, polls) == Output(start, before) + Printed(fetched)
  {
    hide Fetched;
    hide Chunk;
    hide Printed;
  }

  /** The lines up to the next offset, with those of one more poll. */
  lemma PollLines(file: string, start: nat, before: nat, fetched: string)
    requires start <= before && before + |Chunk(fetched)| <= |file|
    requires Chunk(fetched) == file[before..before + |Chunk(fetched)|] && WholeLines(file[start..before])
    ensures var c := Chunk(fetched); var k := Skipped(c);
      && Lines(file[start..before + |c|]) == Lines(file[start..before]) + (Printed(fetched) + Blanks(k))
      && NonEmpty(Lines(file[start..before + |c|])) == NonEmpty(Lines(file[start..before])) + NonEmpty(Printed(fetched))
  {
    hide *;
    var c, k := Chunk(fetched), Skipped(Chunk(fetched));
    assert file[start..before + |c|] == file[start..before] + c;
    LinesAppend(file[start..before], c);
    PrintedPlusBlanks(fetched);
    NonEmptyConcat(Printed(fetched), Blanks(k));
    BlanksEmpty(k);
    NonEmptyConcat(Lines(file[start..before]), Printed(fetched) + Blanks(k));
  }

  /** A poll that reads all of `file` brings the offset behind the last newline. */
  lemma FullPollReaches(start: nat, polls: seq<Poll>, file: string)
    requires Sees(polls, file) && start <= |file|
    requires polls != [] && polls[|polls| - 1] == Contents(file, |file|)
    ensures Offset(start, polls) == start + LastLineEnd(file[start..])
  {
    hide *;
    var n := |polls| - 1;
    var before := Offset(start, polls[..n]);
    SeesBefore(polls, file);
    OffsetsAdvance(start, polls[..n], file);
    FullFetch(file, before);
    OutputStep(start, polls);
    LastEndSuffix(file, start, before);
  }

  lemma FullFetch(file: string, offset: nat)
    requires offset <= |file|
    ensures Fetched(Contents(file, |file|), offset) == file[offset..]
    ensures |Chunk(file[offset..])| == LastLineEnd(file[offset..])
  {
  }

  lemma LastEndSuffix(file: string, start: nat, mid: nat)
    requires start <= mid <= |file| && WholeLines(file[start..mid])
    ensures mid + LastLineEnd(file[mid..]) == start + LastLineEnd(file[start..])
  {
    var a, b := mid + LastLineEnd(file[mid..]), start + LastLineEnd(file[start..]);
    if b > start { assert file[start..][b - start - 1] == file[b - 1]; }
    if a > mid { assert file[mid..][a - mid - 1] == file[a - 1] && file[start..][a - start - 1] == file[a - 1]; }
    if mid > start {
      assert file[start..mid][mid - start - 1] == file[mid - 1] == file[start..][mid - start - 1];
    }
    if b > mid { assert file[mid..][b - mid - 1] == file[b - 1]; }
  }

  /** Two schedules that end with a full look at the same contents print the same non-empty lines. */
  lemma SchedulesAgree(start: nat, polls: seq<Poll>, other: seq<Poll>, file: string)
    requires Sees(polls, file) && Sees(other, file) && start <= |file|
    requires polls != [] && polls[|polls| - 1] == Contents(file, |file|)
    requires other != [] && other[|other| - 1] == Contents(file, |file|)
    ensures Offset(start, polls) == Offset(start, other)
    ensures NonEmpty(Output(start, polls)) == NonEmpty(Output(start, other))
  {
    FullPollReaches(start, polls, file);
    FullPollReaches(start, other, file);
    NonEmptyLinesOnce(start, polls, file);
    NonEmptyLinesOnce(start, other, file);
  }

  // ---- blank lines ---------------------------------------------------------------------------

  /** No poll ended on a blank line behind another. */
  ghost predicate EndsCleanly(start: nat, polls: seq<Poll>) {
    forall i | 0 <= i < |polls| :: CleanPoll(start, polls, i)
  }

  predicate CleanPoll(start: nat, polls: seq<Poll>, i: nat)
    requires i < |polls|
  {
    NoBlankTail(Chunk(Fetched(polls[i], Offset(start, polls[..i]))))
  }

  predicate NoBlankTail(c: string) { |c| < 2 || c[|c| - 2] != NEWLINE }

  lemma NoBlankTailMeans(fetched: string)
    ensures Skipped(Chunk(fetched)) == 0 <==> NoBlankTail(Chunk(fetched))
  {
    var c := Chunk(fetched);
    if c != [] {
      var d := c[..|c| - 1];
      assert DropNewlines(c) == DropNewlines(d);
      if |d| > 0 { assert d[|d| - 1] == c[|c| - 2]; }
    }
  }

  /** With its blank lines counted in, the output is every complete line exactly when each poll ended
      cleanly. So the blank lines an operator sees depend on the poll schedule. */
  lemma {:induction false} EveryLineIff(start: nat, polls: seq<Poll>, file: string)
    requires Sees(polls, file) && start <= |file|
    ensures start <= Offset(start, polls) <= |file|
    ensures |Output(start, polls)| <= |Lines(file[start..Offset(start, polls)])|
    ensures Output(start, polls) == Lines(file[start..Offset(start, polls)]) <==> EndsCleanly(start, polls)
    decreases |polls|
  {
    hide *;
    OffsetsAdvance(start, polls, file);
    if polls == [] {
      NothingYet(start, file);
    } else {
      var n := |polls| - 1;
      var before := Offset(start, polls[..n]);
      var fetched := Fetched(polls[n], before);
      SeesBefore(polls, file);
      EveryLineIff(start, polls[..n], file);
      OffsetsAdvance(start, polls[..n], file);
      ChunkIsSlice(polls[n], before, file);
      OutputStep(start, polls);
      CleanStep(start, polls);
      NoBlankTailMeans(fetched);
      var k := Skipped(Chunk(fetched));
      BlanksEmpty(k);
      PollLines(file, start, before, fetched);
      SameIff(Output(start, polls[..n]), Lines(file[start..before]), Printed(fetched), Blanks(k));
    }
  }

  lemma CleanStep(start: nat, polls: seq<Poll>)
    requires polls != []
    ensures var n := |polls| - 1;
      EndsCleanly(start, polls) <==>
        EndsCleanly(start, polls[..n]) && NoBlankTail(Chunk(Fetched(polls[n], Offset(start, polls[..n]))))
  {
    hide Chunk;
    hide Fetched;
    hide Offset;
    hide NoBlankTail;
    var n := |polls| - 1;
    forall i | 0 <= i < n ensures CleanPoll(start, polls[..n], i) == CleanPoll(start, polls, i) {
      assert polls[..n][..i] == polls[..i];
    }
    if EndsCleanly(start, polls) {
      assert CleanPoll(start, polls, n);
      forall i | 0 <= i < n ensures CleanPoll(start, polls[..n], i) { assert CleanPoll(start, polls, i); }
    }
  }

  lemma SameIff(a: seq<string>, b: seq<string>, p: seq<string>, blanks: seq<string>)
    requires |a| <= |b|
    ensures a + p == b + (p + blanks) <==> a == b && blanks == []
  {
    if a + p == b + (p + blanks) {
      assert |a| == |b| && blanks == [];
      assert (a + p)[..|a|] == a && (b + (p + blanks))[..|b|] == b;
    }
  }

  /** One file, two schedules: the blank line between "a" and "b" shows only if one poll sees both. */
  lemma BlankLinesDependOnSchedule()
    ensures var file := "a\n\nb\n";
      && Output(0, [Contents(file, 5)]) == ["a", [], "b"]
      && Output(0, [Contents("a\n\n", 3), Contents(file, 5)]) == ["a", "b"]
  {
    hide Output;
    hide Offset;
    hide Printed;
    hide Chunk;
    hide LastLineEnd;
    hide Lines;
    var file := "a\n\nb\n";
    var all, first, both := [Contents(file, 5)], [Contents("a\n\n", 3)], [Contents("a\n\n", 3), Contents(file, 5)];
    assert all[..0] == [] && first[..0] == [] && both[..1] == first;
    OutputStep(0, all);
    OutputStep(0, first);
    OutputStep(0, both);
    NothingYet(0, file);
    assert Fetched(all[0], 0) == file && Fetched(first[0], 0) == "a\n\n" && Fetched(both[1], 3) == "b\n";
    PrintedExamples();
    hide *;
  }

  lemma PrintedExamples()
    ensures Printed("a\n\nb\n") == ["a", [], "b"]
    ensures Printed("a\n\n") == ["a"] && |Chunk("a\n\n")| == 3
    ensures Printed("b\n") == ["b"]
  {
    LastLineAt("a\n\nb\n");
    LastLineAt("a\n\n");
    LastLineAt("b\n");
    assert DropNewlines("a\n\nb\n") == "a\n\nb";
    assert "a\n\n"[..2] == "a\n" && "a\n"[..1] == "a" && DropNewlines("a\n") == "a";
    assert "b\n"[..1] == "b" && DropNewlines("b\n") == "b";
    SplitOne("a", NEWLINE);
    SplitOne("b", NEWLINE);
    assert "a\n\nb" == "a" + [NEWLINE] + "\nb" && "\nb" == [] + [NEWLINE] + "b";
    SplitAppend("a", "\nb", NEWLINE);
    SplitAppend([], "b", NEWLINE);
  }

  lemma LastLineAt(s: string)
    requires s != [] && s[|s| - 1] == NEWLINE
    ensures Chunk(s) == s
  {
  }

  // ---- the inbox -----------------------------------------------------------------------------

  /** The characters of `s` that are not white space. */
  function Ink(s: string): string {
    if s == [] then [] else if IsSpace(s[|s| - 1]) then Ink(s[..|s| - 1]) else Ink(s[..|s| - 1]) + [s[|s| - 1]]
  }

  lemma {:induction false} InkConcat(a: string, b: string)
    ensures Ink(a + b) == Ink(a) + Ink(b)
    decreases |b|
  {
    if b == [] {
      assert a + b == a;
    } else {
      InkConcat(a, b[..|b| - 1]);
      assert (a + b)[..|a + b| - 1] == a + b[..|b| - 1];
    }
  }

  lemma {:induction false} NoInk(s: string)
    requires forall i | 0 <= i < |s| :: IsSpace(s[i])
    ensures Ink(s) == []
  {
    if s != [] { NoInk(s[..|s| - 1]); }
  }

  /** Trimming loses no ink. */
  lemma InkTrimmed(s: string)
    ensures Ink(TrimSpace(s)) == Ink(s)
  {
    hide *;
    var a, b := Lead(s), Last(s);
    SpaceAround(s);
    if a <= b {
      assert s == s[..a] + (s[a..b] + s[b..]);
      InkConcat(s[..a], s[a..b] + s[b..]);
      InkConcat(s[a..b], s[b..]);
      NoInk(s[..a]);
      NoInk(s[b..]);
    } else {
      NoInk(s);
      NoInk([]);
    }
  }

  /** What trimming cuts off is white space. */
  lemma SpaceAround(s: string)
    ensures var a, b := Lead(s), Last(s);
      && a <= |s| && b <= |s|
      && (forall i | 0 <= i < a :: IsSpace(s[i])) && (forall i | b <= i < |s| :: IsSpace(s[i]))
      && TrimSpace(s) == (if a <= b then s[a..b] else [])
      && (a > b ==> forall i | 0 <= i < |s| :: IsSpace(s[i]))
  {
    hide IsSpace;
  }

  /** The text of a nudge. */
  function NudgeText(fetched: string): string { if Nudge(fetched) == [] then [] else Nudge(fetched)[2] }

  /** The text of all nudges, one after the other. */
  function Nudged(start: nat, polls: seq<Poll>): string {
    if polls == [] then []
    else
      var before := polls[..|polls| - 1];
      Nudged(start, before) + NudgeText(Fetched(polls[|polls| - 1], InboxOffset(start, before)))
  }

  /** Whatever the polls, the nudges carry everything appended to the inbox up to the offset reached,
      once and in order, but for white space. */
  lemma {:induction false} NudgesKeepInk(start: nat, polls: seq<Poll>, file: string)
    requires Sees(polls, file) && start <= |file|
    ensures start <= InboxOffset(start, polls) <= |file|
    ensures Ink(Nudged(start, polls)) == Ink(file[start..InboxOffset(start, polls)])
    decreases |polls|
  {
    hide *;
    if polls == [] {
      NoNudgeYet(start, file);
    } else {
      var n := |polls| - 1;
      SeesBefore(polls, file);
      NudgesKeepInk(start, polls[..n], file);
      var before := InboxOffset(start, polls[..n]);
      var fetched := Fetched(polls[n], before);
      FetchedIsSlice(polls[n], before, file);
      NudgeStep(start, polls);
      assert file[start..before + |fetched|] == file[start..before] + fetched;
      InkConcat(file[start..before], fetched);
      InkConcat(Nudged(start, polls[..n]), NudgeText(fetched));
      NudgeInk(fetched);
    }
  }

  lemma NoNudgeYet(start: nat, file: string)
    requires start <= |file|
    ensures InboxOffset(start, []) == start && Ink(Nudged(start, [])) == Ink(file[start..start])
  {
  }

  lemma NudgeStep(start: nat, polls: seq<Poll>)
    requires polls != []
    ensures var before := polls[..|polls| - 1];
      var fetched := Fetched(polls[|polls| - 1], InboxOffset(start, before));
      && InboxOffset(start, polls) == InboxOffset(start, before) + |fetched|
      && Nudged(start, polls) == Nudged(start, before) + NudgeText(fetched)
  {
  }

  lemma NudgeInk(fetched: string)
    ensures Ink(NudgeText(fetched)) == Ink(fetched)
  {
    InkTrimmed(fetched);
    assert NudgeText(fetched) == TrimSpace(fetched);
    hide Ink;
  }

  /** A nudge shows, between its banners, what was fetched from its first to its last character that is not
      white space, white space inside included; nothing is shown exactly if there is no such character. */
  lemma NudgeShows(fetched: string) returns (a: nat, b: nat)
    ensures a <= b <= |fetched|
    ensures forall i | 0 <= i < |fetched| && !(a <= i < b) :: IsSpace(fetched[i])
    ensures a < b ==> !IsSpace(fetched[a]) && !IsSpace(fetched[b - 1])
    ensures Nudge(fetched) == if a == b then []
      else ["", ">>> INBOX NUDGE <<<", fetched[a..b], ">>> END NUDGE <<<", ""]
  {
    SpaceAround(fetched);
    EndsInInk(fetched);
    hide TrimSpace;
    hide Lead;
    hide Last;
    a, b := Lead(fetched), Last(fetched);
    if a >= b {
      a, b := 0, 0;
      assert TrimSpace(fetched) == [];
    }
  }

  lemma EndsInInk(s: string)
    ensures Lead(s) < |s| ==> !IsSpace(s[Lead(s)])
    ensures Last(s) > 0 ==> !IsSpace(s[Last(s) - 1])
  {
    hide IsSpace;
  }
}
