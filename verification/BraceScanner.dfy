/** JSONBlocks: the string- and escape-aware scanner for top-level balanced `{...}` blocks. */
module BraceScanner {

  /** What the inner loop carries from one character to the next. */
  datatype Scan = Scan(depth: int, inStr: bool, esc: bool)

  const Start := Scan(0, false, false)

  function Step(q: Scan, c: char): Scan {
    if q.inStr then
      if q.esc then q.(esc := false)
      else if c == '\\' then q.(esc := true)
      else if c == '"' then q.(inStr := false)
      else q
    else if c == '"' then q.(inStr := true)
    else if c == '{' then q.(depth := q.depth + 1)
    else if c == '}' then q.(depth := q.depth - 1)
    else q
  }

  /** The automaton after reading all of `s`. */
  function Run(q: Scan, s: string): Scan {
    if s == [] then q else Step(Run(q, s[..|s| - 1]), s[|s| - 1])
  }

  lemma {:induction false} RunConcat(q: Scan, a: string, b: string)
    ensures Run(q, a + b) == Run(Run(q, a), b)
  {
    if b == [] {
      assert a + b == a;
    } else {
      RunConcat(q, a, b[..|b| - 1]);
      assert (a + b)[..|a + b| - 1] == a + b[..|b| - 1];
    }
  }

  lemma RunNext(q: Scan, s: string, k: nat)
    requires k < |s|
    ensures Run(q, s[..k + 1]) == Step(Run(q, s[..k]), s[k])
  {
    assert s[..k + 1][..k] == s[..k];
  }

  /** The first `k` characters of `s` close every brace they open. */
  predicate Balances(s: string, k: nat)
    requires k <= |s|
  {
    Run(Start, s[..k]).depth == 0
  }

  /** A block: it starts with a brace, balances at its end and nowhere earlier. */
  ghost predicate IsBlock(b: string) {
    b != [] && b[0] == '{' && Balances(b, |b|) && forall k | 1 <= k < |b| :: !Balances(b, k)
  }

  /** A brace that is never closed. */
  ghost predicate NeverCloses(u: string) {
    u != [] && u[0] == '{' && forall k | 1 <= k <= |u| :: !Balances(u, k)
  }

  /** strings.IndexByte(s, '{'), with |s| for "none". */
  function FirstBrace(s: string): (k: nat)
    ensures k <= |s| && '{' !in s[..k] && (k < |s| ==> s[k] == '{')
  {
    if s == [] || s[0] == '{' then 0
    else
      var k := FirstBrace(s[1..]);
      assert s[..1 + k] == [s[0]] + s[1..][..k];
      1 + k
  }

  /** The least `k >= from` at which `u` balances, or 0. */
  function BlockEnd(u: string, from: nat): (k: nat)
    requires 1 <= from
    ensures k == 0 ==> forall j | from <= j <= |u| :: !Balances(u, j)
    ensures k != 0 ==> from <= k <= |u| && Balances(u, k) && forall j | from <= j < k :: !Balances(u, j)
    decreases |u| - from
  {
    if from > |u| then 0 else if Balances(u, from) then from else BlockEnd(u, from + 1)
  }

  /** The blocks of `s`, and what is left of `s` after the last of them. */
  function ScanBlocks(s: string): (r: (seq<string>, string)) {
    var u := s[FirstBrace(s)..];
    var k := BlockEnd(u, 1);
    if k == 0 then ([], s)
    else
      var (blocks, rest) := ScanBlocks(u[k..]);
      ([u[..k]] + blocks, rest)
  }

  function Blocks(s: string): seq<string> { ScanBlocks(s).0 }

  function Rest(s: string): string { ScanBlocks(s).1 }

  /** The scan of `s` leaves no open block. */
  predicate Closed(s: string) { '{' !in Rest(s) }

  // ---- the loop -----------------------------------------------------------------------------

  /** The inner loop: where the block that opens at `start` ends, or -1 when it never does. */
  method FindEnd(s: string, start: nat) returns (end: int)
    requires start < |s| && s[start] == '{'
    ensures -1 <= end < |s|
    ensures end >= 0 ==> start <= end && BlockEnd(s[start..], 1) == end + 1 - start
    ensures end < 0 ==> BlockEnd(s[start..], 1) == 0
  {
    ghost var u := s[start..];
    var depth, inStr, esc := 0, false, false;
    end := -1;
    var j := start;
    while j < |s|
      invariant start <= j <= |s|
      invariant Scanning(u, j - start, Scan(depth, inStr, esc))
    {
      var c := s[j];
      ScanningStep(u, j - start, Scan(depth, inStr, esc));
      if inStr {
        if esc {
          esc := false;
        } else if c == '\\' {
          esc := true;
        } else if c == '"' {
          inStr := false;
        }
        j := j + 1;
        continue;
      }
      if c == '"' {
        inStr := true;
      } else if c == '{' {
        depth := depth + 1;
      } else if c == '}' {
        depth := depth - 1;
        if depth == 0 {
          return j;
        }
      }
      j := j + 1;
    }
  }

  method JSONBlocks(s: string) returns (blocks: seq<string>)
    ensures blocks == Blocks(s)
  {
    hide *;
    blocks := [];
    var i := 0;
    WholeText(s);
    while i < |s|
      invariant 0 <= i <= |s|
      invariant blocks + Blocks(s[i..]) == Blocks(s)
    {
      var offset := FirstBrace(s[i..]);
      FirstBraceFound(s[i..]);
      if offset == |s| - i {
        BraceFree(s[i..]);
        return;
      }
      var start := offset + i;
      SliceSlice(s, i, offset);
      var end := FindEnd(s, start);
      ScanUnfolds(s[i..]);
      if end < 0 {
        return;
      }
      AppendBlock(s, blocks, s[i..], s[start..], start, end + 1 - start);
      blocks := blocks + [s[start..end + 1]];
      i := end + 1;
    }
    NoTextLeft(s, i);
  }

  lemma WholeText(s: string)
    ensures [] + Blocks(s[0..]) == Blocks(s)
  {
    assert s[0..] == s;
  }

  lemma NoTextLeft(s: string, i: nat)
    requires i == |s|
    ensures Blocks(s[i..]) == []
  {
    BraceFree(s[i..]);
  }

  lemma FirstBraceFound(s: string)
    ensures FirstBrace(s) <= |s| && '{' !in s[..FirstBrace(s)] && (FirstBrace(s) < |s| ==> s[FirstBrace(s)] == '{')
  {
  }

  /** One step of the scan. */
  lemma ScanUnfolds(s: string)
    ensures var u := s[FirstBrace(s)..];
      var k := BlockEnd(u, 1);
      && k <= |u|
      && (k == 0 ==> Blocks(s) == [] && Rest(s) == s)
      && (k != 0 ==> Blocks(s) == [u[..k]] + Blocks(u[k..]) && Rest(s) == Rest(u[k..]))
  {
    hide Balances;
  }

  lemma SliceSlice(s: string, i: nat, k: nat)
    requires i + k <= |s|
    ensures s[i..][k..] == s[i + k..] && s[i..][..k] == s[i..i + k]
  {
  }

  lemma AppendBlock(s: string, blocks: seq<string>, r: string, u: string, start: nat, k: nat)
    requires start + k <= |s| && u == s[start..]
    requires Blocks(r) == [u[..k]] + Blocks(u[k..])
    ensures blocks + [s[start..start + k]] + Blocks(s[start + k..]) == blocks + Blocks(r)
  {
    SliceSlice(s, start, k);
    Associative(blocks, [u[..k]], Blocks(u[k..]));
  }

  /** The inner loop after `n` characters of `u`, still inside the block it opened. */
  ghost predicate Scanning(u: string, n: nat, q: Scan) {
    && n <= |u|
    && q == Run(Start, u[..n])
    && (n > 0 ==> q.depth > 0)
    && forall k | 1 <= k <= n :: !Balances(u, k)
  }

  lemma ScanningStep(u: string, n: nat, q: Scan)
    requires Scanning(u, n, q) && n < |u| && u[0] == '{'
    ensures Step(q, u[n]).depth == 0 ==> !q.inStr && u[n] == '}' && Balances(u, n + 1)
    ensures Step(q, u[n]).depth != 0 ==> Scanning(u, n + 1, Step(q, u[n]))
    ensures Step(q, u[n]).depth == 0 || Step(q, u[n]).depth > 0
  {
    RunNext(Start, u, n);
  }

  lemma BraceFree(s: string)
    requires FirstBrace(s) == |s|
    ensures Blocks(s) == []
  {
    assert s[|s|..] == [];
  }

  // ---- what the scan means ------------------------------------------------------------------

  /** `blocks` cuts `s` into brace-free gaps, minimally balanced blocks, and a tail whose first
      brace, if there is one, is never closed. */
  ghost predicate Cuts(s: string, blocks: seq<string>)
    decreases |blocks|
  {
    if blocks == [] then
      exists gap, tail :: OpenTail(s, gap, tail)
    else
      exists gap, rest :: LeadingBlock(s, gap, blocks[0], rest) && Cuts(rest, blocks[1..])
  }

  ghost predicate OpenTail(s: string, gap: string, tail: string) {
    s == gap + tail && '{' !in gap && (tail == [] || NeverCloses(tail))
  }

  ghost predicate LeadingBlock(s: string, gap: string, block: string, rest: string) {
    s == gap + block + rest && '{' !in gap && IsBlock(block)
  }

  lemma {:induction false} FirstBraceAfterGap(gap: string, u: string)
    requires '{' !in gap && (u == [] || u[0] == '{')
    ensures FirstBrace(gap + u) == |gap| && (gap + u)[|gap|..] == u
  {
    if gap != [] {
      FirstBraceAfterGap(gap[1..], u);
      assert (gap + u)[1..] == gap[1..] + u;
    } else {
      assert gap + u == u;
    }
  }

  /** Whether a prefix balances depends on that prefix alone. */
  lemma BalancesOfPrefix(b: string, r: string, k: nat)
    requires k <= |b|
    ensures Balances(b + r, k) == Balances(b, k)
  {
    assert (b + r)[..k] == b[..k];
  }

  lemma ScanGapBlock(gap: string, b: string, rest: string)
    requires '{' !in gap && IsBlock(b)
    ensures Blocks(gap + b + rest) == [b] + Blocks(rest) && Rest(gap + b + rest) == Rest(rest)
  {
    var u := b + rest;
    assert gap + b + rest == gap + u;
    FirstBraceAfterGap(gap, u);
    forall k | 1 <= k <= |b| ensures Balances(u, k) == Balances(b, k) { BalancesOfPrefix(b, rest, k); }
    assert BlockEnd(u, 1) == |b|;
    assert u[..|b|] == b && u[|b|..] == rest;
  }

  lemma ScanTail(gap: string, tail: string)
    requires '{' !in gap && (tail == [] || NeverCloses(tail))
    ensures Blocks(gap + tail) == [] && Rest(gap + tail) == gap + tail
  {
    FirstBraceAfterGap(gap, tail);
  }

  /** The first step of the scan of `s`, read back as a decomposition. */
  lemma ScanSplits(s: string) returns (gap: string, u: string, k: nat)
    ensures s == gap + u && '{' !in gap && k == BlockEnd(u, 1)
    ensures k == 0 ==> (u == [] || NeverCloses(u)) && Blocks(s) == [] && Rest(s) == s
    ensures k != 0 ==> k <= |u| && IsBlock(u[..k]) && s == gap + u[..k] + u[k..]
    ensures k != 0 ==> Blocks(s) == [u[..k]] + Blocks(u[k..]) && Rest(s) == Rest(u[k..])
  {
    hide *;
    var f := FirstBrace(s);
    FirstBraceFound(s);
    gap, u := s[..f], s[f..];
    k := BlockEnd(u, 1);
    ScanUnfolds(s);
    assert s == gap + u;
    if k != 0 {
      BlockAtEnd(u, k);
      assert u == u[..k] + u[k..];
    } else if u != [] {
      NoBlock(u);
    }
  }

  lemma BlockAtEnd(u: string, k: nat)
    requires k == BlockEnd(u, 1) != 0 && k <= |u| && u[0] == '{'
    ensures IsBlock(u[..k])
  {
    hide Run;
    forall j | 1 <= j <= k ensures Balances(u[..k], j) == Balances(u, j) {
      assert u == u[..k] + u[k..];
      BalancesOfPrefix(u[..k], u[k..], j);
    }
    hide Balances;
  }

  lemma NoBlock(u: string)
    requires u != [] && u[0] == '{' && BlockEnd(u, 1) == 0
    ensures NeverCloses(u)
  {
    hide Balances;
  }

  /** Exact characterisation: `blocks` is the result of the scan iff it cuts `s` as above. */
  lemma {:induction false} BlocksCharacterised(s: string, blocks: seq<string>)
    ensures Cuts(s, blocks) <==> blocks == Blocks(s)
    decreases |blocks|
  {
    var gap, u, k := ScanSplits(s);
    if Cuts(s, blocks) {
      if blocks == [] {
        var g, t :| OpenTail(s, g, t);
        ScanTail(g, t);
      } else {
        var g, r :| LeadingBlock(s, g, blocks[0], r) && Cuts(r, blocks[1..]);
        ScanGapBlock(g, blocks[0], r);
        BlocksCharacterised(r, blocks[1..]);
        assert blocks == [blocks[0]] + blocks[1..];
      }
    }
    if blocks == Blocks(s) {
      if k == 0 {
        assert OpenTail(s, gap, u);
      } else {
        assert blocks[1..] == Blocks(u[k..]);
        BlocksCharacterised(u[k..], blocks[1..]);
        assert LeadingBlock(s, gap, blocks[0], u[k..]);
      }
    }
  }

  /** Every block found is a minimally balanced block, and scanning it alone finds just it. */
  lemma {:induction false} BlocksAreBlocks(s: string)
    ensures forall b <- Blocks(s) :: IsBlock(b) && Blocks(b) == [b]
    decreases |s|
  {
    var gap, u, k := ScanSplits(s);
    if k != 0 {
      BlocksAreBlocks(u[k..]);
      ScanOneBlock([], u[..k], []);
      assert [] + u[..k] + [] == u[..k];
    }
  }

  lemma ScanOneBlock(pre: string, b: string, post: string)
    requires '{' !in pre && IsBlock(b) && '{' !in post
    ensures Blocks(pre + b + post) == [b]
  {
    ScanGapBlock(pre, b, post);
    ScanTail(post, []);
    assert post + [] == post;
  }

  /** The blocks and the rest account for every brace: the rest is a suffix of the text, and what
      precedes it ends with the last block. */
  lemma {:induction false} RestIsSuffix(s: string)
    ensures |Rest(s)| <= |s| && s[|s| - |Rest(s)|..] == Rest(s)
    decreases |s|
  {
    var gap, u, k := ScanSplits(s);
    if k != 0 {
      RestIsSuffix(u[k..]);
      var r := Rest(s);
      assert s[|s| - |r|..] == u[k..][|u[k..]| - |r|..];
    }
  }

  /** Scanning is additive over concatenation when the left part leaves no open block. */
  lemma {:induction false} BlocksAdditive(u: string, v: string)
    requires Closed(u)
    ensures Blocks(u + v) == Blocks(u) + Blocks(v)
    ensures Closed(u + v) <==> Closed(v)
    decreases |u|
  {
    var gap, w, k := ScanSplits(u);
    if k == 0 {
      BraceFreePrefix(u, v);
    } else {
      BlocksAdditive(w[k..], v);
      BlockThenAppend(u, gap, w[..k], w[k..], v);
    }
  }

  lemma Associative<T>(a: seq<T>, b: seq<T>, c: seq<T>)
    ensures (a + b) + c == a + (b + c)
  {
  }

  lemma BlockThenAppend(u: string, gap: string, b: string, r: string, v: string)
    requires u == gap + b + r && '{' !in gap && IsBlock(b)
    requires Blocks(r + v) == Blocks(r) + Blocks(v)
    ensures Blocks(u + v) == Blocks(u) + Blocks(v) && Rest(u + v) == Rest(r + v)
  {
    Associative(gap + b, r, v);
    ScanGapBlock(gap, b, r + v);
    ScanGapBlock(gap, b, r);
    Associative([b], Blocks(r), Blocks(v));
  }

  lemma BraceFreePrefix(g: string, v: string)
    requires '{' !in g
    ensures Blocks(g + v) == Blocks(v) && Closed(g + v) == Closed(v) && Blocks(g) == []
  {
    ScanTail(g, []);
    assert g + [] == g;
    var gap, u, k := ScanSplits(v);
    assert g + v == (g + gap) + u;
    if k == 0 {
      ScanTail(g + gap, u);
      assert '{' in g + v <==> '{' in v;
    } else {
      assert g + v == (g + gap) + u[..k] + u[k..];
      ScanGapBlock(g + gap, u[..k], u[k..]);
    }
  }
}
