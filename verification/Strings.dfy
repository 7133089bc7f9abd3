/** The few string primitives the source takes from Go's `strings` package. */
module Strings {

  /** unicode.IsSpace. */
  predicate IsSpace(c: char) {
    || '\t' <= c <= '\r'
    || c == ' '
    || c == '\U{85}' || c == '\U{A0}' || c == '\U{1680}'
    || '\U{2000}' <= c <= '\U{200A}'
    || c == '\U{2028}' || c == '\U{2029}' || c == '\U{202F}' || c == '\U{205F}' || c == '\U{3000}'
  }

  /** How many white-space characters `s` starts with. */
  function Lead(s: string): (a: nat)
    ensures a <= |s|
    ensures forall i | 0 <= i < a :: IsSpace(s[i])
    ensures a < |s| ==> !IsSpace(s[a])
  {
    if s != [] && IsSpace(s[0]) then 1 + Lead(s[1..]) else 0
  }

  /** Where the last character that is not white space ends. */
  function Last(s: string): (b: nat)
    ensures b <= |s|
    ensures forall i | b <= i < |s| :: IsSpace(s[i])
    ensures b > 0 ==> !IsSpace(s[b - 1])
  {
    if s != [] && IsSpace(s[|s| - 1]) then Last(s[..|s| - 1]) else |s|
  }

  /** strings.TrimSpace. */
  function TrimSpace(s: string): string {
    if Lead(s) <= Last(s) then s[Lead(s)..Last(s)] else []
  }

  /** A string that TrimSpace leaves alone. */
  predicate Trimmed(s: string) {
    s == [] || (!IsSpace(s[0]) && !IsSpace(s[|s| - 1]))
  }

  /** strings.Split for a one-character separator: never empty, pieces free of the separator. */
  function Split(s: string, sep: char): (parts: seq<string>)
    ensures |parts| > 0
    ensures forall p <- parts :: sep !in p
  {
    if s == [] then [[]]
    else
      var rest := Split(s[1..], sep);
      if s[0] == sep then [[]] + rest
      else [[s[0]] + rest[0]] + rest[1..]
  }

  /** strings.Join for a one-character separator. */
  function Join(parts: seq<string>, sep: char): string {
    if parts == [] then []
    else if |parts| == 1 then parts[0]
    else parts[0] + [sep] + Join(parts[1..], sep)
  }

  /** Trimming cuts to `s[Lead(s)..Last(s)]`, and to nothing exactly when all is white space. */
  lemma TrimSpaceCuts(s: string)
    ensures Trimmed(TrimSpace(s))
    ensures TrimSpace(s) == [] <==> forall c <- s :: IsSpace(c)
    ensures forall c <- TrimSpace(s) :: c in s
  {
    if Lead(s) < Last(s) {
      assert s[Lead(s)] in s;
    } else {
      forall c <- s ensures IsSpace(c) {
        var i :| 0 <= i < |s| && s[i] == c;
      }
    }
  }

  lemma TrimmedIsFixed(s: string)
    requires Trimmed(s)
    ensures TrimSpace(s) == s
  {
  }

  lemma {:induction false} SplitOne(s: string, sep: char)
    requires sep !in s
    ensures Split(s, sep) == [s]
  {
    if s != [] {
      SplitOne(s[1..], sep);
      assert [s[0]] + s[1..] == s;
    }
  }

  lemma {:induction false} SplitAtSeparator(p: string, s: string, sep: char)
    requires sep !in p
    ensures Split(p + [sep] + s, sep) == [p] + Split(s, sep)
  {
    var w := p + [sep] + s;
    if p == [] {
      assert w[1..] == s;
    } else {
      SplitAtSeparator(p[1..], s, sep);
      assert w[1..] == p[1..] + [sep] + s;
      assert [p[0]] + p[1..] == p;
    }
  }

  lemma {:induction false} SplitAppend(a: string, b: string, sep: char)
    ensures Split(a + [sep] + b, sep) == Split(a, sep) + Split(b, sep)
  {
    hide Split;
    var w := a + [sep] + b;
    SplitCons(w, sep);
    if a == [] {
      SplitOne(a, sep);
      assert w[0] == sep && w[1..] == b;
    } else {
      assert w[0] == a[0] && w[1..] == a[1..] + [sep] + b;
      SplitAppend(a[1..], b, sep);
      SplitCons(a, sep);
    }
  }

  lemma SplitCons(s: string, sep: char)
    requires s != []
    ensures var rest := Split(s[1..], sep);
      Split(s, sep) == if s[0] == sep then [[]] + rest else [[s[0]] + rest[0]] + rest[1..]
  {
  }

  /** Splitting undoes joining, for pieces without the separator. */
  lemma {:induction false} SplitJoin(parts: seq<string>, sep: char)
    requires parts != []
    requires forall p <- parts :: sep !in p
    ensures Split(Join(parts, sep), sep) == parts
  {
    if |parts| == 1 {
      SplitOne(parts[0], sep);
    } else {
      SplitJoin(parts[1..], sep);
      SplitAtSeparator(parts[0], Join(parts[1..], sep), sep);
      assert [parts[0]] + parts[1..] == parts;
    }
  }

  /** Joining undoes splitting, for every text. */
  lemma {:induction false} JoinSplit(s: string, sep: char)
    ensures Join(Split(s, sep), sep) == s
  {
    if s != [] {
      JoinSplit(s[1..], sep);
      var rest := Split(s[1..], sep);
      if s[0] == sep {
        assert ([[]] + rest)[1..] == rest;
      } else {
        var parts := [[s[0]] + rest[0]] + rest[1..];
        assert parts[1..] == rest[1..];
      }
      assert s == [s[0]] + s[1..];
    }
  }
}
