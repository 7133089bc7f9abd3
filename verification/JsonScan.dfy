/** The brace scanner run over JSON texts: every object text is exactly one block. */
module JsonScan {
  import opened JsonText
  import opened Options
  import opened JsonParser
  import opened BraceScanner

  /** What is left of `s` after the brace that first closes everything open, started at `q`. */
  function AfterBlock(q: Scan, s: string): Option<string>
    decreases |s|
  {
    if s == [] then None
    else if Step(q, s[0]).depth == 0 then Some(s[1..])
    else AfterBlock(Step(q, s[0]), s[1..])
  }

  lemma RunFirst(q: Scan, c: char, s: string)
    ensures Run(q, [c] + s) == Run(Step(q, c), s)
  {
    RunConcat(q, [c], s);
    assert [c][..0] == [];
  }

  lemma {:induction false} AfterBlockEnd(q: Scan, s: string)
    ensures var a := AfterBlock(q, s);
      a.Some? ==>
        && |a.value| < |s| && s[|s| - |a.value|..] == a.value
        && Run(q, s[..|s| - |a.value|]).depth == 0
        && forall k | 1 <= k < |s| - |a.value| :: Run(q, s[..k]).depth != 0
    decreases |s|
  {
    var a := AfterBlock(q, s);
    if a.Some? {
      var q1 := Step(q, s[0]);
      forall k | 1 <= k <= |s| ensures Run(q, s[..k]) == Run(q1, s[1..][..k - 1]) {
        assert s[..k] == [s[0]] + s[1..][..k - 1];
        RunFirst(q, s[0], s[1..][..k - 1]);
      }
      assert s[1..][..0] == [];
      if q1.depth != 0 {
        AfterBlockEnd(q1, s[1..]);
        var m := |s| - |a.value|;
        forall k | 1 <= k < m ensures Run(q, s[..k]).depth != 0 {
          if k > 1 { assert Run(q1, s[1..][..k - 1]).depth != 0; }
        }
      }
    }
  }

  /** Inside an open block and outside strings. */
  predicate Inside(q: Scan) { q.depth > 0 && !q.inStr && !q.esc }

  lemma {:induction false} ScanSpace(q: Scan, w: string, r: string)
    requires Inside(q) && forall i | 0 <= i < |w| :: w[i] != '"' && w[i] != '{' && w[i] != '}'
    ensures AfterBlock(q, w + r) == AfterBlock(q, r)
    decreases |w|
  {
    if w != [] {
      assert (w + r)[1..] == w[1..] + r;
      ScanSpace(q, w[1..], r);
    } else {
      assert w + r == r;
    }
  }

  lemma {:induction false} ScanInString(q: Scan, w: string, r: string)
    requires q.depth > 0 && q.inStr && !q.esc && forall i | 0 <= i < |w| :: w[i] != '"' && w[i] != '\\'
    ensures AfterBlock(q, w + r) == AfterBlock(q, r)
    decreases |w|
  {
    if w != [] {
      assert (w + r)[1..] == w[1..] + r;
      ScanInString(q, w[1..], r);
    } else {
      assert w + r == r;
    }
  }

  lemma ScanChar(q: Scan, c: char, r: string)
    requires Step(q, c).depth != 0
    ensures AfterBlock(q, [c] + r) == AfterBlock(Step(q, c), r)
  {
    assert ([c] + r)[1..] == r;
  }

  lemma {:induction false} ScanItems(q: Scan, items: seq<Item>, r: string)
    requires Inside(q) && ItemsOk(items)
    ensures AfterBlock(q.(inStr := true), WriteItems(items, r)) == AfterBlock(q, r)
    decreases |items|
  {
    var s := q.(inStr := true);
    if items == [] {
      ScanChar(s, '"', r);
    } else {
      var t := WriteItems(items[1..], r);
      ScanItems(q, items[1..], r);
      assert ItemOk(items[0]);
      match items[0]
      case Plain(c) =>
        ScanChar(s, c, t);
      case Escape(e) =>
        ScanChar(s, '\\', [e] + t);
        ScanChar(s.(esc := true), e, t);
      case Unicode(h) =>
        ScanChar(s, '\\', ['u'] + (h + t));
        ScanChar(s.(esc := true), 'u', h + t);
        assert forall i | 0 <= i < |h| :: HexDigit(h[i]);
        ScanInString(s, h, t);
    }
  }

  lemma ScanString(q: Scan, items: seq<Item>, r: string)
    requires Inside(q) && ItemsOk(items)
    ensures AfterBlock(q, ['"'] + WriteItems(items, r)) == AfterBlock(q, r)
  {
    ScanChar(q, '"', WriteItems(items, r));
    ScanItems(q, items, r);
  }

  lemma ScanKey(kind: Kind, q: Scan, key: Key, r: string)
    requires Inside(q) && KeyOk(kind, key)
    ensures AfterBlock(q, WriteKey(key, r)) == AfterBlock(q, r)
  {
    if key.Key? {
      ScanString(q, key.name, key.before + ([':'] + (key.colon + r)));
      ScanSpace(q, key.before, [':'] + (key.colon + r));
      ScanChar(q, ':', key.colon + r);
      ScanSpace(q, key.colon, r);
    }
  }

  /** One level deeper for the bracket of `kind`. */
  function Deeper(kind: Kind, q: Scan): Scan {
    if kind == Object then q.(depth := q.depth + 1) else q
  }

  /** Inside a block, scanning past a value changes nothing. */
  lemma {:induction false} ScanValue(q: Scan, v: Value, r: string)
    requires Inside(q) && ValueOk(v)
    ensures AfterBlock(q, Write(v, r)) == AfterBlock(q, r)
    decreases v, 0
  {
    match v
    case Literal(w) => ScanSpace(q, w, r);
    case Number(t) =>
      NumberCharsOnly(Begin, t);
      ScanSpace(q, t, r);
    case String(items) => ScanString(q, items, r);
    case Group(kind, ws, body) =>
      ScanChar(q, Opener(kind), ws + WriteBody(kind, body, r));
      ScanSpace(Deeper(kind, q), ws, WriteBody(kind, body, r));
      ScanBody(kind, Deeper(kind, q), body, r);
      if kind == Object {
        assert AfterBlock(Deeper(kind, q), ['}'] + r) == AfterBlock(q, r) by { ScanChar(Deeper(kind, q), '}', r); }
      } else {
        ScanChar(q, ']', r);
      }
  }

  /** Scanning a body brings the scanner to its closing bracket. */
  lemma {:induction false} ScanBody(kind: Kind, q: Scan, b: Body, r: string)
    requires Inside(q) && BodyOk(kind, b)
    ensures AfterBlock(q, WriteBody(kind, b, r)) == AfterBlock(q, [Closer(kind)] + r)
    decreases b, 0
  {
    if b.Entry? {
      var t := WriteRest(kind, b.next, b.rest, r);
      ScanKey(kind, q, b.key, Write(b.value, b.after + t));
      ScanValue(q, b.value, b.after + t);
      ScanSpace(q, b.after, t);
      if !b.rest.Nil? {
        ScanChar(q, ',', b.next + WriteBody(kind, b.rest, r));
        ScanSpace(q, b.next, WriteBody(kind, b.rest, r));
        ScanBody(kind, q, b.rest, r);
      }
    }
  }

  /** An object value. */
  predicate IsObject(v: Value) { v.Group? && v.kind == Object && ValueOk(v) }

  lemma ObjectCloses(v: Value, r: string)
    requires IsObject(v)
    ensures AfterBlock(Start, Write(v, r)) == Some(r)
  {
    var q := Scan(1, false, false);
    ScanChar(Start, '{', v.ws + WriteBody(Object, v.body, r));
    ScanSpace(q, v.ws, WriteBody(Object, v.body, r));
    ScanBody(Object, q, v.body, r);
    assert (['}'] + r)[1..] == r;
  }

  /** The text of every JSON object is a minimally balanced block. */
  lemma ObjectIsBlock(v: Value)
    requires IsObject(v)
    ensures IsBlock(Text(v))
  {
    ObjectCloses(v, []);
    AfterBlockEnd(Start, Text(v));
    assert Text(v)[..|Text(v)|] == Text(v);
  }

  /** Scanner round trip: an object, spelled in any way RFC 8259 allows, between any prefix and
      suffix free of `{`, is found, alone and whole. */
  lemma ObjectFound(pre: string, v: Value, post: string)
    requires IsObject(v) && '{' !in pre && '{' !in post
    ensures Blocks(pre + Text(v) + post) == [Text(v)]
  {
    ObjectIsBlock(v);
    ScanOneBlock(pre, Text(v), post);
  }
}
