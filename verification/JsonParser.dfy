/** A recursive-descent reader for RFC 8259, proved to accept exactly the grammar of JsonText. It
    stands for Go's json.Valid, and its trees for what json.Unmarshal sees. */
module JsonParser {
  import opened JsonText
  import opened Options

  /** A leading run of characters satisfying `p`, and the remainder. */
  function SpanSpace(s: string): (r: (string, string))
    ensures r.0 + r.1 == s && AllSpace(r.0) && (r.1 != [] ==> !JsonSpace(r.1[0]))
  {
    if s != [] && JsonSpace(s[0]) then
      var (w, r) := SpanSpace(s[1..]);
      ([s[0]] + w, r)
    else ([], s)
  }

  predicate AllNumber(w: string) { forall i | 0 <= i < |w| :: NumberChar(w[i]) }

  function SpanNumber(s: string): (r: (string, string))
    ensures r.0 + r.1 == s && AllNumber(r.0) && (r.1 != [] ==> !NumberChar(r.1[0]))
  {
    if s != [] && NumberChar(s[0]) then
      var (w, r) := SpanNumber(s[1..]);
      ([s[0]] + w, r)
    else ([], s)
  }

  /** One character of a string literal. */
  function ReadItem(s: string): (r: Option<(Item, string)>)
    ensures r.Some? ==> |r.value.1| < |s|
  {
    if s == [] then None
    else if s[0] == '\\' then
      if |s| >= 6 && s[1] == 'u' && ItemOk(Unicode(s[2..6])) then Some((Unicode(s[2..6]), s[6..]))
      else if |s| >= 2 && EscapeChar(s[1]) then Some((Escape(s[1]), s[2..]))
      else None
    else if ItemOk(Plain(s[0])) then Some((Plain(s[0]), s[1..]))
    else None
  }

  /** The items up to the closing quote, and what follows it. */
  function ReadItems(s: string): (r: Option<(seq<Item>, string)>)
    ensures r.Some? ==> |r.value.1| < |s|
    decreases |s|
  {
    if s == [] then None
    else if s[0] == '"' then Some(([], s[1..]))
    else
      match ReadItem(s)
      case None => None
      case Some((item, rest)) =>
        match ReadItems(rest)
        case None => None
        case Some((items, r)) => Some(([item] + items, r))
  }

  function ReadKey(kind: Kind, s: string): (r: Option<(Key, string)>)
    ensures r.Some? ==> |r.value.1| <= |s|
  {
    if kind == Array then Some((NoKey, s))
    else if s == [] || s[0] != '"' then None
    else
      match ReadItems(s[1..])
      case None => None
      case Some((name, r)) =>
        var (before, r1) := SpanSpace(r);
        assert |before + r1| == |r|;
        if r1 == [] || r1[0] != ':' then None
        else
          var (colon, r2) := SpanSpace(r1[1..]);
          assert |colon + r2| == |r1[1..]|;
          Some((Key(name, before, colon), r2))
  }

  predicate StartsWith(s: string, w: string) { |w| <= |s| && s[..|w|] == w }

  function ReadWord(s: string): (r: Option<(Value, string)>)
    ensures r.Some? ==> |r.value.1| < |s|
  {
    if StartsWith(s, "null") then Some((Literal("null"), s[4..]))
    else if StartsWith(s, "true") then Some((Literal("true"), s[4..]))
    else if StartsWith(s, "false") then Some((Literal("false"), s[5..]))
    else None
  }

  function ReadValue(s: string): (r: Option<(Value, string)>)
    ensures r.Some? ==> |r.value.1| < |s|
    decreases |s|, 0
  {
    if s == [] then None
    else if s[0] == '{' then ReadGroup(Object, s[1..])
    else if s[0] == '[' then ReadGroup(Array, s[1..])
    else if s[0] == '"' then
      match ReadItems(s[1..])
      case None => None
      case Some((items, r)) => Some((String(items), r))
    else if s[0] == '-' || Digit(s[0]) then
      var (t, r) := SpanNumber(s);
      assert |t + r| == |s|;
      if t != [] && IsNumber(t) then Some((Number(t), r)) else None
    else ReadWord(s)
  }

  /** What follows an opening bracket. */
  function ReadGroup(kind: Kind, s: string): (r: Option<(Value, string)>)
    ensures r.Some? ==> |r.value.1| <= |s|
    decreases |s|, 2
  {
    var (ws, t) := SpanSpace(s);
    assert |ws + t| == |s|;
    if t != [] && t[0] == Closer(kind) then Some((Group(kind, ws, Nil), t[1..]))
    else
      match ReadBody(kind, t)
      case None => None
      case Some((body, r)) => Some((Group(kind, ws, body), r))
  }

  /** One entry and what follows it, up to and including the closing bracket. */
  function ReadBody(kind: Kind, s: string): (r: Option<(Body, string)>)
    ensures r.Some? ==> |r.value.1| <= |s|
    decreases |s|, 1
  {
    match ReadKey(kind, s)
    case None => None
    case Some((key, s1)) =>
      match ReadValue(s1)
      case None => None
      case Some((value, s2)) =>
        var (after, s3) := SpanSpace(s2);
        assert |after + s3| == |s2|;
        match ReadRest(kind, s3)
        case None => None
        case Some((next, rest, r)) => Some((Entry(key, value, after, next, rest), r))
  }

  /** What follows an entry: the closing bracket, or a comma and more entries. */
  function ReadRest(kind: Kind, s: string): (r: Option<(string, Body, string)>)
    ensures r.Some? ==> |r.value.2| <= |s|
    decreases |s|, 0
  {
    if s == [] then None
    else if s[0] == Closer(kind) then Some(([], Nil, s[1..]))
    else if s[0] == ',' then
      var (next, t) := SpanSpace(s[1..]);
      assert |next + t| == |s[1..]|;
      match ReadBody(kind, t)
      case None => None
      case Some((rest, r)) => Some((next, rest, r))
    else None
  }

  /** A whole JSON text (section 2): white space, a value, white space. */
  function ReadDocument(s: string): Option<Value> {
    match ReadValue(SpanSpace(s).1)
    case None => None
    case Some((v, r)) => if AllSpace(r) then Some(v) else None
  }

  /** json.Valid. */
  predicate JsonValid(s: string) { ReadDocument(s).Some? }

  // ---- soundness: what is read is in the grammar ------------------------------------------------

  lemma ItemSound(s: string)
    requires ReadItem(s).Some?
    ensures var (i, r) := ReadItem(s).value; ItemOk(i) && s == WriteItem(i, r)
  {
    if s[0] == '\\' && |s| >= 6 && s[1] == 'u' && ItemOk(Unicode(s[2..6])) {
      assert s == ['\\'] + (['u'] + (s[2..6] + s[6..]));
    } else if s[0] == '\\' {
      assert s == ['\\'] + ([s[1]] + s[2..]);
    } else {
      assert s == [s[0]] + s[1..];
    }
  }

  lemma {:induction false} ItemsSound(s: string)
    requires ReadItems(s).Some?
    ensures var (items, r) := ReadItems(s).value; ItemsOk(items) && s == WriteItems(items, r)
    decreases |s|
  {
    if s[0] != '"' {
      ItemSound(s);
      var (item, rest) := ReadItem(s).value;
      ItemsSound(rest);
      var (items, r) := ReadItems(rest).value;
      assert ([item] + items)[1..] == items;
    }
  }

  lemma KeySound(kind: Kind, s: string)
    requires ReadKey(kind, s).Some?
    ensures var (key, r) := ReadKey(kind, s).value; KeyOk(kind, key) && s == WriteKey(key, r)
  {
    if kind == Object {
      ItemsSound(s[1..]);
      var (name, r) := ReadItems(s[1..]).value;
      var (before, r1) := SpanSpace(r);
      assert s == ['"'] + s[1..];
      assert r1 == [r1[0]] + r1[1..];
    }
  }

  lemma {:induction false} ValueSound(s: string)
    requires ReadValue(s).Some?
    ensures var (v, r) := ReadValue(s).value; ValueOk(v) && s == Write(v, r)
    decreases |s|, 0
  {
    assert s == [s[0]] + s[1..];
    if s[0] == '{' {
      GroupSound(Object, s[1..]);
    } else if s[0] == '[' {
      GroupSound(Array, s[1..]);
    } else if s[0] == '"' {
      ItemsSound(s[1..]);
    }
  }

  lemma {:induction false} GroupSound(kind: Kind, s: string)
    requires ReadGroup(kind, s).Some?
    ensures var (v, r) := ReadGroup(kind, s).value; ValueOk(v) && [Opener(kind)] + s == Write(v, r)
    decreases |s|, 2
  {
    var (ws, t) := SpanSpace(s);
    if t != [] && t[0] == Closer(kind) {
      assert t == [t[0]] + t[1..];
    } else {
      BodySound(kind, t);
    }
  }

  lemma {:induction false} BodySound(kind: Kind, s: string)
    requires ReadBody(kind, s).Some?
    ensures var (b, r) := ReadBody(kind, s).value; b.Entry? && BodyOk(kind, b) && s == WriteBody(kind, b, r)
    decreases |s|, 1
  {
    KeySound(kind, s);
    var (key, s1) := ReadKey(kind, s).value;
    ValueSound(s1);
    var (value, s2) := ReadValue(s1).value;
    var (after, s3) := SpanSpace(s2);
    assert |after + s3| == |s2|;
    RestSound(kind, s3);
  }

  lemma {:induction false} RestSound(kind: Kind, s: string)
    requires ReadRest(kind, s).Some?
    ensures var (next, rest, r) := ReadRest(kind, s).value;
      AllSpace(next) && BodyOk(kind, rest) && (rest.Nil? ==> next == []) && s == WriteRest(kind, next, rest, r)
    decreases |s|, 0
  {
    assert s == [s[0]] + s[1..];
    if s[0] != Closer(kind) {
      var (next, t) := SpanSpace(s[1..]);
      assert |next + t| == |s[1..]|;
      BodySound(kind, t);
    }
  }

  // ---- completeness: what the grammar derives is read back ---------------------------------------

  lemma {:induction false} SpanSpaceExact(w: string, t: string)
    requires AllSpace(w) && (t != [] ==> !JsonSpace(t[0]))
    ensures SpanSpace(w + t) == (w, t)
  {
    if w != [] {
      assert (w + t)[1..] == w[1..] + t;
      SpanSpaceExact(w[1..], t);
      assert [w[0]] + w[1..] == w;
    } else {
      assert w + t == t;
    }
  }

  lemma {:induction false} SpanNumberExact(w: string, t: string)
    requires AllNumber(w) && (t != [] ==> !NumberChar(t[0]))
    ensures SpanNumber(w + t) == (w, t)
  {
    if w != [] {
      assert (w + t)[1..] == w[1..] + t;
      SpanNumberExact(w[1..], t);
      assert [w[0]] + w[1..] == w;
    } else {
      assert w + t == t;
    }
  }

  lemma {:induction false} NumberCharsOnly(a: NumberAt, t: string)
    requires NumberEnd(a, t) != Bad
    ensures AllNumber(t)
    decreases |t|
  {
    if t != [] {
      BadStays(t[1..]);
      NumberCharsOnly(NumberStep(a, t[0]), t[1..]);
      forall i | 0 <= i < |t| ensures NumberChar(t[i]) {
        if i > 0 { assert t[i] == t[1..][i - 1]; }
      }
    }
  }

  lemma {:induction false} BadStays(t: string)
    ensures NumberEnd(Bad, t) == Bad
  {
    if t != [] { BadStays(t[1..]); }
  }

  lemma ItemComplete(i: Item, r: string)
    requires ItemOk(i)
    ensures ReadItem(WriteItem(i, r)) == Some((i, r)) && WriteItem(i, r) != [] && WriteItem(i, r)[0] != '"'
  {
    if i.Unicode? {
      var s := WriteItem(i, r);
      assert s == (['\\', 'u'] + i.hex) + r;
      assert s[2..6] == i.hex && s[6..] == r;
    } else if i.Escape? {
      assert WriteItem(i, r)[2..] == r;
    } else {
      assert WriteItem(i, r)[1..] == r;
    }
  }

  lemma {:induction false} ItemsComplete(items: seq<Item>, r: string)
    requires ItemsOk(items)
    ensures ReadItems(WriteItems(items, r)) == Some((items, r))
  {
    if items != [] {
      ItemsComplete(items[1..], r);
      ItemComplete(items[0], WriteItems(items[1..], r));
      assert [items[0]] + items[1..] == items;
    }
  }

  lemma KeyComplete(kind: Kind, key: Key, r: string)
    requires KeyOk(kind, key) && (r != [] ==> !JsonSpace(r[0]))
    ensures ReadKey(kind, WriteKey(key, r)) == Some((key, r))
  {
    if key.Key? {
      var t := [':'] + (key.colon + r);
      ItemsComplete(key.name, key.before + t);
      SpanSpaceExact(key.before, t);
      assert t[1..] == key.colon + r;
      SpanSpaceExact(key.colon, r);
      assert WriteKey(key, r)[1..] == WriteItems(key.name, key.before + t);
    }
  }

  /** A value's text starts with neither white space nor a closing bracket, comma or colon. */
  lemma ValueStart(v: Value, r: string)
    requires ValueOk(v)
    ensures Write(v, r) != []
    ensures var c := Write(v, r)[0]; !JsonSpace(c) && c != ']' && c != '}' && c != ',' && c != ':'
  {
    if v.Number? { NumberStart(v.digits); }
  }

  lemma NumberStart(t: string)
    requires IsNumber(t)
    ensures t != [] && (t[0] == '-' || Digit(t[0]))
  {
    if t != [] { BadStays(t[1..]); }
  }

  /** Text after which a number cannot go on. */
  predicate Ends(r: string) { r != [] ==> !NumberChar(r[0]) }

  lemma {:induction false} ValueComplete(v: Value, r: string)
    requires ValueOk(v) && Ends(r)
    ensures ReadValue(Write(v, r)) == Some((v, r))
    decreases v, 0
  {
    match v
    case Literal(w) => WordComplete(w, r);
    case Number(t) => NumberComplete(t, r);
    case String(items) =>
      ItemsComplete(items, r);
      assert Write(v, r)[1..] == WriteItems(items, r);
    case Group(kind, ws, body) =>
      var s := ws + WriteBody(kind, body, r);
      assert Write(v, r)[1..] == s;
      BodyComplete(kind, body, r);
      SpanSpaceExact(ws, WriteBody(kind, body, r));
      if body.Nil? {
        assert WriteBody(kind, body, r)[1..] == r;
      }
  }

  lemma WordComplete(w: string, r: string)
    requires ValueOk(Literal(w))
    ensures ReadValue(Write(Literal(w), r)) == Some((Literal(w), r))
  {
    var s := w + r;
    assert s[0] == w[0];
    if w == "false" {
      assert s[..5] == w && s[5..] == r && s[0] == 'f';
      assert !StartsWith(s, "null") && !StartsWith(s, "true");
    } else {
      assert s[..4] == w && s[4..] == r;
      assert w == "true" ==> s[..4] != "null";
    }
  }

  lemma NumberComplete(t: string, r: string)
    requires IsNumber(t) && Ends(r)
    ensures ReadValue(Write(Number(t), r)) == Some((Number(t), r))
  {
    NumberCharsOnly(Begin, t);
    SpanNumberExact(t, r);
    NumberStart(t);
    assert (t + r)[0] == t[0];
  }

  /** A body that closes at once starts with its closing bracket; any other starts with a key's
      quote or a value, and is read back. */
  lemma {:induction false} BodyComplete(kind: Kind, b: Body, r: string)
    requires BodyOk(kind, b)
    ensures WriteBody(kind, b, r) != [] && !JsonSpace(WriteBody(kind, b, r)[0])
    ensures b.Entry? ==> WriteBody(kind, b, r)[0] != Closer(kind)
    ensures b.Entry? ==> ReadBody(kind, WriteBody(kind, b, r)) == Some((b, r))
    decreases b, 0
  {
    if b.Entry? {
      var t := WriteRest(kind, b.next, b.rest, r);
      var u := Write(b.value, b.after + t);
      EntryStart(kind, b.key, b.value, b.after + t);
      KeyComplete(kind, b.key, u);
      AfterValue(b.after, t);
      ValueComplete(b.value, b.after + t);
      SpanSpaceExact(b.after, t);
      RestComplete(kind, b.next, b.rest, r);
    }
  }

  lemma {:induction false} RestComplete(kind: Kind, next: string, rest: Body, r: string)
    requires AllSpace(next) && BodyOk(kind, rest) && (rest.Nil? ==> next == [])
    ensures ReadRest(kind, WriteRest(kind, next, rest, r)) == Some((next, rest, r))
    decreases rest, 1
  {
    var t := WriteRest(kind, next, rest, r);
    if rest.Nil? {
      assert t[1..] == r;
    } else {
      BodyComplete(kind, rest, r);
      assert t[1..] == next + WriteBody(kind, rest, r);
      SpanSpaceExact(next, WriteBody(kind, rest, r));
    }
  }

  lemma EntryStart(kind: Kind, key: Key, v: Value, t: string)
    requires KeyOk(kind, key) && ValueOk(v)
    ensures Write(v, t) != [] && !JsonSpace(Write(v, t)[0])
    ensures WriteKey(key, Write(v, t)) != []
    ensures !JsonSpace(WriteKey(key, Write(v, t))[0]) && WriteKey(key, Write(v, t))[0] != Closer(kind)
  {
    ValueStart(v, t);
  }

  lemma AfterValue(after: string, t: string)
    requires AllSpace(after) && t != [] && !NumberChar(t[0])
    ensures Ends(after + t)
  {
    if after != [] { assert (after + t)[0] == after[0]; }
  }

  /** The reader accepts exactly the texts the grammar derives. */
  lemma ValidIffDerivable(s: string)
    ensures JsonValid(s) <==>
            exists w, v, r :: AllSpace(w) && ValueOk(v) && AllSpace(r) && s == w + Write(v, r)
  {
    if JsonValid(s) {
      ValueSound(SpanSpace(s).1);
      var (v, r) := ReadValue(SpanSpace(s).1).value;
      assert s == SpanSpace(s).0 + Write(v, r);
    }
    if w, v, r :| AllSpace(w) && ValueOk(v) && AllSpace(r) && s == w + Write(v, r) {
      DocumentComplete(w, v, r);
    }
  }

  lemma DocumentComplete(w: string, v: Value, r: string)
    requires AllSpace(w) && ValueOk(v) && AllSpace(r)
    ensures ReadDocument(w + Write(v, r)) == Some(v)
  {
    ValueStart(v, r);
    SpanSpaceExact(w, Write(v, r));
    ValueComplete(v, r);
  }
}
