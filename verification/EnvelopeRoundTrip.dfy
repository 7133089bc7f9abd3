/** What goes into an envelope comes out of ParseEnvelopeVerdict. */
module EnvelopeRoundTrip {
  import opened Strings
  import opened JsonText
  import opened Options
  import opened JsonParser
  import opened BraceScanner
  import opened JsonScan
  import opened Selection
  import opened Envelope
  import F = Fences

  ghost predicate Covers(v: Value, keys: seq<string>)
    requires IsObject(v)
  {
    forall k <- keys :: k in Names(v.body)
  }

  lemma ObjectText(v: Value, keys: seq<string>)
    requires IsObject(v)
    ensures ReadDocument(Text(v)) == Some(v) && Text(v) != []
    ensures Qualifies(Text(v), keys) <==> Covers(v, keys)
  {
    assert [] + Text(v) == Text(v);
    DocumentComplete([], v, []);
  }

  /** Whether prose opens a fence does not depend on which JSON text stands in it. */
  lemma FenceFreeAround(pre: string, v: Value, w: Value, post: string)
    requires ValueOk(v) && ValueOk(w) && F.NoFence(pre + Text(v) + post)
    ensures F.NoFence(pre + Text(w) + post)
  {
    F.NoFenceIsRun(pre + Text(v) + post);
    F.NoFenceIsRun(pre + Text(w) + post);
    FenceAround(pre, v, post);
    FenceAround(pre, w, post);
  }

  lemma FenceAround(pre: string, v: Value, post: string)
    requires ValueOk(v)
    ensures F.FenceRun(F.Margin, pre + Text(v) + post) ==
      if F.FenceRun(F.Margin, pre) == F.Seen then F.Seen else F.FenceRun(F.Inner, post)
  {
    WriteIsText(v, post);
    Regroup(pre, Text(v), post);
    F.FenceRunConcat(F.Margin, pre, Write(v, post));
    if F.FenceRun(F.Margin, pre) == F.Seen {
      F.SeenStays(Write(v, post));
    } else {
      FenceValue(F.FenceRun(F.Margin, pre), v, post);
    }
  }

  /** No line of a JSON text opens a fence. */
  lemma JsonHasNoFence(v: Value)
    requires ValueOk(v)
    ensures F.NoFence(Text(v))
  {
    F.NoFenceIsRun(Text(v));
    FenceValue(F.Margin, v, []);
  }

  /** The empty object, standing for "some object" in a description of the prose around it. */
  const SOME_OBJECT := Group(Object, [], Nil)

  /** A verdict standing bare in brace- and fence-free prose is selected. */
  lemma SelectBare(pre: string, v: Value, post: string, keys: seq<string>)
    requires IsObject(v) && Covers(v, keys)
    requires '{' !in pre && '{' !in post && F.NoFence(pre + Text(SOME_OBJECT) + post)
    ensures Select(pre + Text(v) + post, keys) == Text(v)
  {
    FenceFreeAround(pre, SOME_OBJECT, v, post);
    SelectInProse(pre + Text(v) + post, keys);
    ObjectFound(pre, v, post);
    ObjectText(v, keys);
    PickOnly(Text(v), keys);
  }

  lemma PickOnly(block: string, keys: seq<string>)
    ensures Pick([block], keys) == if Qualifies(block, keys) then block else []
  {
    hide Qualifies;
    assert [block][..0] == [];
  }

  /** A key and a value are followed by what they are followed by. */
  lemma EntryPrefix(key: Key, v: Value, after: string, t: string)
    ensures WriteKey(key, Write(v, after + t)) == (WriteKey(key, []) + (Text(v) + after)) + t
  {
    WriteIsText(v, after + t);
    WriteKeyAppends(key, [], Write(v, after + t));
    assert [] + Write(v, after + t) == Write(v, after + t);
    Regroup(Text(v), after, t);
    Regroup(WriteKey(key, []), Text(v) + after, t);
  }

  lemma {:induction false} BodyEnds(kind: Kind, b: Body)
    ensures var t := WriteBody(kind, b, []); t != [] && t[|t| - 1] == Closer(kind)
    decreases b
  {
    if b.Entry? {
      EntryPrefix(b.key, b.value, b.after, WriteRest(kind, b.next, b.rest, []));
      if b.rest.Entry? { BodyEnds(kind, b.rest); }
    }
  }

  lemma ObjectTrimmed(v: Value)
    requires IsObject(v)
    ensures TrimSpace(Text(v)) == Text(v)
  {
    BodyEnds(Object, v.body);
    TrimmedIsFixed(Text(v));
  }

  /** The verdict inside a fence: `open` and `close` are fence lines, `open` with an empty or json
      info string. */
  function FencedText(pre: string, open: string, v: Value, close: string, post: string): string {
    pre + ['\n'] + (open + ['\n'] + (Text(v) + ['\n'] + (close + ['\n'] + post)))
  }

  lemma FencedLines(pre: string, open: string, v: Value, close: string, post: string)
    requires '\n' !in open && '\n' !in close
    ensures Split(FencedText(pre, open, v, close, post), '\n')
         == Split(pre, '\n') + ([open] + (Split(Text(v), '\n') + ([close] + Split(post, '\n'))))
  {
    hide *;
    SplitAppend(pre, open + ['\n'] + (Text(v) + ['\n'] + (close + ['\n'] + post)), '\n');
    SplitAppend(open, Text(v) + ['\n'] + (close + ['\n'] + post), '\n');
    SplitAppend(Text(v), close + ['\n'] + post, '\n');
    SplitAppend(close, post, '\n');
    SplitOne(open, '\n');
    SplitOne(close, '\n');
    FencedTextIs(pre, open, v, close, post);
  }

  lemma FencedTextIs(pre: string, open: string, v: Value, close: string, post: string)
    ensures FencedText(pre, open, v, close, post)
         == pre + ['\n'] + (open + ['\n'] + (Text(v) + ['\n'] + (close + ['\n'] + post)))
  {
  }

  /** In lines with just two fence lines, one fenced block is found. */
  lemma TwoMarks(a: seq<string>, open: string, body: seq<string>, close: string, b: seq<string>)
    requires F.IsFence(open) && F.JsonInfo(open) && F.IsFence(close)
    requires forall i | 0 <= i < |a| :: !F.IsFence(a[i])
    requires forall i | 0 <= i < |body| :: !F.IsFence(body[i])
    requires forall i | 0 <= i < |b| :: !F.IsFence(b[i])
    ensures F.FencedFrom(a + ([open] + (body + ([close] + b))), 0) == [TrimSpace(Join(body, '\n'))]
  {
    hide F.IsFence;
    hide F.JsonInfo;
    hide F.FencedFrom;
    hide TrimSpace;
    hide Join;
    var lines := a + ([open] + (body + ([close] + b)));
    var o, c := |a|, |a| + 1 + |body|;
    assert forall i | 0 <= i < o :: lines[i] == a[i];
    assert forall i | o < i < c :: lines[i] == body[i - o - 1];
    assert forall i | c < i < |lines| :: lines[i] == b[i - c - 1];
    assert lines[o + 1..c] == body;
    TwoMarksAt(lines, o, c);
  }

  lemma TwoMarksAt(lines: seq<string>, o: nat, c: nat)
    requires o < c < |lines| && F.IsFence(lines[o]) && F.JsonInfo(lines[o]) && F.IsFence(lines[c])
    requires forall i | 0 <= i < |lines| && i != o && i != c :: !F.IsFence(lines[i])
    ensures F.FencedFrom(lines, 0) == [F.Body(lines, o, c)]
  {
    hide F.IsFence;
    hide F.JsonInfo;
    hide F.Body;
    F.NoMarks(lines, 0, o);
    F.OneFence(lines, o, c);
    F.NoMarks(lines, c + 1, |lines|);
    F.PastTheEnd(lines, |lines|);
  }

  /** A fenced verdict is selected, whatever braces the prose around the fence has. */
  lemma SelectFenced(pre: string, open: string, v: Value, close: string, post: string, keys: seq<string>)
    requires IsObject(v) && Covers(v, keys)
    requires '\n' !in open && '\n' !in close && F.IsFence(open) && F.JsonInfo(open) && F.IsFence(close)
    requires F.NoFence(pre) && F.NoFence(post)
    ensures Select(FencedText(pre, open, v, close, post), keys) == Text(v)
  {
    JsonHasNoFence(v);
    TwoMarks(Split(pre, '\n'), open, Split(Text(v), '\n'), close, Split(post, '\n'));
    FencedLines(pre, open, v, close, post);
    JoinSplit(Text(v), '\n');
    ObjectTrimmed(v);
    ObjectText(v, keys);
    ObjectFound([], v, []);
    OneFenceSelects(FencedText(pre, open, v, close, post), Text(v), keys);
  }

  lemma OneFenceSelects(s: string, block: string, keys: seq<string>)
    requires F.FencedFrom(Split(s, '\n'), 0) == [block] && Qualifies(block, keys) && block != []
    requires Blocks([] + block + []) == [block]
    ensures Select(s, keys) == block
  {
    hide Qualifies;
    hide Blocks;
    hide F.FencedFrom;
    assert [] + block + [] == block && [block][..0] == [];
    NextFence([block], 0);
    assert [block][..1] == [block];
    NoFences();
    assert [] + Blocks(block) == [block];
    PickOnly(block, keys);
  }

  // ---- the envelope --------------------------------------------------------------------------

  /** An envelope object whose fields read as `text` and "no error". */
  ghost predicate Carries(e: Value, text: string) {
    IsObject(e) && SetFields(Fields([], false), e.body) == Some(Fields(text, false)) && text != []
  }

  lemma EnvelopeSelects(e: Value, keys: seq<string>)
    requires IsObject(e)
    ensures Select(Text(e), keys) == if Covers(e, keys) then Text(e) else []
  {
    JsonHasNoFence(e);
    SelectInProse(Text(e), keys);
    ObjectFound([], e, []);
    assert [] + Text(e) + [] == Text(e);
    ObjectText(e, keys);
    PickOnly(Text(e), keys);
  }

  /** The direct attempt takes the envelope for the verdict exactly when all required keys are
      members of the envelope itself. */
  lemma DirectMatchIff(e: Value, text: string, keys: seq<string>)
    requires Carries(e, text) && keys != []
    ensures Covers(e, keys) ==> Verdict(Text(e), keys) == Ok(Text(e))
    ensures !Covers(e, keys) ==>
      Verdict(Text(e), keys) == if Select(text, keys) == [] then Failed(NoVerdict(text)) else Ok(Select(text, keys))
  {
    hide Select;
    EnvelopeSelects(e, keys);
    ObjectText(e, keys);
    UnwrapCarried(e, text);
  }

  lemma UnwrapCarried(e: Value, text: string)
    requires Carries(e, text)
    ensures Unwrap(Text(e)) == Ok(text)
  {
    ObjectText(e, []);
  }

  /** Envelope round trip, bare verdict. The envelope may be spelled in any way; one required key,
      if keys are required at all, is not an envelope key. */
  lemma EnvelopeRoundTripBare(e: Value, pre: string, v: Value, post: string, keys: seq<string>)
    requires Carries(e, pre + Text(v) + post)
    requires keys == [] || !Covers(e, keys)
    requires IsObject(v) && Covers(v, keys)
    requires '{' !in pre && '{' !in post && F.NoFence(pre + Text(SOME_OBJECT) + post)
    ensures Verdict(Text(e), keys) == Ok(Text(v))
  {
    SelectBare(pre, v, post, keys);
    ObjectText(v, keys);
    EnvelopeResult(e, pre + Text(v) + post, v, keys);
  }

  /** Envelope round trip, fenced verdict. */
  lemma EnvelopeRoundTripFenced(
      e: Value, pre: string, open: string, v: Value, close: string, post: string, keys: seq<string>)
    requires Carries(e, FencedText(pre, open, v, close, post))
    requires keys == [] || !Covers(e, keys)
    requires IsObject(v) && Covers(v, keys)
    requires '\n' !in open && '\n' !in close && F.IsFence(open) && F.JsonInfo(open) && F.IsFence(close)
    requires F.NoFence(pre) && F.NoFence(post)
    ensures Verdict(Text(e), keys) == Ok(Text(v))
  {
    SelectFenced(pre, open, v, close, post, keys);
    ObjectText(v, keys);
    EnvelopeResult(e, FencedText(pre, open, v, close, post), v, keys);
  }

  lemma EnvelopeResult(e: Value, text: string, v: Value, keys: seq<string>)
    requires Carries(e, text) && (keys == [] || !Covers(e, keys))
    requires Select(text, keys) == Text(v) && Text(v) != []
    ensures Verdict(Text(e), keys) == Ok(Text(v))
  {
    hide Select;
    EnvelopeSelects(e, keys);
    UnwrapCarried(e, text);
  }

  // ---- an envelope for every text ------------------------------------------------------------

  function HexChar(n: int): char
    requires 0 <= n < 16
  {
    if n < 10 then (n + '0' as int) as char else (n - 10 + 'a' as int) as char
  }

  function EncodeChar(c: char): (i: Item)
    ensures ItemOk(i)
  {
    if c == '"' || c == '\\' then Escape(c)
    else if c < ' ' then Unicode(['0', '0', HexChar(c as int / 16), HexChar(c as int % 16)])
    else Plain(c)
  }

  function Encode(text: string): (items: seq<Item>)
    ensures |items| == |text| && forall i | 0 <= i < |text| :: items[i] == EncodeChar(text[i])
  {
    if text == [] then [] else [EncodeChar(text[0])] + Encode(text[1..])
  }

  /** Encoding and decoding a string literal are inverse. */
  lemma {:induction false} DecodeEncode(text: string)
    ensures ItemsOk(Encode(text)) && Decode(Encode(text)) == text
  {
    hide Decode;
    hide EncodeChar;
    if text == [] {
      DecodeNothing();
    } else {
      DecodeEncode(text[1..]);
      DecodeFirst(text[0], Encode(text[1..]));
      assert text == [text[0]] + text[1..];
    }
  }

  lemma DecodeNothing()
    ensures Decode([]) == []
  {
  }

  lemma DecodeFirst(c: char, items: seq<Item>)
    requires ItemsOk(items)
    ensures ItemsOk([EncodeChar(c)] + items) && Decode([EncodeChar(c)] + items) == [c] + Decode(items)
  {
    var all := [EncodeChar(c)] + items;
    assert all[0] == EncodeChar(c) && all[1..] == items;
    if c < ' ' {
      CodeUnitOfEncoded(c);
      hide CodeUnit;
    }
  }

  lemma CodeUnitOfEncoded(c: char)
    requires c < ' '
    ensures CodeUnit(EncodeChar(c).hex) == c as int
  {
  }

  function Member(name: string, v: Value, rest: Body): Body {
    Entry(Key(Encode(name), [], []), v, [], [], rest)
  }

  /** `{"type":"result","is_error":false,"result":...}`, as the CLI prints it. */
  function Wrap(text: string, isError: bool := false): Value {
    Group(Object, [], Member("type", String(Encode("result")), Member("is_error", Literal(if isError then "true" else "false"),
      Member("result", String(Encode(text)), Nil))))
  }

  lemma WrapCarries(text: string)
    requires text != []
    ensures Carries(Wrap(text), text)
    ensures Names(Wrap(text).body) == {"type", "is_error", "result"}
  {
    hide Wrap;
    WrapReads(text, false);
  }

  /** An object whose members read as the fields of an envelope. */
  ghost predicate Reads(e: Value, text: string, isError: bool) {
    IsObject(e) && SetFields(Fields([], false), e.body) == Some(Fields(text, isError))
  }

  lemma WrapReads(text: string, isError: bool)
    ensures Reads(Wrap(text, isError), text, isError)
    ensures Names(Wrap(text, isError).body) == {"type", "is_error", "result"}
  {
    DecodeEncode(text);
    DecodeEncode("type");
    DecodeEncode("is_error");
    DecodeEncode("result");
    FoldedNames();
    hide FoldName;
    hide Decode;
    hide Encode;
    var v3 := String(Encode(text));
    var b3 := Member("result", v3, Nil);
    var flag := Literal(if isError then "true" else "false");
    var b2 := Member("is_error", flag, b3);
    assert BodyOk(Object, b3) && BodyOk(Object, b2) && BodyOk(Object, Wrap(text, isError).body);
    assert Names(b3) == {"result"};
    assert SetField(Fields([], false), "type", String(Encode("result"))) == Some(Fields([], false));
    assert SetField(Fields([], false), "is_error", flag) == Some(Fields([], isError));
    assert SetField(Fields([], isError), "result", v3) == Some(Fields(text, isError));
    assert SetFields(Fields([], isError), b3) == Some(Fields(text, isError));
    assert SetFields(Fields([], false), b2) == Some(Fields(text, isError));
  }

  lemma FoldedNames()
    ensures FoldName("type") == "type" && FoldName("is_error") == "is_error" && FoldName("result") == "result"
  {
    hide FoldName;
    FoldLower("type");
    FoldLower("is_error");
    FoldLower("result");
  }

  lemma {:induction false} FoldLower(name: string)
    requires forall i | 0 <= i < |name| :: name[i] == '_' || 'a' <= name[i] <= 'z'
    ensures FoldName(name) == name
  {
    if name != [] {
      FoldLower(name[1..]);
      assert name == [name[0]] + name[1..];
    }
  }

  /** For the envelope the CLI prints: unless every required key is `type`, `is_error` or `result`,
      a bare verdict in brace- and fence-free prose survives the trip. */
  lemma WrappedVerdictReturns(pre: string, v: Value, post: string, keys: seq<string>)
    requires IsObject(v) && Covers(v, keys)
    requires keys == [] || exists k :: k in keys && k !in {"type", "is_error", "result"}
    requires '{' !in pre && '{' !in post && F.NoFence(pre + Text(SOME_OBJECT) + post)
    ensures Verdict(Text(Wrap(pre + Text(v) + post)), keys) == Ok(Text(v))
  {
    var text := pre + Text(v) + post;
    ObjectText(v, keys);
    WrapCarries(text);
    hide *;
    WrapNeedsKey(text, keys);
    EnvelopeRoundTripBare(Wrap(text), pre, v, post, keys);
  }

  lemma WrapNeedsKey(text: string, keys: seq<string>)
    requires IsObject(Wrap(text)) && Names(Wrap(text).body) == {"type", "is_error", "result"}
    ensures (exists k :: k in keys && k !in {"type", "is_error", "result"}) ==> !Covers(Wrap(text), keys)
  {
    hide Wrap;
  }

  /** The direct attempt does take such an envelope for the verdict: asked for `result` alone, the
      extractor returns the whole envelope instead of what it carries. */
  lemma EnvelopeTaken(text: string)
    requires text != []
    ensures Verdict(Text(Wrap(text)), ["result"]) == Ok(Text(Wrap(text)))
  {
    WrapCarries(text);
    hide *;
    assert Carries(Wrap(text), text);
    ResultCovered(text);
    DirectMatchIff(Wrap(text), text, ["result"]);
  }

  lemma ResultCovered(text: string)
    requires IsObject(Wrap(text)) && Names(Wrap(text).body) == {"type", "is_error", "result"}
    ensures Covers(Wrap(text), ["result"])
  {
    hide Wrap;
  }
}
