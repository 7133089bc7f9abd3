/** What ParseEnvelopeVerdict answers for every envelope: errors, empty results, output around the
    envelope, and output that is none. */
module EnvelopeOutcomes {
  import opened Strings
  import opened JsonText
  import opened Options
  import opened JsonParser
  import opened BraceScanner
  import opened JsonScan
  import opened Selection
  import opened Envelope
  import opened EnvelopeRoundTrip
  import F = Fences

  // ---- one envelope ----------------------------------------------------------------------------

  /** The answer for an envelope that reads as `text` and `isError`, once the direct attempt is past. */
  function Answer(text: string, isError: bool, keys: seq<string>): Outcome<string> {
    if isError then Failed(ReportedError(text))
    else if text == "" then Failed(EmptyResult)
    else if Select(text, keys) == "" then Failed(NoVerdict(text))
    else Ok(Select(text, keys))
  }

  /** Every envelope without all required keys is answered by its fields: an error by its text, whatever
      verdict that text may hold; an empty result and a result without a verdict by their own errors. */
  lemma EnvelopeAnswered(e: Value, text: string, isError: bool, keys: seq<string>)
    requires Reads(e, text, isError) && (keys == [] || !Covers(e, keys))
    ensures Verdict(Text(e), keys) == Answer(text, isError, keys)
  {
    hide Select;
    EnvelopeSelects(e, keys);
    ObjectText(e, keys);
    hide SetFields;
  }

  /** The CLI's error envelope: no verdict is taken from it. */
  lemma ErrorReported(text: string, keys: seq<string>)
    requires keys == [] || exists k :: k in keys && k !in {"type", "is_error", "result"}
    ensures Verdict(Text(Wrap(text, true)), keys) == Failed(ReportedError(text))
  {
    hide Select;
    WrapReads(text, true);
    CoversNot(text, keys);
    EnvelopeAnswered(Wrap(text, true), text, true, keys);
    hide Wrap;
    hide Covers;
    hide Reads;
  }

  lemma CoversNot(text: string, keys: seq<string>)
    requires IsObject(Wrap(text, true)) && Names(Wrap(text, true).body) == {"type", "is_error", "result"}
    ensures (exists k :: k in keys && k !in {"type", "is_error", "result"}) ==> !Covers(Wrap(text, true), keys)
  {
    hide Wrap;
  }

  /** For example this one, whose text holds a perfect verdict. */
  lemma ErrorExample()
    ensures Verdict(Text(Wrap("{\"approve\":true}", true)), ["approve"]) == Failed(ReportedError("{\"approve\":true}"))
  {
    assert "approve" in ["approve"];
    ErrorReported("{\"approve\":true}", ["approve"]);
  }

  /** An envelope a member of which has the wrong type is no envelope. */
  lemma WrongTypes(e: Value, keys: seq<string>)
    requires IsObject(e) && SetFields(Fields([], false), e.body) == None
    requires keys == [] || !Covers(e, keys)
    ensures Verdict(Text(e), keys) == Failed(NotJson)
  {
    hide Select;
    EnvelopeSelects(e, keys);
    ObjectText(e, keys);
    ObjectFound([], e, []);
    assert [] + Text(e) + [] == Text(e);
    hide SetFields;
  }

  // ---- output around the envelope --------------------------------------------------------------

  /** Whatever brace-free output surrounds the envelope, its fields are read. */
  lemma NoiseIgnored(pre: string, e: Value, post: string, text: string, isError: bool)
    requires Reads(e, text, isError) && '{' !in pre && '{' !in post
    ensures EnvelopeFields(pre + Text(e) + post) == Some(Fields(text, isError))
  {
    var out := pre + Text(e) + post;
    ObjectFound(pre, e, post);
    ObjectText(e, []);
    hide SetFields;
    hide ReadDocument;
    hide Blocks;
    if ReadDocument(out).Some? { WholeIsBlock(out, e); }
  }

  /** If the whole output is a JSON text it is the object itself, or nothing an envelope is read from. */
  lemma WholeIsBlock(out: string, e: Value)
    requires IsObject(e) && Blocks(out) == [Text(e)] && ReadDocument(out).Some?
    ensures ReadDocument(out) == Some(e) || (!IsObject(ReadDocument(out).value) && ReadDocument(out) != Some(Literal("null")))
  {
    var w, v, r := DocumentParts(out);
    ObjectText(e, []);
    if IsObject(v) {
      WriteIsText(v, r);
      SpaceBraceFree(w);
      SpaceBraceFree(r);
      assert w + (Text(v) + r) == w + Text(v) + r;
      ObjectFound(w, v, r);
      ObjectText(v, []);
    } else if v == Literal("null") {
      NullBraceFree(w, r);
      NoBlocks(out);
    }
    hide ReadDocument;
    hide Blocks;
  }

  lemma DocumentParts(out: string) returns (w: string, v: Value, r: string)
    requires ReadDocument(out).Some?
    ensures AllSpace(w) && ValueOk(v) && AllSpace(r) && out == w + Write(v, r) && ReadDocument(out) == Some(v)
  {
    hide ReadDocument;
    ValidIffDerivable(out);
    w, v, r :| AllSpace(w) && ValueOk(v) && AllSpace(r) && out == w + Write(v, r);
    DocumentComplete(w, v, r);
  }

  lemma NullBraceFree(w: string, r: string)
    requires AllSpace(w) && AllSpace(r)
    ensures '{' !in w + Write(Literal("null"), r)
  {
    SpaceBraceFree(w);
    SpaceBraceFree(r);
  }

  lemma SpaceBraceFree(w: string)
    requires AllSpace(w)
    ensures '{' !in w
  {
  }

  lemma NoBlocks(s: string)
    requires '{' !in s
    ensures Blocks(s) == []
  {
    FirstBraceFound(s);
    BraceFree(s);
    hide Blocks;
  }

  // ---- output without an envelope --------------------------------------------------------------

  /** Output without any brace is no envelope, but for a bare null, which reads as an empty one. */
  lemma BraceFreeOutput(out: string, keys: seq<string>)
    requires '{' !in out
    ensures Verdict(out, keys) == Failed(if ReadDocument(out) == Some(Literal("null")) then EmptyResult else NotJson)
  {
    hide *;
    NothingSelected(out, keys);
    NoBlocks(out);
    NothingRead(out);
    VerdictPlain(out, keys);
  }

  lemma VerdictPlain(out: string, keys: seq<string>)
    requires Select(out, keys) == [] && Blocks(out) == []
    requires Unmarshal(out) in {None, Some(Fields([], false))}
    ensures Verdict(out, keys) == Failed(if Unmarshal(out).Some? then EmptyResult else NotJson)
  {
    hide Select;
    hide Blocks;
    hide Unmarshal;
  }

  lemma NothingRead(out: string)
    requires '{' !in out
    ensures Unmarshal(out) == if ReadDocument(out) == Some(Literal("null")) then Some(Fields([], false)) else None
  {
    if ReadDocument(out).Some? { NotAnObject(out); }
    hide ReadDocument;
  }

  lemma NotAnObject(out: string)
    requires '{' !in out && ReadDocument(out).Some?
    ensures !IsObject(ReadDocument(out).value)
  {
    var w, v, r := DocumentParts(out);
    ObjectBegins(w, v, r);
    hide ReadDocument;
  }

  lemma ObjectBegins(w: string, v: Value, r: string)
    ensures IsObject(v) ==> '{' in w + Write(v, r)
  {
    if IsObject(v) { assert (w + Write(v, r))[|w|] == '{'; }
  }

  lemma NothingSelected(s: string, keys: seq<string>)
    requires '{' !in s
    ensures Select(s, keys) == []
  {
    NoBlocks(s);
    FencesBraceFree(s);
    NoFencedBlocks(F.Fenced(s));
    SelectUnfold(s, keys);
    hide F.Fenced;
    hide Blocks;
  }

  lemma {:induction false} NoFencedBlocks(fences: seq<string>)
    requires forall i | 0 <= i < |fences| :: '{' !in fences[i]
    ensures FencedBlocks(fences) == []
  {
    if fences != [] {
      NoFencedBlocks(fences[..|fences| - 1]);
      NoBlocks(fences[|fences| - 1]);
    }
    hide Blocks;
  }

  lemma FencesBraceFree(s: string)
    requires '{' !in s
    ensures forall i | 0 <= i < |F.Fenced(s)| :: '{' !in F.Fenced(s)[i]
  {
    var lines := Split(s, '\n');
    PiecesWithout(s, '\n', '{');
    F.MarksExact(lines, 0);
    PairedWithout(lines, F.Marks(lines, 0), '{');
    hide F.Paired;
    hide F.Marks;
    hide Split;
  }

  lemma {:induction false} PiecesWithout(s: string, sep: char, c: char)
    requires c !in s
    ensures forall p <- Split(s, sep) :: c !in p
  {
    if s != [] {
      PiecesWithout(s[1..], sep, c);
      SplitCons(s, sep);
      assert s[0] in s;
    }
    hide Split;
    if s == [] { SplitOne(s, sep); }
  }

  lemma {:induction false} JoinedWithout(parts: seq<string>, sep: char, c: char)
    requires c != sep && forall p <- parts :: c !in p
    ensures c !in Join(parts, sep)
  {
    if |parts| > 1 { JoinedWithout(parts[1..], sep, c); }
  }

  lemma {:induction false} PairedWithout(lines: seq<string>, marks: seq<nat>, c: char)
    requires forall k | 0 <= k < |marks| :: marks[k] < |lines| && F.IsFence(lines[marks[k]])
    requires forall j, k | 0 <= j < k < |marks| :: marks[j] < marks[k]
    requires c != '\n' && forall p <- lines :: c !in p
    ensures forall i | 0 <= i < |F.Paired(lines, marks)| :: c !in F.Paired(lines, marks)[i]
    decreases |marks|
  {
    hide F.IsFence;
    hide F.JsonInfo;
    hide F.Body;
    if marks != [] {
      var close := if |marks| > 1 then marks[1] else |lines|;
      BodyWithout(lines, marks[0], close, c);
      PairedWithout(lines, if |marks| > 1 then marks[2..] else [], c);
    }
  }

  lemma BodyWithout(lines: seq<string>, open: nat, close: nat, c: char)
    requires open < close <= |lines| && c != '\n' && forall p <- lines :: c !in p
    ensures c !in F.Body(lines, open, close)
  {
    JoinedWithout(lines[open + 1..close], '\n', c);
    TrimSpaceCuts(Join(lines[open + 1..close], '\n'));
    hide Join;
    hide TrimSpace;
  }

  // ---- reading members -------------------------------------------------------------------------

  /** Member names are matched in any case, as Go folds it. */
  lemma NamesFold()
    ensures FoldName("RESULT") == "result" && FoldName("Is_Error") == "is_error" && FoldName("re\U{17F}ult") == "result"
  {
    FoldEach("RESULT");
    FoldEach("Is_Error");
    FoldEach("re\U{17F}ult");
    hide FoldName;
    CharsFold();
    hide FoldChar;
    assert FoldName("RESULT") == ['r', 'e', 's', 'u', 'l', 't'];
    assert FoldName("Is_Error") == ['i', 's', '_', 'e', 'r', 'r', 'o', 'r'];
    assert FoldName("re\U{17F}ult") == ['r', 'e', 's', 'u', 'l', 't'];
  }

  lemma {:induction false} FoldEach(name: string)
    ensures |FoldName(name)| == |name| && forall i | 0 <= i < |name| :: FoldName(name)[i] == FoldChar(name[i])
  {
    if name != [] { FoldEach(name[1..]); }
    hide FoldChar;
  }

  lemma CharsFold()
    ensures FoldChar('R') == 'r' && FoldChar('E') == 'e' && FoldChar('S') == 's' && FoldChar('U') == 'u'
    ensures FoldChar('L') == 'l' && FoldChar('T') == 't' && FoldChar('I') == 'i' && FoldChar('_') == '_'
    ensures FoldChar('r') == 'r' && FoldChar('e') == 'e' && FoldChar('s') == 's' && FoldChar('o') == 'o'
    ensures FoldChar('u') == 'u' && FoldChar('l') == 'l' && FoldChar('t') == 't' && FoldChar('\U{17F}') == 's'
  {
  }

  /** The escapes of RFC 8259, section 7, by what they stand for. */
  lemma EscapesDecoded()
    ensures Decode([Escape('"')]) == "\"" && Decode([Escape('\\')]) == "\\" && Decode([Escape('/')]) == "/"
    ensures Decode([Escape('b')]) == ['\U{8}'] && Decode([Escape('f')]) == ['\U{C}'] && Decode([Escape('n')]) == "\n"
    ensures Decode([Escape('r')]) == "\r" && Decode([Escape('t')]) == "\t"
  {
  }

  /** A surrogate pair stands for its code point; half of one for the replacement character. */
  lemma SurrogatesDecoded(hi: string, lo: string)
    requires ItemOk(Unicode(hi)) && ItemOk(Unicode(lo))
    requires 0xD800 <= CodeUnit(hi) < 0xDC00 && 0xDC00 <= CodeUnit(lo) < 0xE000
    ensures Decode([Unicode(hi), Unicode(lo)]) == [(0x10000 + (CodeUnit(hi) % 0x400) * 0x400 + CodeUnit(lo) % 0x400) as char]
    ensures Decode([Unicode(hi)]) == ['\U{FFFD}'] && Decode([Unicode(lo)]) == ['\U{FFFD}']
  {
    hide CodeUnit;
    assert [Unicode(hi), Unicode(lo)][1..] == [Unicode(lo)] && [Unicode(lo)][1..] == [];
  }
}
