/** The CLI envelope around a verdict: unwrapEnvelope and ParseEnvelopeVerdict. */
module Envelope {
  import opened Strings
  import opened JsonText
  import opened Options
  import opened JsonParser
  import opened BraceScanner
  import opened JsonScan
  import opened Selection
  import F = Fences

  datatype Fields = Fields(result: string, isError: bool)

  datatype Failure = NotJson | ReportedError(text: string) | EmptyResult | NoVerdict(text: string)

  datatype Outcome<T> = Ok(value: T) | Failed(why: Failure)

  // ---- json.Unmarshal into the envelope ------------------------------------------------------

  /** Go matches member names to struct fields up to simple case folding. */
  function FoldChar(c: char): char {
    if c == '\U{17F}' then 's' else if c == '\U{212A}' then 'k' else F.Lower(c)
  }

  function FoldName(name: string): string {
    if name == [] then [] else [FoldChar(name[0])] + FoldName(name[1..])
  }

  /** One member; a value of the wrong type is an error, null and unknown members change nothing. */
  function SetField(env: Fields, name: string, v: Value): Option<Fields>
    requires ValueOk(v)
  {
    if FoldName(name) == "result" then
      if v.String? then Some(env.(result := Decode(v.items)))
      else if v == Literal("null") then Some(env) else None
    else if FoldName(name) == "is_error" then
      if v == Literal("true") then Some(env.(isError := true))
      else if v == Literal("false") then Some(env.(isError := false))
      else if v == Literal("null") then Some(env) else None
    else Some(env)
  }

  /** All members in order; the last one of a name wins. */
  function SetFields(env: Fields, b: Body): Option<Fields>
    requires BodyOk(Object, b)
    decreases b
  {
    if b.Nil? then Some(env)
    else
      match SetField(env, Decode(b.key.name), b.value)
      case None => None
      case Some(e) => SetFields(e, b.rest)
  }

  function Unmarshal(s: string): Option<Fields> {
    match ReadDocument(s)
    case None => None
    case Some(v) =>
      DocumentOk(s);
      if IsObject(v) then SetFields(Fields([], false), v.body)
      else if v == Literal("null") then Some(Fields([], false))
      else None
  }

  // ---- unwrapping ----------------------------------------------------------------------------

  method FirstJSONBlock(s: string) returns (r: string)
    ensures r == if Blocks(s) == [] then [] else Blocks(s)[0]
  {
    hide *;
    var blocks := JSONBlocks(s);
    r := if |blocks| == 0 then [] else blocks[0];
  }

  /** The fields of the output, read whole or from its first balanced block. */
  function EnvelopeFields(out: string): Option<Fields> {
    if Unmarshal(out).Some? then Unmarshal(out)
    else if Blocks(out) == [] then None
    else Unmarshal(Blocks(out)[0])
  }

  function Unwrap(out: string): Outcome<string> {
    match EnvelopeFields(out)
    case None => Failed(NotJson)
    case Some(env) =>
      if env.isError then Failed(ReportedError(env.result))
      else if env.result == [] then Failed(EmptyResult)
      else Ok(env.result)
  }

  method UnwrapEnvelope(out: string) returns (r: Outcome<string>)
    ensures r == Unwrap(out)
  {
    hide Unmarshal;
    hide Blocks;
    BlocksNotEmpty(out);
    var envl := Unmarshal(out);
    if envl.None? {
      var blk := FirstJSONBlock(out);
      if blk == [] {
        return Failed(NotJson);
      }
      envl := Unmarshal(blk);
      if envl.None? {
        return Failed(NotJson);
      }
    }
    if envl.value.isError {
      return Failed(ReportedError(envl.value.result));
    }
    if envl.value.result == [] {
      return Failed(EmptyResult);
    }
    return Ok(envl.value.result);
  }

  /** The verdict in the output: taken directly when the output itself has a qualifying object, else
      selected from the envelope's result. */
  function Verdict(out: string, keys: seq<string>): Outcome<string> {
    if keys != [] && Select(out, keys) != [] then Ok(Select(out, keys))
    else
      match Unwrap(out)
      case Failed(why) => Failed(why)
      case Ok(result) =>
        if Select(result, keys) == [] then Failed(NoVerdict(result)) else Ok(Select(result, keys))
  }

  method ParseEnvelopeVerdict(out: string, keys: seq<string>) returns (r: Outcome<string>)
    ensures r == Verdict(out, keys)
  {
    hide Select;
    hide Unwrap;
    if |keys| > 0 {
      var raw := SelectJSON(out, keys);
      if raw != [] {
        return Ok(raw);
      }
    }
    var result := UnwrapEnvelope(out);
    if result.Failed? {
      return Failed(result.why);
    }
    var raw := SelectJSON(result.value, keys);
    if raw == [] {
      return Failed(NoVerdict(result.value));
    }
    return Ok(raw);
  }

  // ---- JSON texts never look like fences -----------------------------------------------------

  /** A character that settles a line as prose wherever it comes first. */
  predicate Solid(c: char) { !IsSpace(c) && c != '`' && c != '\n' }

  lemma FenceSolid(a: F.At, c: char, r: string)
    requires a != F.Seen && Solid(c)
    ensures F.FenceRun(a, [c] + r) == F.FenceRun(F.Inner, r)
  {
    assert ([c] + r)[1..] == r;
  }

  lemma FenceInner(c: char, r: string)
    requires c != '\n'
    ensures F.FenceRun(F.Inner, [c] + r) == F.FenceRun(F.Inner, r)
  {
    assert ([c] + r)[1..] == r;
  }

  lemma {:induction false} FenceSpace(a: F.At, ws: string, c: char, r: string)
    requires a != F.Seen && AllSpace(ws) && Solid(c)
    ensures F.FenceRun(a, ws + ([c] + r)) == F.FenceRun(F.Inner, r)
    decreases |ws|
  {
    if ws != [] {
      assert (ws + ([c] + r))[1..] == ws[1..] + ([c] + r);
      FenceSpace(F.FenceStep(a, ws[0]), ws[1..], c, r);
    } else {
      assert ws + ([c] + r) == [c] + r;
      FenceSolid(a, c, r);
    }
  }

  /** A word without line breaks that starts with a solid character. */
  lemma {:induction false} FenceWord(a: F.At, w: string, r: string)
    requires a != F.Seen && w != [] && forall i | 0 <= i < |w| :: Solid(w[i])
    ensures F.FenceRun(a, w + r) == F.FenceRun(F.Inner, r)
    decreases |w|
  {
    assert w + r == [w[0]] + (w[1..] + r);
    FenceSolid(a, w[0], w[1..] + r);
    if |w| > 1 {
      FenceWord(F.Inner, w[1..], r);
    } else {
      assert w[1..] + r == r;
    }
  }

  lemma {:induction false} FenceItems(items: seq<Item>, r: string)
    requires ItemsOk(items)
    ensures F.FenceRun(F.Inner, WriteItems(items, r)) == F.FenceRun(F.Inner, r)
    decreases |items|
  {
    if items == [] {
      FenceInner('"', r);
    } else {
      var t := WriteItems(items[1..], r);
      FenceItems(items[1..], r);
      assert ItemOk(items[0]);
      match items[0]
      case Plain(c) => FenceInner(c, t);
      case Escape(e) =>
        FenceInner('\\', [e] + t);
        FenceInner(e, t);
      case Unicode(h) =>
        FenceInner('\\', ['u'] + (h + t));
        FenceInner('u', h + t);
        assert forall i | 0 <= i < |h| :: HexDigit(h[i]);
        FenceWord(F.Inner, h, t);
    }
  }

  lemma FenceString(a: F.At, items: seq<Item>, r: string)
    requires a != F.Seen && ItemsOk(items)
    ensures F.FenceRun(a, ['"'] + WriteItems(items, r)) == F.FenceRun(F.Inner, r)
  {
    FenceSolid(a, '"', WriteItems(items, r));
    FenceItems(items, r);
  }

  /** The same value met after white space. */
  lemma {:induction false} FenceLead(a: F.At, ws: string, v: Value, r: string)
    requires a != F.Seen && AllSpace(ws) && ValueOk(v)
    ensures F.FenceRun(a, ws + Write(v, r)) == F.FenceRun(F.Inner, r)
    decreases v, 1, |ws|
  {
    if ws == [] {
      assert ws + Write(v, r) == Write(v, r);
      FenceValue(a, v, r);
    } else {
      assert (ws + Write(v, r))[1..] == ws[1..] + Write(v, r);
      FenceLead(F.FenceStep(a, ws[0]), ws[1..], v, r);
    }
  }

  /** Reading past a value leaves the automaton in the middle of a line of prose. */
  lemma {:induction false} FenceValue(a: F.At, v: Value, r: string)
    requires a != F.Seen && ValueOk(v)
    ensures F.FenceRun(a, Write(v, r)) == F.FenceRun(F.Inner, r)
    decreases v, 0
  {
    match v
    case Literal(w) => FenceWord(a, w, r);
    case Number(t) =>
      NumberCharsOnly(Begin, t);
      NumberStart(t);
      FenceWord(a, t, r);
    case String(items) => FenceString(a, items, r);
    case Group(kind, ws, body) =>
      FenceSolid(a, Opener(kind), ws + WriteBody(kind, body, r));
      FenceBody(kind, F.Inner, ws, body, r);
  }

  lemma {:induction false} FenceBody(kind: Kind, a: F.At, ws: string, b: Body, r: string)
    requires a != F.Seen && AllSpace(ws) && BodyOk(kind, b)
    ensures F.FenceRun(a, ws + WriteBody(kind, b, r)) == F.FenceRun(F.Inner, r)
    decreases b, 0
  {
    match b
    case Nil => FenceSpace(a, ws, Closer(kind), r);
    case Entry(key, value, after, next, rest) =>
      var t := WriteRest(kind, next, rest, r);
      match key {
        case NoKey => FenceLead(a, ws, value, after + t);
        case Key(name, before, colon) =>
          var u := Write(value, after + t);
          FenceSpace(a, ws, '"', WriteItems(name, before + ([':'] + (colon + u))));
          FenceItems(name, before + ([':'] + (colon + u)));
          FenceSpace(F.Inner, before, ':', colon + u);
          FenceLead(F.Inner, colon, value, after + t);
      }
      if rest.Nil? {
        FenceSpace(F.Inner, after, Closer(kind), r);
      } else {
        FenceSpace(F.Inner, after, ',', next + WriteBody(kind, rest, r));
        FenceBody(kind, F.Inner, next, rest, r);
      }
  }
}
