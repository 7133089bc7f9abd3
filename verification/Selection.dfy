/** SelectJSON: the last block of the fences that qualifies as a verdict, else the last of the prose. */
module Selection {
  import opened Strings
  import opened JsonText
  import opened Options
  import opened JsonParser
  import opened BraceScanner
  import opened JsonScan
  import F = Fences

  // ---- string contents (RFC 8259, section 7, with Go's treatment of lone surrogates) -------------

  function HexValue(c: char): int
    requires HexDigit(c)
    ensures 0 <= HexValue(c) < 16
  {
    if Digit(c) then c as int - '0' as int
    else if 'a' <= c <= 'f' then c as int - 'a' as int + 10
    else c as int - 'A' as int + 10
  }

  /** The code unit of a `\uXXXX` escape. */
  function CodeUnit(h: string): (u: int)
    requires ItemOk(Unicode(h))
    ensures 0 <= u < 0x10000
  {
    ((HexValue(h[0]) * 16 + HexValue(h[1])) * 16 + HexValue(h[2])) * 16 + HexValue(h[3])
  }

  predicate HighSurrogate(u: int) { 0xD800 <= u < 0xDC00 }

  predicate LowSurrogate(u: int) { 0xDC00 <= u < 0xE000 }

  function Unescape(e: char): char {
    if e == 'b' then '\U{8}' else if e == 'f' then '\U{C}' else if e == 'n' then '\n'
    else if e == 'r' then '\r' else if e == 't' then '\t' else e
  }

  /** The text a string literal denotes. */
  function Decode(items: seq<Item>): string
    requires ItemsOk(items)
  {
    if items == [] then []
    else
      var rest := items[1..];
      match items[0]
      case Plain(c) => [c] + Decode(rest)
      case Escape(e) => [Unescape(e)] + Decode(rest)
      case Unicode(h) =>
        var u := CodeUnit(h);
        if HighSurrogate(u) && rest != [] && rest[0].Unicode? && LowSurrogate(CodeUnit(rest[0].hex)) then
          [(0x10000 + (u - 0xD800) * 0x400 + (CodeUnit(rest[0].hex) - 0xDC00)) as char] + Decode(rest[1..])
        else if HighSurrogate(u) || LowSurrogate(u) then ['\U{FFFD}'] + Decode(rest)
        else [u as char] + Decode(rest)
  }

  /** The decoded member names of an object body. */
  function Names(b: Body): set<string>
    requires BodyOk(Object, b)
  {
    if b.Nil? then {} else {Decode(b.key.name)} + Names(b.rest)
  }

  lemma DocumentOk(s: string)
    requires ReadDocument(s).Some?
    ensures ValueOk(ReadDocument(s).value)
  {
    ValueSound(SpanSpace(s).1);
  }

  /** hasKeys: `s` is a JSON object with every key of `keys`; no keys ask for nothing. */
  predicate HasKeys(s: string, keys: seq<string>) {
    keys == [] ||
    match ReadDocument(s)
    case None => false
    case Some(v) =>
      DocumentOk(s);
      IsObject(v) && forall k <- keys :: k in Names(v.body)
  }

  predicate Qualifies(block: string, keys: seq<string>) { JsonValid(block) && HasKeys(block, keys) }

  // ---- picking -------------------------------------------------------------------------------

  /** The last qualifying block, or the empty string. */
  function Pick(blocks: seq<string>, keys: seq<string>): string {
    if blocks == [] then []
    else if Qualifies(blocks[|blocks| - 1], keys) then blocks[|blocks| - 1]
    else Pick(blocks[..|blocks| - 1], keys)
  }

  method PickBlock(blocks: seq<string>, keys: seq<string>) returns (r: string)
    ensures r == Pick(blocks, keys)
  {
    hide Qualifies;
    var i := |blocks| - 1;
    assert blocks[..|blocks|] == blocks;
    while i >= 0
      invariant -1 <= i < |blocks|
      invariant Pick(blocks, keys) == Pick(blocks[..i + 1], keys)
    {
      assert blocks[..i + 1][..i] == blocks[..i];
      if Qualifies(blocks[i], keys) {
        return blocks[i];
      }
      i := i - 1;
    }
    return [];
  }

  lemma {:induction false} PickConcat(a: seq<string>, b: seq<string>, keys: seq<string>)
    requires [] !in a && [] !in b
    ensures Pick(a + b, keys) == if Pick(b, keys) != [] then Pick(b, keys) else Pick(a, keys)
    decreases |b|
  {
    hide Qualifies;
    if b == [] {
      assert a + b == a;
    } else {
      assert (a + b)[..|a + b| - 1] == a + b[..|b| - 1];
      assert b[|b| - 1] in b;
      PickConcat(a, b[..|b| - 1], keys);
    }
  }

  /** What Pick returns is the last block that qualifies, and it returns nothing only if none does. */
  lemma {:induction false} PickIsLast(blocks: seq<string>, keys: seq<string>)
    requires [] !in blocks
    ensures Pick(blocks, keys) == [] <==> forall b <- blocks :: !Qualifies(b, keys)
    ensures Pick(blocks, keys) != [] ==>
              exists i :: 0 <= i < |blocks| && blocks[i] == Pick(blocks, keys) && Qualifies(blocks[i], keys)
                && forall j | i < j < |blocks| :: !Qualifies(blocks[j], keys)
  {
    hide Qualifies;
    if blocks != [] {
      var n := |blocks| - 1;
      assert blocks[n] in blocks;
      if Qualifies(blocks[n], keys) {
        assert blocks[n] == Pick(blocks, keys);
      } else {
        PickIsLast(blocks[..n], keys);
        assert blocks == blocks[..n] + [blocks[n]];
        if Pick(blocks, keys) != [] {
          var i :| 0 <= i < n && blocks[..n][i] == Pick(blocks, keys) && Qualifies(blocks[..n][i], keys)
            && forall j | i < j < n :: !Qualifies(blocks[..n][j], keys);
          forall j | i < j < |blocks| ensures !Qualifies(blocks[j], keys) {
            if j < n { assert blocks[j] == blocks[..n][j]; }
          }
          assert blocks[i] == blocks[..n][i];
        }
      }
    }
  }

  // ---- selecting -----------------------------------------------------------------------------

  /** The blocks of every fence, in order. */
  function FencedBlocks(fences: seq<string>): seq<string> {
    if fences == [] then [] else FencedBlocks(fences[..|fences| - 1]) + Blocks(fences[|fences| - 1])
  }

  function Select(s: string, keys: seq<string>): string {
    var fenced := Pick(FencedBlocks(F.Fenced(s)), keys);
    if fenced != [] then fenced else Pick(Blocks(s), keys)
  }

  method SelectJSON(s: string, keys: seq<string>) returns (r: string)
    ensures r == Select(s, keys)
  {
    hide *;
    var fences := F.FencedJSONBlocks(s);
    var fenced: seq<string> := [];
    NoFences();
    for i := 0 to |fences|
      invariant fenced == FencedBlocks(fences[..i])
    {
      var blocks := JSONBlocks(fences[i]);
      NextFence(fences, i);
      fenced := fenced + blocks;
    }
    assert fences[..|fences|] == fences;
    var blk := PickBlock(fenced, keys);
    SelectUnfold(s, keys);
    if blk != [] {
      return blk;
    }
    var blocks := JSONBlocks(s);
    r := PickBlock(blocks, keys);
  }

  lemma NoFences()
    ensures FencedBlocks([]) == []
  {
  }

  lemma NextFence(fences: seq<string>, i: nat)
    requires i < |fences|
    ensures FencedBlocks(fences[..i + 1]) == FencedBlocks(fences[..i]) + Blocks(fences[i])
  {
    assert fences[..i + 1][..i] == fences[..i];
  }

  lemma SelectUnfold(s: string, keys: seq<string>)
    ensures Select(s, keys) ==
      if Pick(FencedBlocks(F.Fenced(s)), keys) != [] then Pick(FencedBlocks(F.Fenced(s)), keys) else Pick(Blocks(s), keys)
  {
  }

  lemma BlocksNotEmpty(s: string)
    ensures [] !in Blocks(s)
  {
    BlocksAreBlocks(s);
  }

  lemma {:induction false} FencedBlocksNotEmpty(fences: seq<string>)
    ensures [] !in FencedBlocks(fences)
  {
    if fences != [] {
      FencedBlocksNotEmpty(fences[..|fences| - 1]);
      BlocksNotEmpty(fences[|fences| - 1]);
    }
  }

  /** The preference order: the last qualifying fenced block if one exists, else the last qualifying
      block of the whole text if one exists, else nothing. */
  lemma SelectPrefersFences(s: string, keys: seq<string>)
    ensures var r := Select(s, keys);
      var fenced := FencedBlocks(F.Fenced(s));
      if exists b :: b in fenced && Qualifies(b, keys) then r in fenced && Qualifies(r, keys) && r == Pick(fenced, keys)
      else if exists b :: b in Blocks(s) && Qualifies(b, keys) then r in Blocks(s) && Qualifies(r, keys) && r == Pick(Blocks(s), keys)
      else r == []
  {
    hide *;
    SelectUnfold(s, keys);
    FencedBlocksNotEmpty(F.Fenced(s));
    BlocksNotEmpty(s);
    PickIsLast(FencedBlocks(F.Fenced(s)), keys);
    PickIsLast(Blocks(s), keys);
  }

  lemma SelectInProse(s: string, keys: seq<string>)
    requires F.NoFence(s)
    ensures Select(s, keys) == Pick(Blocks(s), keys)
  {
    hide F.NoFence;
    F.NoFenceNoBlocks(s);
    NoFences();
  }

  /** Selection immunity: a token whose blocks do not qualify, inserted where no block is open,
      changes nothing. */
  lemma SelectionImmune(u: string, token: string, v: string, keys: seq<string>)
    requires F.NoFence(u + v) && F.NoFence(u + token + v)
    requires Closed(u) && Closed(token)
    requires forall b <- Blocks(token) :: !Qualifies(b, keys)
    ensures Select(u + token + v, keys) == Select(u + v, keys)
  {
    hide *;
    SelectInProse(u + v, keys);
    SelectInProse(u + token + v, keys);
    BlocksAdditive(u, v);
    BlocksAdditive(u, token);
    BlocksAdditive(u + token, v);
    BlocksNotEmpty(u);
    BlocksNotEmpty(token);
    BlocksNotEmpty(v);
    PickConcat(Blocks(u), Blocks(v), keys);
    PickConcat(Blocks(u), Blocks(token), keys);
    PickConcat(Blocks(u) + Blocks(token), Blocks(v), keys);
    PickIsLast(Blocks(token), keys);
  }

  /** In particular any brace token that is one balanced block but not JSON, or lacks a key. */
  lemma BraceTokenIgnored(u: string, token: string, v: string, keys: seq<string>)
    requires F.NoFence(u + v) && F.NoFence(u + token + v)
    requires Closed(u) && IsBlock(token) && !Qualifies(token, keys)
    ensures Select(u + token + v, keys) == Select(u + v, keys)
  {
    hide *;
    OneBlockCloses(token);
    SelectionImmune(u, token, v, keys);
  }

  lemma OneBlockCloses(token: string)
    requires IsBlock(token)
    ensures Blocks(token) == [token] && Closed(token)
  {
    ScanGapBlock([], token, []);
    ScanTail([], []);
    assert [] + token + [] == token;
  }
}
