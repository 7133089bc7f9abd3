/** JSON texts as derivation trees of the grammar of RFC 8259, with every choice the grammar leaves
    open (white space, escapes, number spelling) kept in the tree. `Write(v, r)` is the text of `v`
    followed by `r`. */
module JsonText {

  /** One character of a string literal (RFC 8259, section 7). */
  datatype Item =
    | Plain(c: char)
    | Escape(e: char)
    | Unicode(hex: string)

  datatype Kind = Array | Object

  datatype Value =
    | Literal(word: string)
    | Number(digits: string)
    | String(items: seq<Item>)
    | Group(kind: Kind, ws: string, body: Body)

  /** The entries of an array or object; `next` is the white space after the comma, if one follows. */
  datatype Body =
    | Nil
    | Entry(key: Key, value: Value, after: string, next: string, rest: Body)

  datatype Key = NoKey | Key(name: seq<Item>, before: string, colon: string)

  // ---- the lexical grammar -------------------------------------------------------------------

  predicate JsonSpace(c: char) { c == ' ' || c == '\t' || c == '\n' || c == '\r' }

  predicate AllSpace(w: string) { forall i | 0 <= i < |w| :: JsonSpace(w[i]) }

  predicate Digit(c: char) { '0' <= c <= '9' }

  predicate HexDigit(c: char) { Digit(c) || 'a' <= c <= 'f' || 'A' <= c <= 'F' }

  predicate EscapeChar(e: char) { e in "\"\\/bfnrt" }

  predicate ItemOk(i: Item) {
    match i
    case Plain(c) => c >= ' ' && c != '"' && c != '\\'
    case Escape(e) => EscapeChar(e)
    case Unicode(h) => |h| == 4 && HexDigit(h[0]) && HexDigit(h[1]) && HexDigit(h[2]) && HexDigit(h[3])
  }

  predicate ItemsOk(items: seq<Item>) { forall i <- items :: ItemOk(i) }

  /** Where a number (section 6) stands: sign, zero or integer part, point, fraction, exponent. */
  datatype NumberAt = Begin | Minus | Zero | Int | Point | Frac | Exp | ExpSign | ExpInt | Bad

  function NumberStep(a: NumberAt, c: char): NumberAt {
    match a
    case Begin => if c == '-' then Minus else if c == '0' then Zero else if Digit(c) then Int else Bad
    case Minus => if c == '0' then Zero else if Digit(c) then Int else Bad
    case Zero => if c == '.' then Point else if c == 'e' || c == 'E' then Exp else Bad
    case Int => if Digit(c) then Int else if c == '.' then Point else if c == 'e' || c == 'E' then Exp else Bad
    case Point => if Digit(c) then Frac else Bad
    case Frac => if Digit(c) then Frac else if c == 'e' || c == 'E' then Exp else Bad
    case Exp => if Digit(c) then ExpInt else if c == '+' || c == '-' then ExpSign else Bad
    case ExpSign => if Digit(c) then ExpInt else Bad
    case ExpInt => if Digit(c) then ExpInt else Bad
    case Bad => Bad
  }

  function NumberEnd(a: NumberAt, t: string): NumberAt
    decreases |t|
  {
    if t == [] then a else NumberEnd(NumberStep(a, t[0]), t[1..])
  }

  predicate IsNumber(t: string) {
    var a := NumberEnd(Begin, t);
    a == Zero || a == Int || a == Frac || a == ExpInt
  }

  predicate NumberChar(c: char) { Digit(c) || c in "+-.eE" }

  // ---- well-formed trees and their texts -----------------------------------------------------

  predicate KeyOk(kind: Kind, key: Key) {
    match key
    case NoKey => kind == Array
    case Key(name, before, colon) => kind == Object && ItemsOk(name) && AllSpace(before) && AllSpace(colon)
  }

  predicate ValueOk(v: Value)
    decreases v
  {
    match v
    case Literal(w) => w == "null" || w == "true" || w == "false"
    case Number(t) => IsNumber(t)
    case String(items) => ItemsOk(items)
    case Group(kind, ws, body) => AllSpace(ws) && BodyOk(kind, body)
  }

  predicate BodyOk(kind: Kind, b: Body)
    decreases b
  {
    match b
    case Nil => true
    case Entry(key, value, after, next, rest) =>
      && KeyOk(kind, key) && ValueOk(value) && AllSpace(after) && AllSpace(next)
      && (rest.Nil? ==> next == []) && BodyOk(kind, rest)
  }

  function Opener(kind: Kind): char { if kind == Array then '[' else '{' }

  function Closer(kind: Kind): char { if kind == Array then ']' else '}' }

  function WriteItem(i: Item, r: string): string {
    match i
    case Plain(c) => [c] + r
    case Escape(e) => ['\\'] + ([e] + r)
    case Unicode(h) => ['\\'] + (['u'] + (h + r))
  }

  /** The items, the closing quote, and then `r`. */
  function WriteItems(items: seq<Item>, r: string): string {
    if items == [] then ['"'] + r else WriteItem(items[0], WriteItems(items[1..], r))
  }

  function WriteKey(key: Key, r: string): string {
    match key
    case NoKey => r
    case Key(name, before, colon) => ['"'] + WriteItems(name, before + ([':'] + (colon + r)))
  }

  function Write(v: Value, r: string): string
    decreases v, 0
  {
    match v
    case Literal(w) => w + r
    case Number(t) => t + r
    case String(items) => ['"'] + WriteItems(items, r)
    case Group(kind, ws, body) => [Opener(kind)] + (ws + WriteBody(kind, body, r))
  }

  /** The entries, the closing bracket, and then `r`. */
  function WriteBody(kind: Kind, b: Body, r: string): string
    decreases b, 0
  {
    match b
    case Nil => [Closer(kind)] + r
    case Entry(key, value, after, next, rest) =>
      WriteKey(key, Write(value, after + WriteRest(kind, next, rest, r)))
  }

  function WriteRest(kind: Kind, next: string, rest: Body, r: string): string
    decreases rest, 1
  {
    if rest.Nil? then [Closer(kind)] + r else [','] + (next + WriteBody(kind, rest, r))
  }

  /** The text of `v`. */
  function Text(v: Value): string { Write(v, []) }

  // ---- writing is concatenation --------------------------------------------------------------

  lemma Regroup(a: string, b: string, c: string)
    ensures (a + b) + c == a + (b + c)
  {
  }

  lemma {:induction false} WriteItemsAppends(items: seq<Item>, r: string)
    ensures WriteItems(items, r) == WriteItems(items, []) + r
  {
    if items != [] {
      WriteItemsAppends(items[1..], r);
      var t := WriteItems(items[1..], []);
      match items[0]
      case Plain(c) => Regroup([c], t, r);
      case Escape(e) => Regroup(['\\', e], t, r);
      case Unicode(h) => Regroup(['\\', 'u'] + h, t, r);
    }
  }

  lemma WriteKeyAppends(key: Key, a: string, r: string)
    ensures WriteKey(key, a + r) == WriteKey(key, a) + r
  {
    if key.Key? {
      var t := key.before + ([':'] + (key.colon + a));
      Regroup(key.colon, a, r);
      Regroup([':'], key.colon + a, r);
      Regroup(key.before, [':'] + (key.colon + a), r);
      WriteItemsAppends(key.name, t + r);
      WriteItemsAppends(key.name, t);
      Regroup(WriteItems(key.name, []), t, r);
      Regroup(['"'], WriteItems(key.name, t), r);
    }
  }

  lemma {:induction false} WriteAppends(v: Value, a: string, r: string)
    ensures Write(v, a + r) == Write(v, a) + r
    decreases v
  {
    match v
    case Literal(w) => Regroup(w, a, r);
    case Number(t) => Regroup(t, a, r);
    case String(items) =>
      WriteItemsAppends(items, a + r);
      WriteItemsAppends(items, a);
      Regroup(WriteItems(items, []), a, r);
      Regroup(['"'], WriteItems(items, a), r);
    case Group(kind, ws, body) =>
      WriteBodyAppends(kind, body, a, r);
      Regroup(ws, WriteBody(kind, body, a), r);
      Regroup([Opener(kind)], ws + WriteBody(kind, body, a), r);
  }

  lemma {:induction false} WriteBodyAppends(kind: Kind, b: Body, a: string, r: string)
    ensures WriteBody(kind, b, a + r) == WriteBody(kind, b, a) + r
    decreases b
  {
    match b
    case Nil => Regroup([Closer(kind)], a, r);
    case Entry(key, value, after, next, rest) =>
      var t := WriteRest(kind, next, rest, a);
      if rest.Nil? {
        Regroup([Closer(kind)], a, r);
      } else {
        WriteBodyAppends(kind, rest, a, r);
        Regroup(next, WriteBody(kind, rest, a), r);
        Regroup([','], next + WriteBody(kind, rest, a), r);
      }
      Regroup(after, t, r);
      WriteAppends(value, after + t, r);
      WriteKeyAppends(key, Write(value, after + t), r);
  }

  /** `Write(v, r)` is the text of `v` followed by `r`. */
  lemma WriteIsText(v: Value, r: string)
    ensures Write(v, r) == Text(v) + r
  {
    WriteAppends(v, [], r);
    assert [] + r == r;
  }
}
