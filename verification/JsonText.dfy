/** JSON texts by sections 2 to 7 of RFC 8259, as printed syntax trees that keep
    all whitespace and every lexeme. Texts are sequences of UTF-16 code units. */
module JsonText {
  import opened Base

  type Text = seq<int>

  const QUOTE := 0x22
  const BACKSLASH := 0x5C
  const COMMA := 0x2C
  const COLON := 0x3A
  const MINUS := 0x2D
  const PLUS := 0x2B
  const DOT := 0x2E
  const ZERO := 0x30
  const LEFT_BRACE := 0x7B
  const RIGHT_BRACE := 0x7D
  const LEFT_BRACKET := 0x5B
  const RIGHT_BRACKET := 0x5D
  const TRUE_WORD := [0x74, 0x72, 0x75, 0x65]
  const FALSE_WORD := [0x66, 0x61, 0x6C, 0x73, 0x65]
  const NULL_WORD := [0x6E, 0x75, 0x6C, 0x6C]

  predicate IsSpace(c: int) {
    c == 0x20 || c == 0x09 || c == 0x0D || c == 0x0A
  }

  predicate Blank(s: Text) {
    forall k :: 0 <= k < |s| ==> IsSpace(s[k])
  }

  predicate IsDigit(c: int) {
    ZERO <= c <= 0x39
  }

  predicate Digits(s: Text) {
    s != [] && forall k :: 0 <= k < |s| ==> IsDigit(s[k])
  }

  // ------------------------------------------------------------------- strings

  function HexValue(c: int): Option<int> {
    if IsDigit(c) then Some(c - ZERO)
    else if 0x41 <= c <= 0x46 then Some(c - 0x41 + 10)
    else if 0x61 <= c <= 0x66 then Some(c - 0x61 + 10)
    else None
  }

  /** The unit a two-unit escape stands for. */
  function ShortEscape(c: int): Option<int> {
    if c == QUOTE || c == BACKSLASH || c == 0x2F then Some(c)
    else if c == 0x62 then Some(0x08)
    else if c == 0x66 then Some(0x0C)
    else if c == 0x6E then Some(0x0A)
    else if c == 0x72 then Some(0x0D)
    else if c == 0x74 then Some(0x09)
    else None
  }

  /** The first element of a string's raw text: its size and the unit it stands for. */
  function Element(raw: Text): (r: Option<(nat, int)>)
    requires raw != []
    ensures r.Some? ==> 0 < r.value.0 <= |raw|
  {
    if raw[0] == BACKSLASH then
      if |raw| < 2 then None
      else if raw[1] == 0x75 then
        if |raw| < 6 then None
        else
          var a :- HexValue(raw[2]);
          var b :- HexValue(raw[3]);
          var c :- HexValue(raw[4]);
          var d :- HexValue(raw[5]);
          Some((6, a * 0x1000 + b * 0x100 + c * 0x10 + d))
      else
        var unit :- ShortEscape(raw[1]);
        Some((2, unit))
    else if raw[0] < 0x20 || raw[0] == QUOTE then None
    else Some((1, raw[0]))
  }

  /** The string between its quotes, decoded; None if it is not one. */
  function Decode(raw: Text): Option<Text> {
    if raw == [] then Some([])
    else
      var (size, unit) :- Element(raw);
      var rest :- Decode(raw[size..]);
      Some([unit] + rest)
  }

  // ------------------------------------------------------------------- numbers

  datatype Exponent = Exponent(mark: int, sign: Option<int>, digits: Text)
  datatype Numeral = Numeral(negative: bool, whole: Text, fraction: Option<Text>, exponent: Option<Exponent>)

  predicate IsExponentMark(c: int) {
    c == 0x65 || c == 0x45
  }

  predicate ExponentOk(e: Exponent) {
    && IsExponentMark(e.mark)
    && (e.sign.Some? ==> e.sign.value == PLUS || e.sign.value == MINUS)
    && Digits(e.digits)
  }

  /** number = [ minus ] int [ frac ] [ exp ]; int has no leading zero. */
  predicate NumeralOk(n: Numeral) {
    && Digits(n.whole)
    && (n.whole[0] == ZERO ==> |n.whole| == 1)
    && (n.fraction.Some? ==> Digits(n.fraction.value))
    && (n.exponent.Some? ==> ExponentOk(n.exponent.value))
  }

  function PrintFraction(f: Option<Text>): Text {
    match f
    case None => []
    case Some(digits) => [DOT] + digits
  }

  function PrintExponent(e: Option<Exponent>): Text {
    match e
    case None => []
    case Some(x) => [x.mark] + (match x.sign case None => [] case Some(c) => [c]) + x.digits
  }

  function PrintSign(n: Numeral): Text {
    if n.negative then [MINUS] else []
  }

  function PrintNumeral(n: Numeral): Text {
    PrintSign(n) + n.whole + PrintFraction(n.fraction) + PrintExponent(n.exponent)
  }

  // ---------------------------------------------------------------- syntax trees

  datatype Json =
    | True
    | False
    | Null
    | Number(numeral: Numeral)
    | String(raw: Text)
    | EmptyArray(space: Text)
    | Array(lead: Text, items: Items)
    | EmptyObject(space: Text)
    | Object(lead: Text, members: Members)

  datatype Items =
    | LastItem(value: Json, after: Text)
    | NextItem(value: Json, after: Text, before: Text, rest: Items)

  datatype Name = Name(raw: Text, beforeColon: Text, afterColon: Text)

  datatype Members =
    | LastMember(name: Name, value: Json, after: Text)
    | NextMember(name: Name, value: Json, after: Text, before: Text, rest: Members)

  function Print(v: Json): Text
    decreases v, 0
  {
    match v
    case True => TRUE_WORD
    case False => FALSE_WORD
    case Null => NULL_WORD
    case Number(n) => PrintNumeral(n)
    case String(raw) => [QUOTE] + raw + [QUOTE]
    case EmptyArray(space) => [LEFT_BRACKET] + space + [RIGHT_BRACKET]
    case Array(lead, items) => [LEFT_BRACKET] + lead + PrintItems(items)
    case EmptyObject(space) => [LEFT_BRACE] + space + [RIGHT_BRACE]
    case Object(lead, members) => [LEFT_BRACE] + lead + PrintMembers(members)
  }

  /** A value and the blanks behind it. */
  function PrintItem(v: Json, after: Text): Text
    decreases v, 1
  {
    Print(v) + after
  }

  /** The items and the closing bracket. */
  function PrintItems(items: Items): Text
    decreases items, 0
  {
    match items
    case LastItem(v, after) => PrintItem(v, after) + [RIGHT_BRACKET]
    case NextItem(v, after, before, rest) => PrintItem(v, after) + [COMMA] + before + PrintItems(rest)
  }

  function PrintName(n: Name): Text {
    [QUOTE] + n.raw + [QUOTE] + n.beforeColon + [COLON] + n.afterColon
  }

  function PrintMember(name: Name, v: Json, after: Text): Text
    decreases v, 2
  {
    PrintName(name) + PrintItem(v, after)
  }

  /** The members and the closing brace. */
  function PrintMembers(members: Members): Text
    decreases members, 0
  {
    match members
    case LastMember(name, v, after) => PrintMember(name, v, after) + [RIGHT_BRACE]
    case NextMember(name, v, after, before, rest) =>
      PrintMember(name, v, after) + [COMMA] + before + PrintMembers(rest)
  }

  predicate WellFormed(v: Json) {
    match v
    case True => true
    case False => true
    case Null => true
    case Number(n) => NumeralOk(n)
    case String(raw) => Decode(raw).Some?
    case EmptyArray(space) => Blank(space)
    case Array(lead, items) => Blank(lead) && ItemsOk(items)
    case EmptyObject(space) => Blank(space)
    case Object(lead, members) => Blank(lead) && MembersOk(members)
  }

  predicate ItemsOk(items: Items) {
    && WellFormed(items.value) && Blank(items.after)
    && (items.NextItem? ==> Blank(items.before) && ItemsOk(items.rest))
  }

  predicate NameOk(n: Name) {
    Decode(n.raw).Some? && Blank(n.beforeColon) && Blank(n.afterColon)
  }

  predicate MembersOk(members: Members) {
    && NameOk(members.name) && WellFormed(members.value) && Blank(members.after)
    && (members.NextMember? ==> Blank(members.before) && MembersOk(members.rest))
  }

  // -------------------------------------------------------------- duplicate names

  /** The decoded member names in order. */
  function Names(members: Members): seq<Option<Text>> {
    [Decode(members.name.raw)] + (if members.NextMember? then Names(members.rest) else [])
  }

  predicate AllDistinct(names: seq<Option<Text>>) {
    forall i, j :: 0 <= i < j < |names| ==> names[i] != names[j]
  }

  /** No object at any depth has two names equal after decoding. */
  predicate NoDuplicates(v: Json) {
    match v
    case Array(_, items) => NoDuplicatesInItems(items)
    case Object(_, members) => AllDistinct(Names(members)) && NoDuplicatesInMembers(members)
    case _ => true
  }

  predicate NoDuplicatesInItems(items: Items) {
    NoDuplicates(items.value) && (items.NextItem? ==> NoDuplicatesInItems(items.rest))
  }

  predicate NoDuplicatesInMembers(members: Members) {
    NoDuplicates(members.value) && (members.NextMember? ==> NoDuplicatesInMembers(members.rest))
  }

  /** A whole text: one value between blanks. */
  datatype Document = Document(lead: Text, value: Json, trail: Text)

  function PrintDocument(d: Document): Text {
    d.lead + Print(d.value) + d.trail
  }

  predicate DocumentOk(d: Document) {
    Blank(d.lead) && WellFormed(d.value) && Blank(d.trail)
  }
}
