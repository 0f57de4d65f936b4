/** What a JSON string stands for, by section 7 of RFC 8259, apart from how it is
    decoded: each of its elements is written plainly, as a short escape, or as a
    four-digit escape with digits of either case. */
module JsonStrings {
  import opened Base
  import opened JsonText

  const SLASH := 0x2F

  /** The two-character escapes and the units they stand for. */
  const SHORT_ESCAPES: map<int, int> :=
    map[QUOTE := QUOTE, BACKSLASH := BACKSLASH, SLASH := SLASH,
        0x62 := 0x08, 0x66 := 0x0C, 0x6E := 0x0A, 0x72 := 0x0D, 0x74 := 0x09]

  /** One element: the unit it stands for, and how it is written. */
  datatype Written =
    | Plain(unit: int)
    | Short(letter: int)
    | Hex(unit: int, upper: seq<bool>)     // the case of each of the four digits

  predicate WrittenOk(w: Written) {
    match w
    case Plain(unit) => unit >= 0x20 && unit != QUOTE && unit != BACKSLASH
    case Short(letter) => letter in SHORT_ESCAPES
    case Hex(unit, upper) => 0 <= unit <= 0xFFFF && |upper| == 4
  }

  function UnitOf(w: Written): int
    requires WrittenOk(w)
  {
    match w
    case Plain(unit) => unit
    case Short(letter) => SHORT_ESCAPES[letter]
    case Hex(unit, _) => unit
  }

  /** The digits 0-9, A-F and a-f. */
  function HexDigit(value: int, upper: bool): int {
    if value < 10 then 0x30 + value else if upper then 0x41 + (value - 10) else 0x61 + (value - 10)
  }

  function Write(w: Written): Text
    requires WrittenOk(w)
  {
    match w
    case Plain(unit) => [unit]
    case Short(letter) => [BACKSLASH, letter]
    case Hex(unit, upper) =>
      [BACKSLASH, 0x75, HexDigit(unit / 0x1000, upper[0]), HexDigit(unit / 0x100 % 0x10, upper[1]),
       HexDigit(unit / 0x10 % 0x10, upper[2]), HexDigit(unit % 0x10, upper[3])]
  }

  predicate AllWritten(elements: seq<Written>) {
    forall k :: 0 <= k < |elements| ==> WrittenOk(elements[k])
  }

  function WriteAll(elements: seq<Written>): Text
    requires AllWritten(elements)
  {
    if elements == [] then [] else Write(elements[0]) + WriteAll(elements[1..])
  }

  function UnitsOf(elements: seq<Written>): Text
    requires AllWritten(elements)
  {
    if elements == [] then [] else [UnitOf(elements[0])] + UnitsOf(elements[1..])
  }

  // ------------------------------------------------------------------ one element

  lemma DigitValue(value: int, upper: bool)
    requires 0 <= value < 0x10
    ensures HexValue(HexDigit(value, upper)) == Some(value)
  {
  }

  lemma DigitOf(c: int) returns (value: int, upper: bool)
    requires HexValue(c).Some?
    ensures 0 <= value < 0x10 && HexDigit(value, upper) == c && HexValue(c) == Some(value)
  {
    value := HexValue(c).value;
    upper := c < 0x61;
  }

  lemma FourParts(u: int)
    requires 0 <= u <= 0xFFFF
    ensures 0 <= u / 0x1000 < 0x10
    ensures u == u / 0x1000 * 0x1000 + u / 0x100 % 0x10 * 0x100 + u / 0x10 % 0x10 * 0x10 + u % 0x10
  {
    var x, y := u / 0x10, u / 0x100;
    assert u == x * 0x10 + u % 0x10;
    assert x / 0x10 == y && x == y * 0x10 + x % 0x10;
    assert y / 0x10 == u / 0x1000 && y == u / 0x1000 * 0x10 + y % 0x10;
  }

  lemma FourDigitsMake(a: int, b: int, c: int, d: int)
    requires 0 <= a < 0x10 && 0 <= b < 0x10 && 0 <= c < 0x10 && 0 <= d < 0x10
    ensures var u := a * 0x1000 + b * 0x100 + c * 0x10 + d;
            && 0 <= u <= 0xFFFF && u / 0x1000 == a && u / 0x100 % 0x10 == b && u / 0x10 % 0x10 == c && u % 0x10 == d
  {
    var u := a * 0x1000 + b * 0x100 + c * 0x10 + d;
    assert u / 0x10 == a * 0x100 + b * 0x10 + c;
    assert u / 0x100 == a * 0x10 + b;
  }

  lemma HexReadsBack(w: Written, raw: Text)
    requires w.Hex? && WrittenOk(w) && |raw| >= 6 && raw[..6] == Write(w)
    ensures Element(raw) == Some((6, w.unit))
  {
    assert forall k :: 0 <= k < 6 ==> raw[k] == raw[..6][k];
    FourParts(w.unit);
    DigitValue(w.unit / 0x1000, w.upper[0]);
    DigitValue(w.unit / 0x100 % 0x10, w.upper[1]);
    DigitValue(w.unit / 0x10 % 0x10, w.upper[2]);
    DigitValue(w.unit % 0x10, w.upper[3]);
  }

  /** A written element, whatever follows, is read back as its unit. */
  lemma ElementReadsBack(w: Written, rest: Text)
    requires WrittenOk(w)
    ensures Element(Write(w) + rest) == Some((|Write(w)|, UnitOf(w)))
  {
    var raw := Write(w) + rest;
    assert raw[..|Write(w)|] == Write(w);
    if w.Hex? { HexReadsBack(w, raw); }
  }

  /** Nothing else is read: what Element accepts is some written element. */
  lemma ElementIsWritten(raw: Text) returns (w: Written)
    requires raw != [] && Element(raw).Some?
    ensures WrittenOk(w) && UnitOf(w) == Element(raw).value.1
    ensures |Write(w)| == Element(raw).value.0 && Write(w) == raw[..|Write(w)|]
  {
    if raw[0] != BACKSLASH {
      w := Plain(raw[0]);
    } else if raw[1] != 0x75 {
      w := Short(raw[1]);
    } else {
      w := FourDigits(raw);
    }
  }

  lemma FourDigits(raw: Text) returns (w: Written)
    requires |raw| >= 6 && raw[0] == BACKSLASH && raw[1] == 0x75 && Element(raw).Some?
    ensures w.Hex? && WrittenOk(w) && w.unit == Element(raw).value.1 && Write(w) == raw[..6]
  {
    var a, p := DigitOf(raw[2]);
    var b, q := DigitOf(raw[3]);
    var c, r := DigitOf(raw[4]);
    var d, s := DigitOf(raw[5]);
    w := Hex(a * 0x1000 + b * 0x100 + c * 0x10 + d, [p, q, r, s]);
    FourDigitsMake(a, b, c, d);
  }

  // ---------------------------------------------------------------- whole strings

  lemma DecodeFront(w: Written, rest: Text)
    requires WrittenOk(w) && Decode(rest).Some?
    ensures Decode(Write(w) + rest) == Some([UnitOf(w)] + Decode(rest).value)
  {
    ElementReadsBack(w, rest);
    assert (Write(w) + rest)[|Write(w)|..] == rest;
  }

  /** Any way of writing a text decodes to that text. */
  lemma {:induction false} WritingsDecode(elements: seq<Written>)
    requires AllWritten(elements)
    ensures Decode(WriteAll(elements)) == Some(UnitsOf(elements))
  {
    if elements != [] {
      WritingsDecode(elements[1..]);
      DecodeFront(elements[0], WriteAll(elements[1..]));
    }
  }

  lemma InFront(first: Written, rest: seq<Written>)
    requires WrittenOk(first) && AllWritten(rest)
    ensures AllWritten([first] + rest)
    ensures WriteAll([first] + rest) == Write(first) + WriteAll(rest)
    ensures UnitsOf([first] + rest) == [UnitOf(first)] + UnitsOf(rest)
  {
    assert ([first] + rest)[1..] == rest;
  }

  /** What decodes is a way of writing what it decodes to. */
  lemma {:induction false} DecodedIsWritten(raw: Text) returns (elements: seq<Written>)
    requires Decode(raw).Some?
    ensures AllWritten(elements) && WriteAll(elements) == raw && UnitsOf(elements) == Decode(raw).value
  {
    if raw == [] {
      elements := [];
    } else {
      var size := Element(raw).value.0;
      var first := ElementIsWritten(raw);
      var rest := DecodedIsWritten(raw[size..]);
      elements := [first] + rest;
      InFront(first, rest);
      assert raw[..size] + raw[size..] == raw;
    }
  }

  /** A raw string stands for a text exactly if it is one of the ways of writing it. */
  lemma DecodeIff(raw: Text, text: Text)
    ensures Decode(raw) == Some(text) <==>
              exists elements :: AllWritten(elements) && WriteAll(elements) == raw && UnitsOf(elements) == text
  {
    if Decode(raw) == Some(text) {
      var elements := DecodedIsWritten(raw);
    }
    forall elements | AllWritten(elements) && WriteAll(elements) == raw && UnitsOf(elements) == text
      ensures Decode(raw) == Some(text)
    {
      WritingsDecode(elements);
    }
  }

  lemma Associates(a: Text, b: Text, c: Text)
    ensures (a + b) + c == a + (b + c)
  {
  }

  /** Decoding one writing after another gives one text after the other. */
  lemma {:induction false} DecodeDistributes(first: seq<Written>, second: Text)
    requires AllWritten(first) && Decode(second).Some?
    ensures Decode(WriteAll(first) + second) == Some(UnitsOf(first) + Decode(second).value)
  {
    if first == [] {
      assert [] + second == second && [] + Decode(second).value == Decode(second).value;
    } else {
      DecodeDistributes(first[1..], second);
      DecodeFront(first[0], WriteAll(first[1..]) + second);
      Associates(Write(first[0]), WriteAll(first[1..]), second);
      Associates([UnitOf(first[0])], UnitsOf(first[1..]), Decode(second).value);
    }
  }
}
