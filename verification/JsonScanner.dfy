/** The duplicate-key scanner: its result as a function, the scanner object that
    computes it, and the proof that it accepts exactly the JSON texts without
    duplicate names. */
module JsonScanner {
  import opened Base
  import opened JsonText

  // ------------------------------------------------------ the scan as a function

  /** input[i], with -1 for undefined. */
  function At(s: Text, i: nat): int {
    if i < |s| then s[i] else -1
  }

  function SkipSpace(s: Text, i: nat): (j: nat)
    ensures i <= j && (i <= |s| ==> j <= |s|)
    ensures !IsSpace(At(s, j))
    decreases |s| - i
  {
    if i < |s| && IsSpace(s[i]) then SkipSpace(s, i + 1) else i
  }

  /** From inside a string, the offset just behind its closing quote. */
  function StringEnd(s: Text, i: nat): (r: Option<nat>)
    ensures r.Some? ==> i < r.value <= |s|
    decreases if i < |s| then |s| - i else 0
  {
    if i >= |s| || s[i] < 0x20 then None
    else if s[i] == QUOTE then Some(i + 1)
    else if s[i] == BACKSLASH then StringEnd(s, i + 2)
    else StringEnd(s, i + 1)
  }

  /** A string at its opening quote: the offset behind it and its decoded value. */
  function ScanString(s: Text, i: nat): (r: Option<(nat, Text)>)
    ensures r.Some? ==> i + 1 < r.value.0 <= |s|
  {
    var end :- StringEnd(s, i + 1);
    var key :- Decode(s[i + 1..end - 1]);
    Some((end, key))
  }

  function DigitsEnd(s: Text, i: nat): (j: nat)
    ensures i <= j && (i <= |s| ==> j <= |s|)
    decreases |s| - i
  {
    if i < |s| && IsDigit(s[i]) then DigitsEnd(s, i + 1) else i
  }

  function FractionEnd(s: Text, i: nat): nat {
    if At(s, i) == DOT && IsDigit(At(s, i + 1)) then DigitsEnd(s, i + 1) else i
  }

  function ExponentEnd(s: Text, i: nat): nat {
    var start := if At(s, i + 1) == PLUS || At(s, i + 1) == MINUS then i + 2 else i + 1;
    if IsExponentMark(At(s, i)) && IsDigit(At(s, start)) then DigitsEnd(s, start) else i
  }

  /** The longest prefix the number pattern matches. */
  function ScanNumber(s: Text, i: nat): (r: Option<nat>)
    ensures r.Some? ==> i < r.value <= |s|
  {
    var start := if At(s, i) == MINUS then i + 1 else i;
    if At(s, start) == ZERO then Some(ExponentEnd(s, FractionEnd(s, start + 1)))
    else if IsDigit(At(s, start)) then Some(ExponentEnd(s, FractionEnd(s, DigitsEnd(s, start + 1))))
    else None
  }

  function ScanWord(s: Text, i: nat, word: Text): (r: Option<nat>)
    ensures r.Some? ==> i + |word| == r.value <= |s|
  {
    if i + |word| <= |s| && s[i..i + |word|] == word then Some(i + |word|) else None
  }

  function ScanValue(s: Text, i: nat): (r: Option<nat>)
    ensures r.Some? ==> i < r.value <= |s|
    decreases if i < |s| then |s| - i else 0, 1
  {
    var c := At(s, i);
    if c == LEFT_BRACE then
      var j := SkipSpace(s, i + 1);
      if At(s, j) == RIGHT_BRACE then Some(j + 1) else ScanMembers(s, j, {})
    else if c == LEFT_BRACKET then
      var j := SkipSpace(s, i + 1);
      if At(s, j) == RIGHT_BRACKET then Some(j + 1) else ScanItems(s, j)
    else if c == QUOTE then
      var (end, _) :- ScanString(s, i);
      Some(end)
    else if c == TRUE_WORD[0] then ScanWord(s, i, TRUE_WORD)
    else if c == FALSE_WORD[0] then ScanWord(s, i, FALSE_WORD)
    else if c == NULL_WORD[0] then ScanWord(s, i, NULL_WORD)
    else ScanNumber(s, i)
  }

  /** One array element: the offset of what follows it. */
  function ScanItem(s: Text, i: nat): (r: Option<nat>)
    ensures r.Some? ==> i < r.value <= |s|
    decreases if i < |s| then |s| - i else 0, 2
  {
    var end :- ScanValue(s, i);
    Some(SkipSpace(s, end))
  }

  function ScanItems(s: Text, i: nat): (r: Option<nat>)
    ensures r.Some? ==> i < r.value <= |s|
    decreases if i < |s| then |s| - i else 0, 3
  {
    var j :- ScanItem(s, i);
    if At(s, j) == RIGHT_BRACKET then Some(j + 1)
    else if At(s, j) != COMMA then None
    else ScanItems(s, SkipSpace(s, j + 1))
  }

  /** One `name : value`: the offset of what follows it, and the name. */
  function ScanMember(s: Text, i: nat, keys: set<Text>): (r: Option<(nat, Text)>)
    ensures r.Some? ==> i < r.value.0 <= |s|
    decreases if i < |s| then |s| - i else 0, 2
  {
    if At(s, i) != QUOTE then None
    else
      var (keyEnd, key) :- ScanString(s, i);
      if key in keys then None
      else
        var colon := SkipSpace(s, keyEnd);
        if At(s, colon) != COLON then None
        else
          var end :- ScanValue(s, SkipSpace(s, colon + 1));
          Some((SkipSpace(s, end), key))
  }

  function ScanMembers(s: Text, i: nat, keys: set<Text>): (r: Option<nat>)
    ensures r.Some? ==> i < r.value <= |s|
    decreases if i < |s| then |s| - i else 0, 3
  {
    var (j, key) :- ScanMember(s, i, keys);
    if At(s, j) == RIGHT_BRACE then Some(j + 1)
    else if At(s, j) != COMMA then None
    else ScanMembers(s, SkipSpace(s, j + 1), keys + {key})
  }

  /** scan() returns without throwing. */
  predicate Accepts(s: Text) {
    var end := ScanValue(s, SkipSpace(s, 0));
    end.Some? && SkipSpace(s, end.value) == |s|
  }

  // ------------------------------------------------------------------ single steps

  lemma ArrayStep(s: Text, i: nat, j: nat)
    requires At(s, i) == LEFT_BRACKET && SkipSpace(s, i + 1) == j
    ensures ScanValue(s, i) == if At(s, j) == RIGHT_BRACKET then Some(j + 1) else ScanItems(s, j)
  {
  }

  lemma ObjectStep(s: Text, i: nat, j: nat)
    requires At(s, i) == LEFT_BRACE && SkipSpace(s, i + 1) == j
    ensures ScanValue(s, i) == if At(s, j) == RIGHT_BRACE then Some(j + 1) else ScanMembers(s, j, {})
  {
  }

  lemma ItemsStep(s: Text, i: nat, j: nat)
    requires ScanItem(s, i) == Some(j)
    ensures At(s, j) == RIGHT_BRACKET ==> ScanItems(s, i) == Some(j + 1)
    ensures At(s, j) == COMMA ==> ScanItems(s, i) == ScanItems(s, SkipSpace(s, j + 1))
    ensures At(s, j) != RIGHT_BRACKET && At(s, j) != COMMA ==> ScanItems(s, i).None?
  {
  }

  lemma MemberStep(s: Text, i: nat, keys: set<Text>)
    requires ScanMember(s, i, keys).Some?
    ensures At(s, i) == QUOTE && ScanString(s, i).Some?
    ensures var (keyEnd, key) := ScanString(s, i).value;
            var colon := SkipSpace(s, keyEnd);
            var start := SkipSpace(s, colon + 1);
            && key !in keys && At(s, colon) == COLON && ScanValue(s, start).Some?
            && ScanMember(s, i, keys).value == (SkipSpace(s, ScanValue(s, start).value), key)
  {
  }

  lemma MemberComposes(s: Text, i: nat, keys: set<Text>, keyEnd: nat, key: Text, start: nat)
    requires At(s, i) == QUOTE && ScanString(s, i) == Some((keyEnd, key))
    requires At(s, SkipSpace(s, keyEnd)) == COLON && SkipSpace(s, SkipSpace(s, keyEnd) + 1) == start
    ensures ScanMember(s, i, keys) ==
              if key in keys || ScanValue(s, start).None? then None
              else Some((SkipSpace(s, ScanValue(s, start).value), key))
  {
  }

  lemma MembersStep(s: Text, i: nat, keys: set<Text>, j: nat, key: Text)
    requires ScanMember(s, i, keys) == Some((j, key))
    ensures At(s, j) == RIGHT_BRACE ==> ScanMembers(s, i, keys) == Some(j + 1)
    ensures At(s, j) == COMMA ==> ScanMembers(s, i, keys) == ScanMembers(s, SkipSpace(s, j + 1), keys + {key})
    ensures At(s, j) != RIGHT_BRACE && At(s, j) != COMMA ==> ScanMembers(s, i, keys).None?
  {
  }

  // ------------------------------------------------------------------ the scanner

  class Scanner {
    const input: Text
    var offset: nat

    constructor (input: Text)
      ensures this.input == input && offset == 0
    {
      this.input := input;
      offset := 0;
    }

    method Scan() returns (ok: bool)
      requires offset == 0
      modifies this
      ensures ok <==> Accepts(input)
    {
      Whitespace();
      ok := Value();
      if ok {
        Whitespace();
        ok := offset == |input|;
      }
    }

    method Whitespace()
      modifies this
      ensures offset == SkipSpace(input, old(offset))
    {
      while IsSpace(At(input, offset))
        invariant SkipSpace(input, offset) == SkipSpace(input, old(offset))
        decreases |input| - offset
      {
        offset := offset + 1;
      }
    }

    method Value() returns (ok: bool)
      modifies this
      ensures ok <==> ScanValue(input, old(offset)).Some?
      ensures ok ==> offset == ScanValue(input, old(offset)).value
      decreases if offset < |input| then |input| - offset else 0, 1
    {
      var current := At(input, offset);
      if current == LEFT_BRACE {
        ok := ObjectBody();
      } else if current == LEFT_BRACKET {
        ok := ArrayBody();
      } else if current == QUOTE {
        var key := StringToken();
        ok := key.Some?;
      } else if current == TRUE_WORD[0] {
        ok := LiteralWord(TRUE_WORD);
      } else if current == FALSE_WORD[0] {
        ok := LiteralWord(FALSE_WORD);
      } else if current == NULL_WORD[0] {
        ok := LiteralWord(NULL_WORD);
      } else {
        var end := ScanNumber(input, offset);
        ok := end.Some?;
        if ok { offset := end.value; }
      }
    }

    method ObjectBody() returns (ok: bool)
      requires At(input, offset) == LEFT_BRACE
      modifies this
      ensures ok <==> ScanValue(input, old(offset)).Some?
      ensures ok ==> offset == ScanValue(input, old(offset)).value
      decreases |input| - offset, 0
    {
      ghost var start, whole := offset, ScanValue(input, offset);
      offset := offset + 1;
      Whitespace();
      ObjectStep(input, start, offset);
      if At(input, offset) == RIGHT_BRACE { offset := offset + 1; return true; }
      var keys: set<Text> := {};
      while true
        invariant start < offset
        invariant ScanMembers(input, offset, keys) == whole
        decreases if offset < |input| then |input| - offset else 0
      {
        ghost var from := offset;
        var key := Member(keys);
        if key.None? { return false; }
        ghost var next := offset;
        if At(input, offset) == RIGHT_BRACE { offset := offset + 1; return true; }
        if At(input, offset) != COMMA { return false; }
        offset := offset + 1;
        Whitespace();
        assert offset == SkipSpace(input, next + 1);
        MembersStep(input, from, keys, next, key.value);
        keys := keys + {key.value};
      }
    }

    method Member(keys: set<Text>) returns (key: Option<Text>)
      modifies this
      ensures match ScanMember(input, old(offset), keys)
              case None => key.None?
              case Some(r) => key == Some(r.1) && offset == r.0
      decreases if offset < |input| then |input| - offset else 0, 2
    {
      if At(input, offset) != QUOTE { return None; }
      key := StringToken();
      if key.None? || key.value in keys { return None; }
      Whitespace();
      if At(input, offset) != COLON { return None; }
      offset := offset + 1;
      Whitespace();
      var ok := Value();
      if !ok { return None; }
      Whitespace();
    }

    method ArrayBody() returns (ok: bool)
      requires At(input, offset) == LEFT_BRACKET
      modifies this
      ensures ok <==> ScanValue(input, old(offset)).Some?
      ensures ok ==> offset == ScanValue(input, old(offset)).value
      decreases |input| - offset, 0
    {
      ghost var start, whole := offset, ScanValue(input, offset);
      offset := offset + 1;
      Whitespace();
      ArrayStep(input, start, offset);
      if At(input, offset) == RIGHT_BRACKET { offset := offset + 1; return true; }
      while true
        invariant start < offset
        invariant ScanItems(input, offset) == whole
        decreases if offset < |input| then |input| - offset else 0
      {
        ghost var from := offset;
        ok := Item();
        if !ok { return false; }
        ItemsStep(input, from, offset);
        if At(input, offset) == RIGHT_BRACKET { offset := offset + 1; return true; }
        if At(input, offset) != COMMA { return false; }
        offset := offset + 1;
        Whitespace();
      }
    }

    method Item() returns (ok: bool)
      modifies this
      ensures ok <==> ScanItem(input, old(offset)).Some?
      ensures ok ==> offset == ScanItem(input, old(offset)).value
      decreases if offset < |input| then |input| - offset else 0, 2
    {
      ok := Value();
      if ok { Whitespace(); }
    }

    /** The decoded string, or None if the scan fails here. */
    method StringToken() returns (key: Option<Text>)
      requires At(input, offset) == QUOTE
      modifies this
      ensures match ScanString(input, old(offset))
              case None => key.None?
              case Some(r) => key == Some(r.1) && offset == r.0
    {
      ghost var start := offset;
      var open := offset;
      offset := offset + 1;
      while true
        invariant start < offset
        invariant StringEnd(input, offset) == StringEnd(input, start + 1)
        decreases if offset < |input| then |input| - offset else 0
      {
        var character := At(input, offset);
        if character < 0x20 { return None; }
        if character == QUOTE {
          offset := offset + 1;
          return Decode(input[open + 1..offset - 1]);
        }
        offset := if character == BACKSLASH then offset + 2 else offset + 1;
      }
    }

    method LiteralWord(word: Text) returns (ok: bool)
      modifies this
      ensures ok <==> ScanWord(input, old(offset), word).Some?
      ensures ok ==> offset == ScanWord(input, old(offset), word).value
    {
      if offset + |word| > |input| || input[offset..offset + |word|] != word { return false; }
      offset := offset + |word|;
      return true;
    }
  }
}
