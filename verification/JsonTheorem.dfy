/** The scanner accepts a text iff it prints a well-formed document in which no
    object has two names equal after decoding. */
module JsonTheorem {
  import opened Base
  import opened JsonText
  import opened JsonStrings
  import opened JsonScanner
  import opened JsonLayout

  // --------------------------------------------------------------- blanks and digits

  lemma {:induction false} SpaceSound(s: Text, i: nat) returns (t: Text)
    requires i <= |s|
    ensures Blank(t) && Past(s, i, t) == Some(SkipSpace(s, i))
    decreases |s| - i
  {
    t := [];
    if i < |s| && IsSpace(s[i]) {
      var rest := SpaceSound(s, i + 1);
      t := [s[i]] + rest;
      PastSum(s, i, [s[i]], rest);
    }
  }

  lemma {:induction false} SpaceComplete(s: Text, i: nat, t: Text, j: nat)
    requires Past(s, i, t) == Some(j) && Blank(t) && !IsSpace(At(s, j))
    ensures SkipSpace(s, i) == j
    decreases |t|
  {
    if t != [] {
      First(s, i, t);
      assert t == [t[0]] + t[1..];
      PastSum(s, i, [t[0]], t[1..]);
      SpaceComplete(s, i + 1, t[1..], j);
    }
  }

  lemma {:induction false} DigitsSound(s: Text, i: nat) returns (t: Text)
    requires i <= |s|
    ensures (forall k :: 0 <= k < |t| ==> IsDigit(t[k])) && Past(s, i, t) == Some(DigitsEnd(s, i))
    decreases |s| - i
  {
    t := [];
    if i < |s| && IsDigit(s[i]) {
      var rest := DigitsSound(s, i + 1);
      t := [s[i]] + rest;
      PastSum(s, i, [s[i]], rest);
    }
  }

  lemma {:induction false} DigitsComplete(s: Text, i: nat, t: Text, j: nat)
    requires Past(s, i, t) == Some(j) && (forall k :: 0 <= k < |t| ==> IsDigit(t[k])) && !IsDigit(At(s, j))
    ensures DigitsEnd(s, i) == j
    decreases |t|
  {
    if t != [] {
      First(s, i, t);
      assert t == [t[0]] + t[1..];
      PastSum(s, i, [t[0]], t[1..]);
      DigitsComplete(s, i + 1, t[1..], j);
    }
  }

  lemma First(s: Text, i: nat, t: Text)
    requires Past(s, i, t).Some? && t != []
    ensures i < |s| && s[i] == t[0]
  {
  }

  // ------------------------------------------------------------------------ numbers

  /** A unit that would prolong a number. */
  predicate Prolongs(c: int) {
    IsDigit(c) || c == DOT || IsExponentMark(c)
  }

  lemma FractionSound(s: Text, i: nat) returns (f: Option<Text>)
    requires i <= |s|
    ensures PastFraction(s, i, f) == Some(FractionEnd(s, i)) && FractionEnd(s, i) <= |s|
    ensures f.Some? ==> Digits(f.value)
  {
    f := None;
    if At(s, i) == DOT && IsDigit(At(s, i + 1)) {
      var digits := DigitsSound(s, i + 1);
      f := Some(digits);
    }
  }

  lemma ExponentSound(s: Text, i: nat) returns (e: Option<Exponent>)
    requires i <= |s|
    ensures PastExponent(s, i, e) == Some(ExponentEnd(s, i))
    ensures e.Some? ==> ExponentOk(e.value)
  {
    e := None;
    var signed := At(s, i + 1) == PLUS || At(s, i + 1) == MINUS;
    var start := if signed then i + 2 else i + 1;
    if IsExponentMark(At(s, i)) && IsDigit(At(s, start)) {
      var digits := DigitsSound(s, start);
      e := Some(Exponent(At(s, i), if signed then Some(At(s, i + 1)) else None, digits));
    }
  }

  function WholeEnd(s: Text, i: nat): nat {
    if At(s, i) == ZERO then i + 1 else DigitsEnd(s, i + 1)
  }

  lemma WholeSound(s: Text, i: nat) returns (whole: Text)
    requires IsDigit(At(s, i))
    ensures Digits(whole) && (whole[0] == ZERO ==> |whole| == 1)
    ensures Past(s, i, whole) == Some(WholeEnd(s, i))
  {
    whole := [s[i]];
    if s[i] != ZERO {
      var rest := DigitsSound(s, i + 1);
      whole := [s[i]] + rest;
      PastSum(s, i, [s[i]], rest);
    }
  }

  lemma NumberSound(s: Text, i: nat) returns (n: Numeral)
    requires ScanNumber(s, i).Some?
    ensures NumeralOk(n) && PastNumeral(s, i, n) == ScanNumber(s, i)
  {
    var negative := At(s, i) == MINUS;
    var start := if negative then i + 1 else i;
    var whole := WholeSound(s, start);
    var fraction := FractionSound(s, WholeEnd(s, start));
    var exponent := ExponentSound(s, FractionEnd(s, WholeEnd(s, start)));
    n := Numeral(negative, whole, fraction, exponent);
  }

  lemma ExponentComplete(s: Text, i: nat, e: Option<Exponent>, j: nat)
    requires e.Some? ==> ExponentOk(e.value)
    requires PastExponent(s, i, e) == Some(j) && !Prolongs(At(s, j))
    ensures ExponentEnd(s, i) == j
    ensures e.None? ==> i == j
    ensures e.Some? ==> IsExponentMark(At(s, i))
  {
    if e.Some? {
      var at := i + 1 + (if e.value.sign.Some? then 1 else 0);
      DigitsComplete(s, at, e.value.digits, j);
      First(s, at, e.value.digits);
    }
  }

  lemma FractionComplete(s: Text, i: nat, f: Option<Text>, j: nat)
    requires f.Some? ==> Digits(f.value)
    requires PastFraction(s, i, f) == Some(j) && !IsDigit(At(s, j)) && At(s, j) != DOT
    ensures FractionEnd(s, i) == j
    ensures f.None? ==> i == j
    ensures f.Some? ==> At(s, i) == DOT
  {
    if f.Some? {
      First(s, i + 1, f.value);
      DigitsComplete(s, i + 1, f.value, j);
    }
  }

  lemma WholeComplete(s: Text, i: nat, whole: Text, j: nat)
    requires Past(s, i, whole) == Some(j) && Digits(whole) && (whole[0] == ZERO ==> |whole| == 1) && !IsDigit(At(s, j))
    ensures IsDigit(At(s, i)) && WholeEnd(s, i) == j
  {
    First(s, i, whole);
    assert whole == [whole[0]] + whole[1..];
    PastSum(s, i, [whole[0]], whole[1..]);
    DigitsComplete(s, i + 1, whole[1..], j);
  }

  lemma NumberComplete(s: Text, i: nat, n: Numeral, j: nat)
    requires NumeralOk(n) && PastNumeral(s, i, n) == Some(j) && !Prolongs(At(s, j))
    ensures ScanNumber(s, i) == Some(j)
  {
    var a := PastSign(s, i, n.negative).value;
    var b := Past(s, a, n.whole).value;
    var c := PastFraction(s, b, n.fraction).value;
    ExponentComplete(s, c, n.exponent, j);
    FractionComplete(s, b, n.fraction, c);
    WholeComplete(s, a, n.whole, b);
  }

  // ------------------------------------------------------------------------ strings

  lemma {:induction false} PlainEnd(s: Text, i: nat, k: nat)
    requires i + k <= |s|
    requires forall j :: i <= j < i + k ==> s[j] >= 0x20 && s[j] != QUOTE && s[j] != BACKSLASH
    ensures StringEnd(s, i) == StringEnd(s, i + k)
    decreases k
  {
    if k > 0 {
      PlainEnd(s, i + 1, k - 1);
    }
  }

  lemma ElementEnd(s: Text, i: nat, raw: Text)
    requires Past(s, i, raw).Some? && raw != [] && Element(raw).Some?
    ensures StringEnd(s, i) == StringEnd(s, i + Element(raw).value.0)
  {
    First(s, i, raw);
    if Element(raw).value.0 == 6 {
      forall j | i + 2 <= j < i + 6 ensures s[j] >= 0x20 && s[j] != QUOTE && s[j] != BACKSLASH {
        assert s[i + (j - i)] == raw[j - i];
        assert HexValue(raw[j - i]).Some?;
      }
      PlainEnd(s, i + 2, 4);
    }
  }

  lemma PastRest(s: Text, i: nat, t: Text, n: nat)
    requires Past(s, i, t).Some? && n <= |t|
    ensures Past(s, i + n, t[n..]) == Past(s, i, t)
  {
  }

  /** The scan for the closing quote stops at the end of any decodable string. */
  lemma {:induction false} StringComplete(s: Text, i: nat, raw: Text, j: nat)
    requires Past(s, i, raw) == Some(j) && Decode(raw).Some? && At(s, j) == QUOTE
    ensures StringEnd(s, i) == Some(j + 1)
    decreases |raw|
  {
    if raw != [] {
      var n := Element(raw).value.0;
      ElementEnd(s, i, raw);
      PastRest(s, i, raw, n);
      StringComplete(s, i + n, raw[n..], j);
    }
  }

  lemma SliceIs(s: Text, i: nat, t: Text, j: nat)
    requires Past(s, i, t) == Some(j)
    ensures i <= j <= |s| && s[i..j] == t
  {
  }

  lemma ScanStringIs(s: Text, i: nat, end: nat, raw: Text)
    requires StringEnd(s, i + 1) == Some(end) && s[i + 1..end - 1] == raw && Decode(raw).Some?
    ensures ScanString(s, i) == Some((end, Decode(raw).value))
  {
  }

  lemma QuotedComplete(s: Text, i: nat, raw: Text, j: nat)
    requires PastQuoted(s, i, raw) == Some(j) && Decode(raw).Some?
    ensures At(s, i) == QUOTE && ScanString(s, i) == Some((j, Decode(raw).value))
  {
    assert Past(s, i + 1, raw) == Some(j - 1) && At(s, j - 1) == QUOTE;
    StringComplete(s, i + 1, raw, j - 1);
    SliceIs(s, i + 1, raw, j - 1);
    ScanStringIs(s, i, j, raw);
  }

  lemma {:induction false} EndsWithQuote(s: Text, i: nat)
    requires StringEnd(s, i).Some?
    ensures s[StringEnd(s, i).value - 1] == QUOTE
    decreases if i < |s| then |s| - i else 0
  {
    if s[i] == BACKSLASH {
      EndsWithQuote(s, i + 2);
    } else if s[i] != QUOTE {
      EndsWithQuote(s, i + 1);
    }
  }

  lemma QuotedSound(s: Text, i: nat) returns (raw: Text)
    requires At(s, i) == QUOTE && ScanString(s, i).Some?
    ensures Decode(raw) == Some(ScanString(s, i).value.1)
    ensures PastQuoted(s, i, raw) == Some(ScanString(s, i).value.0)
  {
    EndsWithQuote(s, i + 1);
    var end := StringEnd(s, i + 1).value;
    raw := s[i + 1..end - 1];
    assert Sits(s, i + 1, raw);
    assert Past(s, i + 1, raw) == Some(end - 1);
  }

  // ---------------------------------------------------------------------- soundness

  /** Whatever is accepted is a well-formed tree without duplicates. */
  lemma {:induction false} ValueSound(s: Text, i: nat) returns (v: Json)
    requires ScanValue(s, i).Some?
    ensures WellFormed(v) && NoDuplicates(v) && PastValue(s, i, v) == ScanValue(s, i)
    decreases if i < |s| then |s| - i else 0, 1
  {
    if At(s, i) == LEFT_BRACE {
      v := ObjectSound(s, i);
    } else if At(s, i) == LEFT_BRACKET {
      v := ArraySound(s, i);
    } else {
      v := LeafSound(s, i);
    }
  }

  lemma WordSound(s: Text, i: nat, word: Text)
    requires ScanWord(s, i, word).Some?
    ensures Past(s, i, word) == ScanWord(s, i, word)
  {
  }

  lemma LeafSound(s: Text, i: nat) returns (v: Json)
    requires At(s, i) != LEFT_BRACE && At(s, i) != LEFT_BRACKET && ScanValue(s, i).Some?
    ensures WellFormed(v) && NoDuplicates(v) && PastValue(s, i, v) == ScanValue(s, i)
  {
    var c := At(s, i);
    if c == QUOTE {
      var raw := QuotedSound(s, i);
      v := String(raw);
    } else if c == TRUE_WORD[0] {
      v := True;
      WordSound(s, i, TRUE_WORD);
    } else if c == FALSE_WORD[0] {
      v := False;
      WordSound(s, i, FALSE_WORD);
    } else if c == NULL_WORD[0] {
      v := Null;
      WordSound(s, i, NULL_WORD);
    } else {
      var n := NumberSound(s, i);
      v := Number(n);
    }
  }

  lemma {:induction false} ArraySound(s: Text, i: nat) returns (v: Json)
    requires At(s, i) == LEFT_BRACKET && ScanValue(s, i).Some?
    ensures WellFormed(v) && NoDuplicates(v) && PastValue(s, i, v) == ScanValue(s, i)
    decreases if i < |s| then |s| - i else 0, 0
  {
    var lead := SpaceSound(s, i + 1);
    var j := SkipSpace(s, i + 1);
    ArrayStep(s, i, j);
    if At(s, j) == RIGHT_BRACKET {
      v := EmptyArray(lead);
    } else {
      var items := ItemsSound(s, j);
      v := Array(lead, items);
    }
  }

  lemma {:induction false} ObjectSound(s: Text, i: nat) returns (v: Json)
    requires At(s, i) == LEFT_BRACE && ScanValue(s, i).Some?
    ensures WellFormed(v) && NoDuplicates(v) && PastValue(s, i, v) == ScanValue(s, i)
    decreases if i < |s| then |s| - i else 0, 0
  {
    var lead := SpaceSound(s, i + 1);
    var j := SkipSpace(s, i + 1);
    ObjectStep(s, i, j);
    if At(s, j) == RIGHT_BRACE {
      v := EmptyObject(lead);
    } else {
      var members := MembersSound(s, j, {});
      v := Object(lead, members);
    }
  }

  /** What one scanned array element was. */
  lemma {:induction false} ItemSound(s: Text, i: nat) returns (v: Json, after: Text)
    requires ScanItem(s, i).Some?
    ensures WellFormed(v) && NoDuplicates(v) && Blank(after)
    ensures PastItem(s, i, v, after) == ScanItem(s, i)
    decreases if i < |s| then |s| - i else 0, 2
  {
    v := ValueSound(s, i);
    after := SpaceSound(s, ScanValue(s, i).value);
  }

  lemma {:induction false} ItemsSound(s: Text, i: nat) returns (items: Items)
    requires ScanItems(s, i).Some?
    ensures ItemsOk(items) && NoDuplicatesInItems(items) && PastItems(s, i, items) == ScanItems(s, i)
    decreases if i < |s| then |s| - i else 0, 3
  {
    var v, after := ItemSound(s, i);
    var j := ScanItem(s, i).value;
    ItemsStep(s, i, j);
    if At(s, j) == RIGHT_BRACKET {
      items := LastItem(v, after);
    } else {
      var before, rest := RestItemsSound(s, j);
      items := NextItem(v, after, before, rest);
    }
  }

  /** Behind an item: comma, blanks, and the remaining items. */
  lemma {:induction false} RestItemsSound(s: Text, i: nat) returns (before: Text, rest: Items)
    requires At(s, i) == COMMA && ScanItems(s, SkipSpace(s, i + 1)).Some?
    ensures Blank(before) && ItemsOk(rest) && NoDuplicatesInItems(rest)
    ensures PastOpen(s, i, COMMA, before) == Some(SkipSpace(s, i + 1))
    ensures PastItems(s, SkipSpace(s, i + 1), rest) == ScanItems(s, SkipSpace(s, i + 1))
    decreases if i < |s| then |s| - i else 0, 2
  {
    before := SpaceSound(s, i + 1);
    rest := ItemsSound(s, SkipSpace(s, i + 1));
  }

  lemma NameSound(s: Text, i: nat, keyEnd: nat, key: Text, colon: nat) returns (name: Name)
    requires At(s, i) == QUOTE && ScanString(s, i) == Some((keyEnd, key))
    requires SkipSpace(s, keyEnd) == colon && At(s, colon) == COLON
    ensures NameOk(name) && Decode(name.raw) == Some(key)
    ensures PastName(s, i, name) == Some(SkipSpace(s, colon + 1))
  {
    var raw := QuotedSound(s, i);
    var beforeColon := SpaceSound(s, keyEnd);
    var afterColon := SpaceSound(s, colon + 1);
    name := Name(raw, beforeColon, afterColon);
  }

  /** What one scanned member was. */
  lemma {:induction false} MemberSound(s: Text, i: nat, keys: set<Text>) returns (name: Name, v: Json, after: Text)
    requires ScanMember(s, i, keys).Some?
    ensures NameOk(name) && WellFormed(v) && NoDuplicates(v) && Blank(after)
    ensures Decode(name.raw) == Some(ScanMember(s, i, keys).value.1) && ScanMember(s, i, keys).value.1 !in keys
    ensures PastMember(s, i, name, v, after) == Some(ScanMember(s, i, keys).value.0)
    decreases if i < |s| then |s| - i else 0, 2
  {
    MemberStep(s, i, keys);
    var (keyEnd, key) := ScanString(s, i).value;
    var colon := SkipSpace(s, keyEnd);
    name := NameSound(s, i, keyEnd, key, colon);
    v := ValueSound(s, SkipSpace(s, colon + 1));
    after := SpaceSound(s, ScanValue(s, SkipSpace(s, colon + 1)).value);
  }

  /** All names decode, to names not among keys. */
  predicate NewNames(names: seq<Option<Text>>, keys: set<Text>) {
    forall k :: 0 <= k < |names| ==> names[k].Some? && names[k].value !in keys
  }

  predicate FreshNames(members: Members, keys: set<Text>) {
    NewNames(Names(members), keys) && AllDistinct(Names(members))
  }

  /** Fresh names can be checked one after the other against those seen so far. */
  lemma FreshNext(all: seq<Option<Text>>, keys: set<Text>, key: Text, rest: seq<Option<Text>>)
    requires all == [Some(key)] + rest
    ensures NewNames(all, keys) && AllDistinct(all) <==> key !in keys && NewNames(rest, keys + {key})
                                                         && AllDistinct(rest)
  {
    assert all[0] == Some(key) && forall k :: 0 <= k < |rest| ==> all[k + 1] == rest[k];
    if NewNames(all, keys) && AllDistinct(all) {
      forall k | 0 <= k < |rest| ensures rest[k].Some? && rest[k].value !in keys + {key} {
        assert all[0] != all[k + 1];
      }
      forall j, k | 0 <= j < k < |rest| ensures rest[j] != rest[k] {
        assert all[j + 1] != all[k + 1];
      }
    }
    if key !in keys && NewNames(rest, keys + {key}) && AllDistinct(rest) {
      forall k | 0 <= k < |all| ensures all[k].Some? && all[k].value !in keys {
        if k > 0 { assert all[k] == rest[k - 1]; }
      }
      forall j, k | 0 <= j < k < |all| ensures all[j] != all[k] {
        assert all[k] == rest[k - 1];
        if j > 0 { assert all[j] == rest[j - 1]; }
      }
    }
  }

  lemma FreshNamesNext(members: Members, keys: set<Text>, key: Text)
    requires members.NextMember? && Decode(members.name.raw) == Some(key)
    ensures FreshNames(members, keys) <==> key !in keys && FreshNames(members.rest, keys + {key})
  {
    FreshNext(Names(members), keys, key, Names(members.rest));
  }

  lemma OnlyName(members: Members, keys: set<Text>)
    requires members.LastMember? && Decode(members.name.raw).Some?
    ensures FreshNames(members, keys) <==> Decode(members.name.raw).value !in keys
  {
    FreshNext(Names(members), keys, Decode(members.name.raw).value, []);
  }

  lemma {:induction false} MembersSound(s: Text, i: nat, keys: set<Text>) returns (members: Members)
    requires ScanMembers(s, i, keys).Some?
    ensures MembersOk(members) && NoDuplicatesInMembers(members) && FreshNames(members, keys)
    ensures PastMembers(s, i, members) == ScanMembers(s, i, keys)
    decreases if i < |s| then |s| - i else 0, 3
  {
    var name, v, after := MemberSound(s, i, keys);
    var (j, key) := ScanMember(s, i, keys).value;
    MembersStep(s, i, keys, j, key);
    if At(s, j) == RIGHT_BRACE {
      members := LastMember(name, v, after);
      OnlyName(members, keys);
    } else {
      var before, rest := RestSound(s, j, keys + {key});
      members := NextMember(name, v, after, before, rest);
      FreshNamesNext(members, keys, key);
    }
  }

  /** Behind a member: comma, blanks, and the remaining members. */
  lemma {:induction false} RestSound(s: Text, i: nat, keys: set<Text>) returns (before: Text, rest: Members)
    requires At(s, i) == COMMA && ScanMembers(s, SkipSpace(s, i + 1), keys).Some?
    ensures Blank(before) && MembersOk(rest) && NoDuplicatesInMembers(rest) && FreshNames(rest, keys)
    ensures PastOpen(s, i, COMMA, before) == Some(SkipSpace(s, i + 1))
    ensures PastMembers(s, SkipSpace(s, i + 1), rest) == ScanMembers(s, SkipSpace(s, i + 1), keys)
    decreases if i < |s| then |s| - i else 0, 2
  {
    before := SpaceSound(s, i + 1);
    rest := MembersSound(s, SkipSpace(s, i + 1), keys);
  }

  // ------------------------------------------------------------------- completeness

  predicate Opens(v: Json, c: int) {
    match v
    case True => c == TRUE_WORD[0]
    case False => c == FALSE_WORD[0]
    case Null => c == NULL_WORD[0]
    case Number(_) => c == MINUS || IsDigit(c)
    case String(_) => c == QUOTE
    case EmptyArray(_) => c == LEFT_BRACKET
    case Array(_, _) => c == LEFT_BRACKET
    case EmptyObject(_) => c == LEFT_BRACE
    case Object(_, _) => c == LEFT_BRACE
  }

  lemma ValueFirst(s: Text, i: nat, v: Json)
    requires WellFormed(v) && PastValue(s, i, v).Some?
    ensures Opens(v, At(s, i))
  {
    match v
    case True => First(s, i, TRUE_WORD);
    case False => First(s, i, FALSE_WORD);
    case Null => First(s, i, NULL_WORD);
    case Number(n) => if !n.negative { First(s, i, n.whole); }
    case _ =>
  }

  lemma LeafComplete(s: Text, i: nat, v: Json, j: nat)
    requires WellFormed(v) && !v.Array? && !v.Object? && PastValue(s, i, v) == Some(j) && !Prolongs(At(s, j))
    ensures ScanValue(s, i) == Some(j)
  {
    ValueFirst(s, i, v);
    match v
    case True => SliceIs(s, i, TRUE_WORD, j);
    case False => SliceIs(s, i, FALSE_WORD, j);
    case Null => SliceIs(s, i, NULL_WORD, j);
    case Number(n) => NumberComplete(s, i, n, j);
    case String(raw) => QuotedComplete(s, i, raw, j);
    case EmptyArray(space) =>
      SpaceComplete(s, i + 1, space, j - 1);
      ArrayStep(s, i, j - 1);
    case EmptyObject(space) =>
      SpaceComplete(s, i + 1, space, j - 1);
      ObjectStep(s, i, j - 1);
    case _ =>
  }

  /** Scanning a tree that stands in the text accepts it iff it has no duplicate names. */
  lemma {:induction false} ValueComplete(s: Text, i: nat, v: Json, j: nat)
    requires WellFormed(v) && PastValue(s, i, v) == Some(j) && !Prolongs(At(s, j))
    ensures ScanValue(s, i) == if NoDuplicates(v) then Some(j) else None
    decreases v, 0
  {
    match v
    case Array(lead, items) =>
      var a := PastOpen(s, i, LEFT_BRACKET, lead).value;
      ItemsFirst(s, a, items);
      SpaceComplete(s, i + 1, lead, a);
      ArrayStep(s, i, a);
      ItemsComplete(s, a, items, j);
    case Object(lead, members) =>
      var a := PastOpen(s, i, LEFT_BRACE, lead).value;
      MembersFirst(s, a, members);
      SpaceComplete(s, i + 1, lead, a);
      ObjectStep(s, i, a);
      MembersComplete(s, a, members, {}, j);
      NamesAreNew(members);
    case _ => LeafComplete(s, i, v, j);
  }

  lemma ItemsFirst(s: Text, i: nat, items: Items)
    requires ItemsOk(items) && PastItems(s, i, items).Some?
    ensures Opens(items.value, At(s, i))
  {
    ValueFirst(s, i, items.value);
  }

  lemma MembersFirst(s: Text, i: nat, members: Members)
    requires MembersOk(members) && PastMembers(s, i, members).Some?
    ensures At(s, i) == QUOTE
  {
  }

  lemma {:induction false} ItemComplete(s: Text, i: nat, v: Json, after: Text, j: nat)
    requires WellFormed(v) && Blank(after) && PastItem(s, i, v, after) == Some(j)
    requires !IsSpace(At(s, j)) && !Prolongs(At(s, j))
    ensures ScanItem(s, i) == if NoDuplicates(v) then Some(j) else None
    decreases v, 1
  {
    var end := PastValue(s, i, v).value;
    SpaceComplete(s, end, after, j);
    if after != [] { First(s, end, after); }
    ValueComplete(s, i, v, end);
  }

  lemma {:induction false} ItemsComplete(s: Text, i: nat, items: Items, j: nat)
    requires ItemsOk(items) && PastItems(s, i, items) == Some(j)
    ensures ScanItems(s, i) == if NoDuplicatesInItems(items) then Some(j) else None
    decreases items, 2
  {
    var a := PastItem(s, i, items.value, items.after).value;
    ItemComplete(s, i, items.value, items.after, a);
    if NoDuplicates(items.value) {
      ItemsStep(s, i, a);
      if items.NextItem? {
        var b := PastOpen(s, a, COMMA, items.before).value;
        ItemsFirst(s, b, items.rest);
        SpaceComplete(s, a + 1, items.before, b);
        ItemsComplete(s, b, items.rest, j);
      }
    }
  }

  lemma NameComplete(s: Text, i: nat, name: Name, j: nat) returns (keyEnd: nat)
    requires NameOk(name) && PastName(s, i, name) == Some(j) && !IsSpace(At(s, j))
    ensures At(s, i) == QUOTE && ScanString(s, i) == Some((keyEnd, Decode(name.raw).value))
    ensures At(s, SkipSpace(s, keyEnd)) == COLON && SkipSpace(s, SkipSpace(s, keyEnd) + 1) == j
  {
    keyEnd := PastQuoted(s, i, name.raw).value;
    var colon := Past(s, keyEnd, name.beforeColon).value;
    QuotedComplete(s, i, name.raw, keyEnd);
    SpaceComplete(s, keyEnd, name.beforeColon, colon);
    SpaceComplete(s, colon + 1, name.afterColon, j);
  }

  lemma {:induction false} MemberComplete(s: Text, i: nat, name: Name, v: Json, after: Text, keys: set<Text>, j: nat)
    requires NameOk(name) && WellFormed(v) && Blank(after) && PastMember(s, i, name, v, after) == Some(j)
    requires !IsSpace(At(s, j)) && !Prolongs(At(s, j))
    ensures ScanMember(s, i, keys) ==
              if Decode(name.raw).value !in keys && NoDuplicates(v) then Some((j, Decode(name.raw).value)) else None
    decreases v, 2
  {
    var start := PastName(s, i, name).value;
    ValueFirst(s, start, v);
    var keyEnd := NameComplete(s, i, name, start);
    ItemComplete(s, start, v, after, j);
    MemberComposes(s, i, keys, keyEnd, Decode(name.raw).value, start);
  }

  lemma {:induction false} MembersComplete(s: Text, i: nat, members: Members, keys: set<Text>, j: nat)
    requires MembersOk(members) && PastMembers(s, i, members) == Some(j)
    ensures ScanMembers(s, i, keys) == if FreshNames(members, keys)
            && NoDuplicatesInMembers(members) then Some(j) else None
    decreases members, 3
  {
    var key := Decode(members.name.raw).value;
    var a := PastMember(s, i, members.name, members.value, members.after).value;
    MemberComplete(s, i, members.name, members.value, members.after, keys, a);
    if members.LastMember? {
      if ScanMember(s, i, keys).Some? { MembersStep(s, i, keys, a, key); }
      OnlyName(members, keys);
    } else {
      FreshNamesNext(members, keys, key);
      RestComplete(s, a, members.before, members.rest, keys + {key}, j);
      if ScanMember(s, i, keys).Some? { MembersStep(s, i, keys, a, key); }
    }
  }

  /** Behind a member: comma, blanks, and the remaining members. */
  lemma {:induction false} RestComplete(s: Text, i: nat, before: Text, rest: Members, keys: set<Text>, j: nat)
    requires Blank(before) && MembersOk(rest)
    requires PastOpen(s, i, COMMA, before).Some? && PastMembers(s, PastOpen(s, i, COMMA, before).value, rest) == Some(j)
    ensures At(s, i) == COMMA
    ensures ScanMembers(s, SkipSpace(s, i + 1), keys) ==
              if FreshNames(rest, keys) && NoDuplicatesInMembers(rest) then Some(j) else None
    decreases rest, 4
  {
    var b := PastOpen(s, i, COMMA, before).value;
    MembersFirst(s, b, rest);
    SpaceComplete(s, i + 1, before, b);
    MembersComplete(s, b, rest, keys, j);
  }

  lemma {:induction false} NamesAreNew(members: Members)
    requires MembersOk(members)
    ensures NewNames(Names(members), {})
  {
    if members.NextMember? {
      NamesAreNew(members.rest);
    }
  }

  // -------------------------------------------------------------------- the theorem

  function PastDocument(s: Text, d: Document): Option<nat> {
    var a :- Past(s, 0, d.lead);
    var b :- PastValue(s, a, d.value);
    Past(s, b, d.trail)
  }

  lemma DocumentPrints(s: Text, d: Document)
    requires DocumentOk(d)
    ensures PastDocument(s, d) == Past(s, 0, PrintDocument(d))
    ensures PastDocument(s, d) == Some(|s|) <==> PrintDocument(d) == s
  {
    PastSum3(s, 0, d.lead, Print(d.value), d.trail);
    if Past(s, 0, d.lead).Some? { ValuePrints(s, |d.lead|, d.value); }
    if PastDocument(s, d) == Some(|s|) {
      SliceIs(s, 0, PrintDocument(d), |s|);
      assert s[0..|s|] == s;
    }
  }

  lemma StandingDocumentScans(s: Text, d: Document)
    requires DocumentOk(d) && PastDocument(s, d) == Some(|s|)
    ensures Accepts(s) <==> NoDuplicates(d.value)
  {
    var a := Past(s, 0, d.lead).value;
    var b := PastValue(s, a, d.value).value;
    ValueFirst(s, a, d.value);
    SpaceComplete(s, 0, d.lead, a);
    SpaceComplete(s, b, d.trail, |s|);
    if d.trail != [] { First(s, b, d.trail); }
    ValueComplete(s, a, d.value, b);
  }

  /** Scanning a printed document accepts iff no object at any depth has two names
      equal after decoding. */
  lemma ScanOfPrint(d: Document)
    requires DocumentOk(d)
    ensures Accepts(PrintDocument(d)) <==> NoDuplicates(d.value)
  {
    DocumentPrints(PrintDocument(d), d);
    StandingDocumentScans(PrintDocument(d), d);
  }

  /** What the scanner accepts is such a document. */
  lemma AcceptedIsPrint(s: Text) returns (d: Document)
    requires Accepts(s)
    ensures DocumentOk(d) && NoDuplicates(d.value) && PrintDocument(d) == s
  {
    var lead := SpaceSound(s, 0);
    var v := ValueSound(s, SkipSpace(s, 0));
    var trail := SpaceSound(s, ScanValue(s, SkipSpace(s, 0)).value);
    d := Document(lead, v, trail);
    DocumentPrints(s, d);
  }

  /** The scanner accepts exactly the JSON texts without duplicate names: a text
      is accepted iff it prints some document without duplicates, and then every
      document it prints is without them. */
  lemma ScannerTheorem(s: Text)
    ensures Accepts(s) <==> exists d: Document :: DocumentOk(d) && NoDuplicates(d.value) && PrintDocument(d) == s
    ensures forall d: Document :: DocumentOk(d) && PrintDocument(d) == s ==> (Accepts(s) <==> NoDuplicates(d.value))
  {
    if Accepts(s) {
      var d := AcceptedIsPrint(s);
    }
    forall d: Document | DocumentOk(d) && PrintDocument(d) == s ensures Accepts(s) <==> NoDuplicates(d.value) {
      ScanOfPrint(d);
    }
  }

  // ------------------------------------------------------------ names and their writing

  /** Member names are compared by the text they stand for, however they are written:
      an object with two names that write the same text is refused. */
  lemma SameNameRefused(d: Document, i: nat, j: nat, text: Text)
    requires DocumentOk(d) && d.value.Object? && i < j < |Names(d.value.members)|
    requires Names(d.value.members)[i] == Some(text) && Names(d.value.members)[j] == Some(text)
    ensures !Accepts(PrintDocument(d))
  {
    ScanOfPrint(d);
  }

  /** An object with two members, named by these writings. */
  function TwoMembers(first: seq<Written>, second: seq<Written>): Document
    requires AllWritten(first) && AllWritten(second)
  {
    Document([], Object([], NextMember(Name(WriteAll(first), [], []), True, [], [],
                                       LastMember(Name(WriteAll(second), [], []), False, []))), [])
  }

  lemma TwoMembersOk(first: seq<Written>, second: seq<Written>)
    requires AllWritten(first) && AllWritten(second)
    ensures DocumentOk(TwoMembers(first, second))
    ensures Names(TwoMembers(first, second).value.members) == [Some(UnitsOf(first)), Some(UnitsOf(second))]
  {
    WritingsDecode(first);
    WritingsDecode(second);
    TwoMembersShape(WriteAll(first), WriteAll(second));
  }

  lemma TwoMembersShape(first: Text, second: Text)
    requires Decode(first).Some? && Decode(second).Some?
    ensures var members := NextMember(Name(first, [], []), True, [], [], LastMember(Name(second, [], []), False, []));
            MembersOk(members) && Names(members) == [Decode(first), Decode(second)]
  {
    var last := LastMember(Name(second, [], []), False, []);
    assert MembersOk(last) && Names(last) == [Decode(second)];
  }

  lemma TwoNames(members: Members, a: Option<Text>, b: Option<Text>)
    requires Names(members) == [a, b] && NoDuplicatesInMembers(members)
    ensures NoDuplicates(Object([], members)) <==> a != b
  {
    assert Names(members)[0] == a && Names(members)[1] == b;
  }

  /** Such an object is accepted exactly if its names stand for different texts. */
  lemma TwoMembersAccepted(first: seq<Written>, second: seq<Written>)
    requires AllWritten(first) && AllWritten(second)
    ensures Accepts(PrintDocument(TwoMembers(first, second))) <==> UnitsOf(first) != UnitsOf(second)
  {
    var d := TwoMembers(first, second);
    TwoMembersOk(first, second);
    TwoNames(d.value.members, Some(UnitsOf(first)), Some(UnitsOf(second)));
    ScanOfPrint(d);
  }

  /** The names "a" and "\u0061" are the same; "a" and "\u0062" are not. */
  lemma EscapedNames()
    ensures !Accepts(PrintDocument(TwoMembers([Plain(0x61)], [Hex(0x61, [false, false, false, false])])))
    ensures Accepts(PrintDocument(TwoMembers([Plain(0x61)], [Hex(0x62, [false, false, false, false])])))
  {
    var a, same, other := Plain(0x61), Hex(0x61, [false, false, false, false]), Hex(0x62, [false, false, false, false]);
    TwoMembersAccepted([a], [same]);
    TwoMembersAccepted([a], [other]);
    assert UnitsOf([a]) == UnitsOf([same]) == [0x61] && UnitsOf([other]) == [0x62];
  }
}
