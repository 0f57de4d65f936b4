/** Reading a given tree off a text: where it ends, if it stands there at all. The
    proofs about the scanner only speak of such offsets; that reading a tree is
    finding its print is shown here once. */
module JsonLayout {
  import opened Base
  import opened JsonText
  import opened JsonScanner

  predicate Sits(s: Text, i: nat, t: Text) {
    i + |t| <= |s| && forall k :: 0 <= k < |t| ==> s[i + k] == t[k]
  }

  /** The offset behind text t, if t stands at i. */
  function Past(s: Text, i: nat, t: Text): (r: Option<nat>)
    ensures r.Some? ==> r.value == i + |t| <= |s|
  {
    if Sits(s, i, t) then Some(i + |t|) else None
  }

  function PastUnit(s: Text, i: nat, c: int): (r: Option<nat>)
    ensures r.Some? && c >= 0 ==> r.value == i + 1 <= |s|
  {
    if At(s, i) == c then Some(i + 1) else None
  }

  function PastSign(s: Text, i: nat, negative: bool): Option<nat> {
    if negative then PastUnit(s, i, MINUS) else Some(i)
  }

  function PastFraction(s: Text, i: nat, f: Option<Text>): Option<nat> {
    match f
    case None => Some(i)
    case Some(digits) =>
      var a :- PastUnit(s, i, DOT);
      Past(s, a, digits)
  }

  function PastExponent(s: Text, i: nat, e: Option<Exponent>): Option<nat> {
    match e
    case None => Some(i)
    case Some(x) =>
      var a :- PastUnit(s, i, x.mark);
      match x.sign
      case None => Past(s, a, x.digits)
      case Some(c) =>
        var b :- PastUnit(s, a, c);
        Past(s, b, x.digits)
  }

  function PastNumeral(s: Text, i: nat, n: Numeral): Option<nat> {
    var a :- PastSign(s, i, n.negative);
    var b :- Past(s, a, n.whole);
    var c :- PastFraction(s, b, n.fraction);
    PastExponent(s, c, n.exponent)
  }

  function PastQuoted(s: Text, i: nat, raw: Text): Option<nat> {
    PastBrackets(s, i, QUOTE, raw, QUOTE)
  }

  function PastBrackets(s: Text, i: nat, open: int, body: Text, close: int): Option<nat> {
    var a :- PastUnit(s, i, open);
    var b :- Past(s, a, body);
    PastUnit(s, b, close)
  }

  function PastOpen(s: Text, i: nat, open: int, lead: Text): Option<nat> {
    var a :- PastUnit(s, i, open);
    Past(s, a, lead)
  }

  function PastValue(s: Text, i: nat, v: Json): Option<nat>
    decreases v, 0
  {
    match v
    case True => Past(s, i, TRUE_WORD)
    case False => Past(s, i, FALSE_WORD)
    case Null => Past(s, i, NULL_WORD)
    case Number(n) => PastNumeral(s, i, n)
    case String(raw) => PastQuoted(s, i, raw)
    case EmptyArray(space) => PastBrackets(s, i, LEFT_BRACKET, space, RIGHT_BRACKET)
    case EmptyObject(space) => PastBrackets(s, i, LEFT_BRACE, space, RIGHT_BRACE)
    case Array(lead, items) =>
      var a :- PastOpen(s, i, LEFT_BRACKET, lead);
      PastItems(s, a, items)
    case Object(lead, members) =>
      var a :- PastOpen(s, i, LEFT_BRACE, lead);
      PastMembers(s, a, members)
  }

  function PastItem(s: Text, i: nat, v: Json, after: Text): Option<nat>
    decreases v, 1
  {
    var a :- PastValue(s, i, v);
    Past(s, a, after)
  }

  function PastItems(s: Text, i: nat, items: Items): Option<nat>
    decreases items, 0
  {
    var a :- PastItem(s, i, items.value, items.after);
    match items
    case LastItem(_, _) => PastUnit(s, a, RIGHT_BRACKET)
    case NextItem(_, _, before, rest) =>
      var b :- PastOpen(s, a, COMMA, before);
      PastItems(s, b, rest)
  }

  function PastName(s: Text, i: nat, n: Name): Option<nat> {
    var a :- PastQuoted(s, i, n.raw);
    var b :- Past(s, a, n.beforeColon);
    PastOpen(s, b, COLON, n.afterColon)
  }

  function PastMember(s: Text, i: nat, name: Name, v: Json, after: Text): Option<nat>
    decreases v, 2
  {
    var a :- PastName(s, i, name);
    PastItem(s, a, v, after)
  }

  function PastMembers(s: Text, i: nat, members: Members): Option<nat>
    decreases members, 0
  {
    var a :- PastMember(s, i, members.name, members.value, members.after);
    match members
    case LastMember(_, _, _) => PastUnit(s, a, RIGHT_BRACE)
    case NextMember(_, _, _, before, rest) =>
      var b :- PastOpen(s, a, COMMA, before);
      PastMembers(s, b, rest)
  }

  // ------------------------------------------------------------ reading is printing

  lemma PastSum(s: Text, i: nat, a: Text, b: Text)
    ensures Past(s, i, a + b) == if Past(s, i, a).None? then None else Past(s, i + |a|, b)
  {
    var t := a + b;
    if Sits(s, i, t) {
      forall k | 0 <= k < |a| ensures s[i + k] == a[k] {
        assert t[k] == a[k];
      }
      forall k | 0 <= k < |b| ensures s[i + |a| + k] == b[k] {
        assert t[|a| + k] == b[k];
        assert s[i + (|a| + k)] == t[|a| + k];
      }
    }
    if Sits(s, i, a) && Sits(s, i + |a|, b) {
      forall k | 0 <= k < |t| ensures s[i + k] == t[k] {
        if k >= |a| {
          assert s[i + |a| + (k - |a|)] == b[k - |a|];
        }
      }
    }
  }

  lemma PastOne(s: Text, i: nat, c: int)
    requires c >= 0
    ensures Past(s, i, [c]) == PastUnit(s, i, c)
  {
    if Sits(s, i, [c]) { assert s[i + 0] == [c][0]; }
  }

  lemma PastNone(s: Text, i: nat)
    requires i <= |s|
    ensures Past(s, i, []) == Some(i)
  {
  }

  lemma PastSum3(s: Text, i: nat, a: Text, b: Text, c: Text)
    ensures Past(s, i, a + b + c) ==
              if Past(s, i, a).None? || Past(s, i + |a|, b).None? then None else Past(s, i + |a| + |b|, c)
  {
    PastSum(s, i, a + b, c);
    PastSum(s, i, a, b);
  }

  lemma FractionPrints(s: Text, i: nat, f: Option<Text>)
    requires i <= |s|
    ensures PastFraction(s, i, f) == Past(s, i, PrintFraction(f))
  {
    match f
    case None => PastNone(s, i);
    case Some(digits) =>
      PastSum(s, i, [DOT], digits);
      PastOne(s, i, DOT);
  }

  lemma ExponentPrints(s: Text, i: nat, e: Option<Exponent>)
    requires i <= |s| && (e.Some? ==> ExponentOk(e.value))
    ensures PastExponent(s, i, e) == Past(s, i, PrintExponent(e))
  {
    match e
    case None => PastNone(s, i);
    case Some(x) =>
      var sign := match x.sign case None => [] case Some(c) => [c];
      PastSum3(s, i, [x.mark], sign, x.digits);
      PastOne(s, i, x.mark);
      if x.sign.Some? {
        PastOne(s, i + 1, x.sign.value);
      } else if PastUnit(s, i, x.mark).Some? {
        PastNone(s, i + 1);
      }
  }

  lemma NumeralPrints(s: Text, i: nat, n: Numeral)
    requires i <= |s| && NumeralOk(n)
    ensures PastNumeral(s, i, n) == Past(s, i, PrintNumeral(n))
  {
    PastSum(s, i, PrintSign(n) + n.whole + PrintFraction(n.fraction), PrintExponent(n.exponent));
    PastSum3(s, i, PrintSign(n), n.whole, PrintFraction(n.fraction));
    PastOne(s, i, MINUS);
    PastNone(s, i);
    var a := Past(s, i, PrintSign(n));
    if a.Some? && Past(s, a.value, n.whole).Some? {
      var b := Past(s, a.value, n.whole).value;
      FractionPrints(s, b, n.fraction);
      var c := Past(s, b, PrintFraction(n.fraction));
      if c.Some? { ExponentPrints(s, c.value, n.exponent); }
    }
  }

  lemma BracketsPrint(s: Text, i: nat, open: int, body: Text, close: int)
    requires open >= 0 && close >= 0
    ensures PastBrackets(s, i, open, body, close) == Past(s, i, [open] + body + [close])
  {
    PastSum3(s, i, [open], body, [close]);
    PastOne(s, i, open);
    PastOne(s, i + 1 + |body|, close);
  }

  lemma OpenPrints(s: Text, i: nat, open: int, lead: Text)
    requires open >= 0
    ensures PastOpen(s, i, open, lead) == Past(s, i, [open] + lead)
  {
    PastSum(s, i, [open], lead);
    PastOne(s, i, open);
  }

  /** Opening bracket, blanks and the rest. */
  lemma OpenedPrints(s: Text, i: nat, open: int, lead: Text, rest: Text)
    requires open >= 0
    ensures Past(s, i, [open] + lead + rest) ==
              if PastOpen(s, i, open, lead).None? then None else Past(s, i + 1 + |lead|, rest)
  {
    OpenPrints(s, i, open, lead);
    PastSum(s, i, [open] + lead, rest);
  }

  lemma LeafPrints(s: Text, i: nat, v: Json)
    requires WellFormed(v) && !v.Array? && !v.Object? && i <= |s|
    ensures PastValue(s, i, v) == Past(s, i, Print(v))
  {
    match v
    case Number(n) => NumeralPrints(s, i, n);
    case String(raw) => BracketsPrint(s, i, QUOTE, raw, QUOTE);
    case EmptyArray(space) => BracketsPrint(s, i, LEFT_BRACKET, space, RIGHT_BRACKET);
    case EmptyObject(space) => BracketsPrint(s, i, LEFT_BRACE, space, RIGHT_BRACE);
    case _ =>
  }

  lemma {:induction false} ValuePrints(s: Text, i: nat, v: Json)
    requires i <= |s| && WellFormed(v)
    ensures PastValue(s, i, v) == Past(s, i, Print(v))
    decreases v, 0
  {
    match v
    case Array(lead, items) =>
      OpenedPrints(s, i, LEFT_BRACKET, lead, PrintItems(items));
      if PastOpen(s, i, LEFT_BRACKET, lead).Some? { ItemsPrint(s, i + 1 + |lead|, items); }
    case Object(lead, members) =>
      OpenedPrints(s, i, LEFT_BRACE, lead, PrintMembers(members));
      if PastOpen(s, i, LEFT_BRACE, lead).Some? { MembersPrint(s, i + 1 + |lead|, members); }
    case _ =>
      LeafPrints(s, i, v);
  }

  lemma {:induction false} ItemPrints(s: Text, i: nat, v: Json, after: Text)
    requires i <= |s| && WellFormed(v)
    ensures PastItem(s, i, v, after) == Past(s, i, PrintItem(v, after))
    decreases v, 1
  {
    ValuePrints(s, i, v);
    PastSum(s, i, Print(v), after);
  }

  /** Item, comma, blanks and the rest. */
  lemma NextPrints(s: Text, i: nat, item: Text, before: Text, rest: Text)
    ensures Past(s, i, item + [COMMA] + before + rest) ==
              if Past(s, i, item).None? || PastOpen(s, i + |item|, COMMA, before).None? then None
              else Past(s, i + |item| + 1 + |before|, rest)
  {
    assert item + [COMMA] + before + rest == item + ([COMMA] + before) + rest;
    PastSum3(s, i, item, [COMMA] + before, rest);
    OpenPrints(s, i + |item|, COMMA, before);
  }

  lemma {:induction false} ItemsPrint(s: Text, i: nat, items: Items)
    requires i <= |s| && ItemsOk(items)
    ensures PastItems(s, i, items) == Past(s, i, PrintItems(items))
    decreases items, 2
  {
    var item := PrintItem(items.value, items.after);
    ItemPrints(s, i, items.value, items.after);
    match items
    case LastItem(v, after) =>
      PastSum(s, i, item, [RIGHT_BRACKET]);
      PastOne(s, i + |item|, RIGHT_BRACKET);
    case NextItem(v, after, before, rest) =>
      NextPrints(s, i, item, before, PrintItems(rest));
      if PastOpen(s, i + |item|, COMMA, before).Some? { ItemsPrint(s, i + |item| + 1 + |before|, rest); }
  }

  lemma NamePrints(s: Text, i: nat, n: Name)
    ensures PastName(s, i, n) == Past(s, i, PrintName(n))
  {
    var quoted := [QUOTE] + n.raw + [QUOTE];
    assert PrintName(n) == quoted + n.beforeColon + ([COLON] + n.afterColon);
    PastSum3(s, i, quoted, n.beforeColon, [COLON] + n.afterColon);
    BracketsPrint(s, i, QUOTE, n.raw, QUOTE);
    OpenPrints(s, i + |quoted| + |n.beforeColon|, COLON, n.afterColon);
  }

  lemma {:induction false} MemberPrints(s: Text, i: nat, name: Name, v: Json, after: Text)
    requires WellFormed(v)
    ensures PastMember(s, i, name, v, after) == Past(s, i, PrintMember(name, v, after))
    decreases v, 2
  {
    NamePrints(s, i, name);
    PastSum(s, i, PrintName(name), PrintItem(v, after));
    if PastName(s, i, name).Some? { ItemPrints(s, i + |PrintName(name)|, v, after); }
  }

  lemma {:induction false} MembersPrint(s: Text, i: nat, members: Members)
    requires MembersOk(members)
    ensures PastMembers(s, i, members) == Past(s, i, PrintMembers(members))
    decreases members, 3
  {
    var member := PrintMember(members.name, members.value, members.after);
    MemberPrints(s, i, members.name, members.value, members.after);
    match members
    case LastMember(name, v, after) =>
      PastSum(s, i, member, [RIGHT_BRACE]);
      PastOne(s, i + |member|, RIGHT_BRACE);
    case NextMember(name, v, after, before, rest) =>
      NextPrints(s, i, member, before, PrintMembers(rest));
      if PastOpen(s, i + |member|, COMMA, before).Some? { MembersPrint(s, i + |member| + 1 + |before|, rest); }
  }
}
