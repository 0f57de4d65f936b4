/** The defensive copy of a response payload: it walks an object graph that may
    share objects and contain cycles, and builds a fresh frozen tree. */
module JsonCopy {
  import opened Base

  const MAX_JSON_DEPTH: nat := 32

  /** A value as the engine sees it; objects live in a heap and are held by reference. */
  datatype Value =
    | Null
    | Bool(flag: bool)
    | Text(text: string)
    | Number(finite: bool, bits: int)
    | Function
    | Opaque            // undefined, a symbol or a bigint
    | Ref(id: nat)

  datatype Slot = Data(value: Value, enumerable: bool) | Accessor | Absent

  datatype Key = Name(text: string) | Symbol

  datatype Entry = Entry(key: Key, slot: Slot)

  datatype Kind = Array | PlainRecord | Exotic

  /** An array has elements (a hole is Absent) besides its other own entries. */
  datatype Node = Node(proxy: bool, kind: Kind, elements: seq<Slot>, entries: seq<Entry>)

  type Heap = seq<Node>

  datatype Refusal =
    | TooDeep | NotFinite | Unstable | Cycle | BadElement | NotPlain | SymbolKey | ForbiddenKey | BadProperty

  type Outcome<T> = Result<T, Refusal>

  /** What a payload means: a finite tree. */
  datatype Tree =
    | Leaf(leaf: Value)
    | List(items: seq<Tree>)
    | Record(names: seq<string>, items: seq<Tree>)

  // ------------------------------------------------------------------ single checks

  predicate Simple(v: Value) {
    v.Null? || v.Bool? || v.Text? || (v.Number? && v.finite)
  }

  /** Lower-casing, as far as it can produce the letters a to z; besides A to Z only
      the Kelvin sign does. */
  function Lower(s: string): string {
    seq(|s|, i requires 0 <= i < |s| =>
      if 'A' <= s[i] <= 'Z' then (s[i] as int + 32) as char
      else if s[i] == '\U{212A}' then 'k'
      else s[i])
  }

  predicate Forbidden(name: string) {
    Lower(name) in {"cause", "stack", "rawerror", "raw_error"}
  }

  /** The forbidden names in any case, the Kelvin sign counting as a k, and no longer ones. */
  lemma ForbiddenInAnyCase()
    ensures Forbidden("CAUSE") && Forbidden("Stack") && Forbidden("RawError") && Forbidden("raw_ERROR")
    ensures Forbidden("stac\U{212A}") && !Forbidden("causes") && !Forbidden("raw-error")
  {
    assert Lower("CAUSE") == "cause";
    assert Lower("Stack") == "stack" == Lower("stac\U{212A}");
    assert Lower("RawError") == "rawerror";
    assert Lower("raw_ERROR") == "raw_error";
    assert |Lower("causes")| == 6 && |Lower("raw-error")| == 9 && Lower("raw-error")[3] == '-';
  }

  predicate Readable(s: Slot) {
    s.Data? && s.enumerable
  }

  predicate Thenable(n: Node) {
    exists k :: 0 <= k < |n.entries| && n.entries[k].key == Name("then")
                && (n.entries[k].slot.Accessor? || (n.entries[k].slot.Data? && n.entries[k].slot.value.Function?))
  }

  predicate Stable(n: Node) {
    !n.proxy && !Thenable(n)
  }

  predicate Permitted(e: Entry) {
    e.key.Name? && !Forbidden(e.key.text) && Readable(e.slot)
  }

  // ------------------------------------------------- the meaning, independent of the walk

  /** v unfolds to the finite tree t through objects numbered from lo on. */
  ghost predicate Unfolds(h: Heap, v: Value, t: Tree, lo: nat)
    decreases t
  {
    match t
    case Leaf(x) => v == x && Simple(x)
    case List(items) =>
      && v.Ref? && lo <= v.id < |h| && Stable(h[v.id]) && h[v.id].kind.Array?
      && |h[v.id].elements| == |items|
      && forall i :: 0 <= i < |items| ==>
           Readable(h[v.id].elements[i]) && Unfolds(h, h[v.id].elements[i].value, items[i], lo)
    case Record(names, items) =>
      && v.Ref? && lo <= v.id < |h| && Stable(h[v.id]) && h[v.id].kind.PlainRecord?
      && |h[v.id].entries| == |names| == |items|
      && forall i :: 0 <= i < |items| ==>
           Permitted(h[v.id].entries[i]) && h[v.id].entries[i].key == Name(names[i])
           && Unfolds(h, h[v.id].entries[i].slot.value, items[i], lo)
  }

  /** No leaf or container of t lies deeper than n. */
  predicate Within(t: Tree, n: nat)
    decreases t
  {
    match t
    case Leaf(_) => true
    case List(items) => items == [] || (n > 0 && forall i :: 0 <= i < |items| ==> Within(items[i], n - 1))
    case Record(_, items) => items == [] || (n > 0 && forall i :: 0 <= i < |items| ==> Within(items[i], n - 1))
  }

  // ---------------------------------------------------------------------- the walk

  function Budget(depth: nat): nat {
    if depth > MAX_JSON_DEPTH then 0 else MAX_JSON_DEPTH + 1 - depth
  }

  /** copyJsonValue, with the tree it builds as result. */
  function Copied(h: Heap, v: Value, ancestors: set<nat>, depth: nat): Outcome<Tree>
    decreases Budget(depth), 1, 0
  {
    if depth > MAX_JSON_DEPTH then Err(TooDeep)
    else if v.Null? || v.Bool? || v.Text? then Ok(Leaf(v))
    else if v.Number? then (if v.finite then Ok(Leaf(v)) else Err(NotFinite))
    else if !v.Ref? || v.id >= |h| || !Stable(h[v.id]) then Err(Unstable)
    else if v.id in ancestors then Err(Cycle)
    else if h[v.id].kind.Array? then
      match CopiedElements(h, h[v.id].elements, 0, ancestors + {v.id}, depth + 1)
      case Err(e) => Err(e)
      case Ok(items) => Ok(List(items))
    else if !h[v.id].kind.PlainRecord? then Err(NotPlain)
    else
      match CopiedEntries(h, h[v.id].entries, 0, ancestors + {v.id}, depth + 1)
      case Err(e) => Err(e)
      case Ok(items) => Ok(Record(Names(h[v.id].entries), items))
  }

  function CopiedElements(h: Heap, slots: seq<Slot>, from: nat, ancestors: set<nat>, depth: nat): Outcome<seq<Tree>>
    requires from <= |slots| && 0 < depth <= MAX_JSON_DEPTH + 1
    decreases Budget(depth), 2, |slots| - from
  {
    if from == |slots| then Ok([])
    else if !Readable(slots[from]) then Err(BadElement)
    else Joined(Copied(h, slots[from].value, ancestors, depth), CopiedElements(h, slots, from + 1, ancestors, depth))
  }

  function CopiedEntries(h: Heap, entries: seq<Entry>, from: nat, ancestors: set<nat>, depth: nat): Outcome<seq<Tree>>
    requires from <= |entries| && 0 < depth <= MAX_JSON_DEPTH + 1
    decreases Budget(depth), 2, |entries| - from
  {
    if from == |entries| then Ok([])
    else if entries[from].key.Symbol? then Err(SymbolKey)
    else if Forbidden(entries[from].key.text) then Err(ForbiddenKey)
    else if !Readable(entries[from].slot) then Err(BadProperty)
    else Joined(Copied(h, entries[from].slot.value, ancestors, depth),
                CopiedEntries(h, entries, from + 1, ancestors, depth))
  }

  /** The earlier failure wins. */
  function Joined(first: Outcome<Tree>, rest: Outcome<seq<Tree>>): Outcome<seq<Tree>> {
    if first.Err? then Err(first.error)
    else if rest.Err? then rest
    else Ok([first.value] + rest.value)
  }

  function Names(entries: seq<Entry>): seq<string> {
    seq(|entries|, i requires 0 <= i < |entries| => if entries[i].key.Name? then entries[i].key.text else "")
  }

  // ------------------------------------------------------------------- soundness

  /** What the walk returns is the value's own finite unfolding, and it is not too deep. */
  lemma {:induction false} CopySound(h: Heap, v: Value, ancestors: set<nat>, depth: nat)
    requires Copied(h, v, ancestors, depth).Ok?
    ensures depth <= MAX_JSON_DEPTH
    ensures Unfolds(h, v, Copied(h, v, ancestors, depth).value, 0)
    ensures Within(Copied(h, v, ancestors, depth).value, MAX_JSON_DEPTH - depth)
    decreases Budget(depth), 1, 0
  {
    if v.Ref? {
      var below := ancestors + {v.id};
      if h[v.id].kind.Array? {
        var items := ElementsSound(h, h[v.id].elements, 0, below, depth + 1);
        ListUnfolds(h, v, items, depth);
      } else {
        var items := EntriesSound(h, h[v.id].entries, 0, below, depth + 1);
        RecordUnfolds(h, v, items, depth);
      }
    }
  }

  ghost predicate ElementFits(h: Heap, slot: Slot, t: Tree, depth: nat) {
    Readable(slot) && Unfolds(h, slot.value, t, 0) && depth <= MAX_JSON_DEPTH && Within(t, MAX_JSON_DEPTH - depth)
  }

  ghost predicate ElementsFit(h: Heap, slots: seq<Slot>, from: nat, items: seq<Tree>, depth: nat) {
    && from + |items| == |slots|
    && forall k :: from <= k < |slots| ==> ElementFits(h, slots[k], items[k - from], depth)
  }

  ghost predicate EntryFits(h: Heap, entry: Entry, t: Tree, depth: nat) {
    Permitted(entry) && Unfolds(h, entry.slot.value, t, 0) && depth <= MAX_JSON_DEPTH
      && Within(t, MAX_JSON_DEPTH - depth)
  }

  ghost predicate EntriesFit(h: Heap, entries: seq<Entry>, from: nat, items: seq<Tree>, depth: nat) {
    && from + |items| == |entries|
    && forall k :: from <= k < |entries| ==> EntryFits(h, entries[k], items[k - from], depth)
  }

  lemma ListUnfolds(h: Heap, v: Value, items: seq<Tree>, depth: nat)
    requires v.Ref? && v.id < |h| && Stable(h[v.id]) && h[v.id].kind.Array?
    requires depth <= MAX_JSON_DEPTH && ElementsFit(h, h[v.id].elements, 0, items, depth + 1)
    ensures Unfolds(h, v, List(items), 0) && Within(List(items), MAX_JSON_DEPTH - depth)
  {
    var t := List(items);
    forall i | 0 <= i < |t.items|
      ensures ElementFits(h, h[v.id].elements[i], t.items[i], depth + 1)
    {
      assert ElementFits(h, h[v.id].elements[i], items[i - 0], depth + 1);
    }
    if items != [] { assert ElementFits(h, h[v.id].elements[0], t.items[0], depth + 1); }
  }

  lemma RecordUnfolds(h: Heap, v: Value, items: seq<Tree>, depth: nat)
    requires v.Ref? && v.id < |h| && Stable(h[v.id]) && h[v.id].kind.PlainRecord?
    requires depth <= MAX_JSON_DEPTH && EntriesFit(h, h[v.id].entries, 0, items, depth + 1)
    ensures Unfolds(h, v, Record(Names(h[v.id].entries), items), 0)
            && Within(Record(Names(h[v.id].entries), items), MAX_JSON_DEPTH - depth)
  {
    var t := Record(Names(h[v.id].entries), items);
    forall i | 0 <= i < |t.items|
      ensures EntryFits(h, h[v.id].entries[i], t.items[i], depth + 1)
    {
      assert EntryFits(h, h[v.id].entries[i], items[i - 0], depth + 1);
    }
    if items != [] { assert EntryFits(h, h[v.id].entries[0], t.items[0], depth + 1); }
  }

  lemma {:induction false} ElementsSound(h: Heap, slots: seq<Slot>, from: nat, ancestors: set<nat>, depth: nat)
    returns (items: seq<Tree>)
    requires from <= |slots| && 0 < depth <= MAX_JSON_DEPTH + 1
    requires CopiedElements(h, slots, from, ancestors, depth).Ok?
    ensures CopiedElements(h, slots, from, ancestors, depth) == Ok(items) && ElementsFit(h, slots, from, items, depth)
    decreases Budget(depth), 2, |slots| - from
  {
    if from == |slots| { return []; }
    CopySound(h, slots[from].value, ancestors, depth);
    var rest := ElementsSound(h, slots, from + 1, ancestors, depth);
    items := [Copied(h, slots[from].value, ancestors, depth).value] + rest;
    forall k | from <= k < |slots|
      ensures ElementFits(h, slots[k], items[k - from], depth)
    {
      if k > from { assert items[k - from] == rest[k - (from + 1)]; }
    }
  }

  lemma {:induction false} EntriesSound(h: Heap, entries: seq<Entry>, from: nat, ancestors: set<nat>, depth: nat)
    returns (items: seq<Tree>)
    requires from <= |entries| && 0 < depth <= MAX_JSON_DEPTH + 1
    requires CopiedEntries(h, entries, from, ancestors, depth).Ok?
    ensures CopiedEntries(h, entries, from, ancestors, depth) == Ok(items) && EntriesFit(h, entries, from, items, depth)
    decreases Budget(depth), 2, |entries| - from
  {
    if from == |entries| { return []; }
    CopySound(h, entries[from].slot.value, ancestors, depth);
    var rest := EntriesSound(h, entries, from + 1, ancestors, depth);
    items := [Copied(h, entries[from].slot.value, ancestors, depth).value] + rest;
    forall k | from <= k < |entries|
      ensures EntryFits(h, entries[k], items[k - from], depth)
    {
      if k > from { assert items[k - from] == rest[k - (from + 1)]; }
    }
  }

  // ----------------------------------------------------------------- completeness

  /** A value has at most one unfolding. */
  lemma {:induction false} UnfoldsOnce(h: Heap, v: Value, t: Tree, u: Tree)
    requires Unfolds(h, v, t, 0) && Unfolds(h, v, u, 0)
    ensures t == u
    decreases t
  {
    if !t.Leaf? {
      forall i | 0 <= i < |t.items| ensures t.items[i] == u.items[i] {
        var child := if t.List? then h[v.id].elements[i].value else h[v.id].entries[i].slot.value;
        UnfoldsOnce(h, child, t.items[i], u.items[i]);
      }
      assert t.items == u.items;
      if t.Record? { assert forall i :: 0 <= i < |t.names| ==> Name(t.names[i]) == Name(u.names[i]); }
    }
  }

  /** The ancestors are the objects whose unfoldings properly contain t. */
  ghost predicate Enclosing(h: Heap, above: map<nat, Tree>, t: Tree) {
    forall a :: a in above ==> Unfolds(h, Ref(a), above[a], 0) && t < above[a]
  }

  /** An object that unfolds to a finite tree does not lie below itself. */
  lemma NotItsOwnAncestor(h: Heap, v: Value, t: Tree, above: map<nat, Tree>)
    requires v.Ref? && Unfolds(h, v, t, 0) && Enclosing(h, above, t)
    ensures v.id !in above
  {
    if v.id in above { UnfoldsOnce(h, v, t, above[v.id]); }
  }

  lemma ChildrenEnclosed(h: Heap, v: Value, t: Tree, above: map<nat, Tree>)
    requires v.Ref? && Unfolds(h, v, t, 0) && Enclosing(h, above, t) && !t.Leaf?
    ensures forall i :: 0 <= i < |t.items| ==> Enclosing(h, above[v.id := t], t.items[i])
  {
  }

  /** A value with a finite, permitted unfolding that is not too deep is copied. */
  lemma {:induction false} CopyComplete(h: Heap, v: Value, t: Tree, above: map<nat, Tree>, depth: nat)
    requires depth <= MAX_JSON_DEPTH && Unfolds(h, v, t, 0) && Within(t, MAX_JSON_DEPTH - depth)
             && Enclosing(h, above, t)
    ensures Copied(h, v, above.Keys, depth) == Ok(t)
    decreases t, 0
  {
    if !t.Leaf? {
      NotItsOwnAncestor(h, v, t, above);
      ChildrenEnclosed(h, v, t, above);
      assert above[v.id := t].Keys == above.Keys + {v.id};
      if t.List? {
        ElementsComplete(h, h[v.id].elements, t.items, 0, above[v.id := t], depth + 1);
      } else {
        EntriesComplete(h, h[v.id].entries, t.items, 0, above[v.id := t], depth + 1);
        assert Names(h[v.id].entries) == t.names;
      }
    }
  }

  lemma {:induction false} ElementsComplete(h: Heap, slots: seq<Slot>, items: seq<Tree>, from: nat,
                                            above: map<nat, Tree>, depth: nat)
    requires from <= |slots| == |items| && 0 < depth <= MAX_JSON_DEPTH + 1
    requires forall i :: 0 <= i < |items| ==> ElementFits(h, slots[i], items[i], depth) && Enclosing(h, above, items[i])
    ensures CopiedElements(h, slots, from, above.Keys, depth) == Ok(items[from..])
    decreases items, |slots| - from
  {
    if from < |slots| {
      CopyComplete(h, slots[from].value, items[from], above, depth);
      ElementsComplete(h, slots, items, from + 1, above, depth);
      assert items[from..] == [items[from]] + items[from + 1..];
    }
  }

  lemma {:induction false} EntriesComplete(h: Heap, entries: seq<Entry>, items: seq<Tree>, from: nat,
                                           above: map<nat, Tree>, depth: nat)
    requires from <= |entries| == |items| && 0 < depth <= MAX_JSON_DEPTH + 1
    requires forall i :: 0 <= i < |items| ==> EntryFits(h, entries[i], items[i], depth) && Enclosing(h, above, items[i])
    ensures CopiedEntries(h, entries, from, above.Keys, depth) == Ok(items[from..])
    decreases items, |entries| - from
  {
    if from < |entries| {
      CopyComplete(h, entries[from].slot.value, items[from], above, depth);
      EntriesComplete(h, entries, items, from + 1, above, depth);
      assert items[from..] == [items[from]] + items[from + 1..];
    }
  }

  /** A payload is copied exactly when it unfolds to a finite tree of permitted
      leaves and names, no deeper than 32; the copy then is that tree. */
  lemma CopyTheorem(h: Heap, v: Value)
    ensures Copied(h, v, {}, 0).Ok? <==> exists t :: Unfolds(h, v, t, 0) && Within(t, MAX_JSON_DEPTH)
    ensures forall t :: Unfolds(h, v, t, 0) && Within(t, MAX_JSON_DEPTH) ==> Copied(h, v, {}, 0) == Ok(t)
  {
    if Copied(h, v, {}, 0).Ok? {
      CopySound(h, v, {}, 0);
      var t := Copied(h, v, {}, 0).value;
      assert Unfolds(h, v, t, 0) && Within(t, MAX_JSON_DEPTH);
    }
    forall t | Unfolds(h, v, t, 0) && Within(t, MAX_JSON_DEPTH) ensures Copied(h, v, {}, 0) == Ok(t) {
      var none: map<nat, Tree> := map[];
      CopyComplete(h, v, t, none, 0);
      assert none.Keys == {};
    }
  }

  /** One step down from an object to a value it holds. */
  predicate Holds(h: Heap, parent: Value, child: Value) {
    && parent.Ref? && parent.id < |h|
    && match h[parent.id].kind
       case Array => exists i :: 0 <= i < |h[parent.id].elements| && h[parent.id].elements[i] == Data(child, true)
       case PlainRecord => exists i :: 0 <= i < |h[parent.id].entries|
                                       && h[parent.id].entries[i].slot == Data(child, true)
       case Exotic => false
  }

  /** Going down a path of the object graph goes down in the unfolding. */
  lemma {:induction false} DownThePath(h: Heap, path: seq<Value>, t: Tree, n: nat) returns (u: Tree)
    requires n < |path| && Unfolds(h, path[0], t, 0)
    requires forall k :: 0 <= k < n ==> Holds(h, path[k], path[k + 1])
    ensures Unfolds(h, path[n], u, 0) && (n > 0 ==> u < t) && (n == 0 ==> u == t)
  {
    if n == 0 { return t; }
    var w := DownThePath(h, path, t, n - 1);
    assert Holds(h, path[n - 1], path[n - 1 + 1]);
    var o := h[path[n - 1].id];
    if o.kind.Array? {
      var i :| 0 <= i < |o.elements| && o.elements[i] == Data(path[n], true);
      u := w.items[i];
    } else {
      var i :| 0 <= i < |o.entries| && o.entries[i].slot == Data(path[n], true);
      u := w.items[i];
    }
  }

  /** A payload with a cycle anywhere below it is refused. */
  lemma CycleRefused(h: Heap, v: Value, path: seq<Value>, m: nat)
    requires m + 1 < |path| && path[0] == v && path[|path| - 1] == path[m]
    requires forall k :: 0 <= k < |path| - 1 ==> Holds(h, path[k], path[k + 1])
    ensures Copied(h, v, {}, 0).Err?
  {
    if Copied(h, v, {}, 0).Ok? {
      CopySound(h, v, {}, 0);
      var t := DownThePath(h, path, Copied(h, v, {}, 0).value, m);
      var u := DownThePath(h, path[m..], t, |path| - 1 - m);
      UnfoldsOnce(h, path[m], t, u);
      assert false;
    }
  }

  // -------------------------------------------------------------- the copy in the heap

  predicate SlotWithin(s: Slot, n: nat) {
    s.Data? && s.value.Ref? ==> s.value.id < n
  }

  /** No object refers outside the heap. */
  predicate Closed(h: Heap) {
    forall id :: 0 <= id < |h| ==>
      (forall k :: 0 <= k < |h[id].elements| ==> SlotWithin(h[id].elements[k], |h|))
      && (forall k :: 0 <= k < |h[id].entries| ==> SlotWithin(h[id].entries[k].slot, |h|))
  }

  /** What was unfolded stays so when the heap only grows. */
  lemma {:induction false} UnfoldsOnGrowth(h: Heap, g: Heap, v: Value, t: Tree, lo: nat, from: nat)
    requires Unfolds(h, v, t, lo) && h <= g && from <= lo
    ensures Unfolds(g, v, t, from)
    decreases t
  {
    if !t.Leaf? {
      forall i | 0 <= i < |t.items|
        ensures Unfolds(g, if t.List? then h[v.id].elements[i].value else h[v.id].entries[i].slot.value, t.items[i],
                        from)
      {
        UnfoldsOnGrowth(h, g, if t.List? then h[v.id].elements[i].value else h[v.id].entries[i].slot.value, t.items[i],
                        lo, from);
      }
    }
  }

  /** The copies made so far, element by element. */
  ghost predicate AllUnfold(h: Heap, values: seq<Value>, ts: seq<Tree>, lo: nat) {
    |values| == |ts| && forall i :: 0 <= i < |ts| ==> Unfolds(h, values[i], ts[i], lo)
  }

  lemma AllUnfoldOnGrowth(h: Heap, g: Heap, values: seq<Value>, ts: seq<Tree>, lo: nat)
    requires AllUnfold(h, values, ts, lo) && h <= g
    ensures AllUnfold(g, values, ts, lo)
  {
    forall i | 0 <= i < |ts| ensures Unfolds(g, values[i], ts[i], lo) {
      UnfoldsOnGrowth(h, g, values[i], ts[i], lo, lo);
    }
  }

  /** The trees still to come are appended to those already built. */
  function After(done: seq<Tree>, rest: Outcome<seq<Tree>>): Outcome<seq<Tree>> {
    if rest.Err? then rest else Ok(done + rest.value)
  }

  /** The walk over the live heap, with the ancestor set it mutates. */
  class Copier {
    var objects: Heap
    var ancestors: set<nat>

    /** copyJsonValue: g is the heap the payload lives in; the copy is built behind it. */
    method Copy(ghost g: Heap, v: Value, depth: nat) returns (r: Outcome<Value>)
      requires Closed(g) && g <= objects && (v.Ref? ==> v.id < |g|)
      modifies this
      ensures ancestors == old(ancestors) && old(objects) <= objects
      ensures r.Ok? <==> Copied(g, v, old(ancestors), depth).Ok?
      ensures r.Err? ==> r.error == Copied(g, v, old(ancestors), depth).error
      ensures r.Ok? ==> Unfolds(objects, r.value, Copied(g, v, old(ancestors), depth).value, |old(objects)|)
      decreases Budget(depth), 1, 0
    {
      if depth > MAX_JSON_DEPTH { return Err(TooDeep); }
      if v.Null? || v.Text? || v.Bool? { return Ok(v); }
      if v.Number? { return if v.finite then Ok(v) else Err(NotFinite); }
      if !v.Ref? || !Stable(objects[v.id]) { return Err(Unstable); }
      if v.id in ancestors { return Err(Cycle); }
      ancestors := ancestors + {v.id};
      if objects[v.id].kind.Array? {
        r := CopyArray(g, v.id, depth);
      } else if !objects[v.id].kind.PlainRecord? {
        r := Err(NotPlain);
      } else {
        r := CopyRecord(g, v.id, depth);
      }
      ancestors := ancestors - {v.id};
    }

    method CopyArray(ghost g: Heap, id: nat, depth: nat) returns (r: Outcome<Value>)
      requires Closed(g) && g <= objects && id < |g| && depth <= MAX_JSON_DEPTH
      requires Stable(g[id]) && g[id].kind.Array?
      modifies this
      ensures ancestors == old(ancestors) && old(objects) <= objects
      ensures var items := CopiedElements(g, g[id].elements, 0, old(ancestors), depth + 1);
              && (r.Ok? <==> items.Ok?) && (r.Err? ==> r.error == items.error)
              && (r.Ok? ==> Unfolds(objects, r.value, List(items.value), |old(objects)|))
      decreases Budget(depth), 0, 0
    {
      var slots := objects[id].elements;
      var values: seq<Value> := [];
      ghost var done: seq<Tree> := [];
      var index := 0;
      AfterNone(CopiedElements(g, slots, 0, old(ancestors), depth + 1));
      while index < |slots|
        invariant index <= |slots| == |g[id].elements| && slots == g[id].elements
        invariant ancestors == old(ancestors) && old(objects) <= objects
        invariant |values| == index && AllUnfold(objects, values, done, |old(objects)|)
        invariant CopiedElements(g, slots, 0, old(ancestors), depth + 1)
               == After(done, CopiedElements(g, slots, index, old(ancestors), depth + 1))
      {
        if !Readable(slots[index]) { return Err(BadElement); }
        assert SlotWithin(g[id].elements[index], |g|);
        ghost var before := objects;
        var copied := Copy(g, slots[index].value, depth + 1);
        if copied.Err? { return Err(copied.error); }
        AllUnfoldOnGrowth(before, objects, values, done, |old(objects)|);
        ghost var t := Copied(g, slots[index].value, old(ancestors), depth + 1).value;
        UnfoldsOnGrowth(objects, objects, copied.value, t, |before|, |old(objects)|);
        AfterNext(done, t, CopiedElements(g, slots, index + 1, old(ancestors), depth + 1));
        values := values + [copied.value];
        done := done + [t];
        index := index + 1;
      }
      r := Ok(Ref(|objects|));
      ghost var built := objects;
      objects := objects
        + [Node(false, Array, seq(|values|, i requires 0 <= i < |values| => Data(values[i], true)), [])];
      AllUnfoldOnGrowth(built, objects, values, done, |old(objects)|);
    }

    method CopyRecord(ghost g: Heap, id: nat, depth: nat) returns (r: Outcome<Value>)
      requires Closed(g) && g <= objects && id < |g| && depth <= MAX_JSON_DEPTH
      requires Stable(g[id]) && g[id].kind.PlainRecord?
      modifies this
      ensures ancestors == old(ancestors) && old(objects) <= objects
      ensures var items := CopiedEntries(g, g[id].entries, 0, old(ancestors), depth + 1);
              && (r.Ok? <==> items.Ok?) && (r.Err? ==> r.error == items.error)
              && (r.Ok? ==> Unfolds(objects, r.value, Record(Names(g[id].entries), items.value), |old(objects)|))
      decreases Budget(depth), 0, 0
    {
      var entries := objects[id].entries;
      var values: seq<Value> := [];
      ghost var done: seq<Tree> := [];
      var index := 0;
      AfterNone(CopiedEntries(g, entries, 0, old(ancestors), depth + 1));
      while index < |entries|
        invariant index <= |entries| && entries == g[id].entries
        invariant ancestors == old(ancestors) && old(objects) <= objects
        invariant |values| == index && AllUnfold(objects, values, done, |old(objects)|)
        invariant forall k :: 0 <= k < index ==> Permitted(entries[k])
        invariant CopiedEntries(g, entries, 0, old(ancestors), depth + 1)
               == After(done, CopiedEntries(g, entries, index, old(ancestors), depth + 1))
      {
        if entries[index].key.Symbol? { return Err(SymbolKey); }
        if Forbidden(entries[index].key.text) { return Err(ForbiddenKey); }
        if !Readable(entries[index].slot) { return Err(BadProperty); }
        assert SlotWithin(g[id].entries[index].slot, |g|);
        ghost var before := objects;
        var copied := Copy(g, entries[index].slot.value, depth + 1);
        if copied.Err? { return Err(copied.error); }
        AllUnfoldOnGrowth(before, objects, values, done, |old(objects)|);
        ghost var t := Copied(g, entries[index].slot.value, old(ancestors), depth + 1).value;
        UnfoldsOnGrowth(objects, objects, copied.value, t, |before|, |old(objects)|);
        AfterNext(done, t, CopiedEntries(g, entries, index + 1, old(ancestors), depth + 1));
        values := values + [copied.value];
        done := done + [t];
        index := index + 1;
      }
      r := Ok(Ref(|objects|));
      ghost var built := objects;
      var made := Node(false, PlainRecord, [],
        seq(|values|, i requires 0 <= i < |values| => Entry(Name(Names(entries)[i]), Data(values[i], true))));
      objects := objects + [made];
      AllUnfoldOnGrowth(built, objects, values, done, |old(objects)|);
    }
  }

  lemma AfterNone(rest: Outcome<seq<Tree>>)
    ensures After([], rest) == rest
  {
    if rest.Ok? { assert [] + rest.value == rest.value; }
  }

  lemma AfterNext(done: seq<Tree>, t: Tree, rest: Outcome<seq<Tree>>)
    ensures After(done, Joined(Ok(t), rest)) == After(done + [t], rest)
  {
    if rest.Ok? { assert done + ([t] + rest.value) == done + [t] + rest.value; }
  }
}
