/** Keyset pagination: one list query, and what following its cursors shows. */
module Pagination {
  import opened Base

  const MAX_LIMIT := 100

  /** The sort key (time, id); ids are compared by the order of their tokens. */
  datatype Key = Key(time: int, id: Uuid)

  datatype Row<T> = Row(key: Key, content: T)

  predicate Less(a: Key, b: Key) {
    a.time < b.time || (a.time == b.time && a.id.token < b.id.token)
  }

  /** queryKeyset: an earlier time, or the same time and a smaller id. */
  predicate Selects(after: Option<Key>, k: Key) {
    match after
    case None => true
    case Some(a) => k.time < a.time || (k.time == a.time && k.id.token < a.id.token)
  }

  predicate Descends<T>(rows: seq<Row<T>>) {
    forall i, j :: 0 <= i < j < |rows| ==> Less(rows[j].key, rows[i].key)
  }

  ghost predicate UniqueKeys<T>(d: set<Row<T>>) {
    forall a, b :: a in d && b in d && a.key == b.key ==> a == b
  }

  ghost predicate HasKey<T>(d: set<Row<T>>, k: Key) {
    exists r :: r in d && r.key == k
  }

  /** $match below the cursor, $sort descending, $limit n. */
  ghost predicate Fetched<T>(d: set<Row<T>>, after: Option<Key>, n: nat, rows: seq<Row<T>>) {
    && |rows| <= n
    && Descends(rows)
    && (forall r :: r in rows ==> r in d && Selects(after, r.key))
    && (forall r :: r in d && Selects(after, r.key) && r !in rows ==>
          |rows| == n && forall s :: s in rows ==> Less(r.key, s.key))
  }

  // ------------------------------------------------------------------- one page

  /** The visible rows and the cursor of the last one, if a further row exists. */
  datatype Page<T> = Page(rows: seq<T>, next: Option<Key>)

  function Visible<T>(rows: seq<T>, limit: nat): seq<T> {
    if |rows| == limit + 1 then rows[..limit] else rows
  }

  function NextCursor<T>(rows: seq<Row<T>>, limit: nat): Option<Key> {
    if |rows| == limit + 1 && limit > 0 then Some(rows[limit - 1].key) else None
  }

  // ------------------------------------------------------------ following cursors

  /** One request of a client: the collection it met, its limit and what was read. */
  datatype Visit<T(==)> = Visit(dataset: set<Row<T>>, limit: nat, fetched: seq<Row<T>>) {
    function Rows(): seq<Row<T>> {
      Visible(fetched, limit)
    }

    function Next(): Option<Key> {
      NextCursor(fetched, limit)
    }
  }

  function CursorAt<T(==)>(visits: seq<Visit<T>>, i: nat): Option<Key>
    requires i <= |visits|
  {
    if i == 0 then None else visits[i - 1].Next()
  }

  /** The client starts without a cursor and follows each page's next cursor, with
      any limits; the collection may be a different one at each request. */
  ghost predicate Follows<T(!new)>(visits: seq<Visit<T>>) {
    forall i :: 0 <= i < |visits| ==> VisitOk(visits, i)
  }

  ghost predicate VisitOk<T(!new)>(visits: seq<Visit<T>>, i: nat)
    requires i < |visits|
  {
    && 1 <= visits[i].limit <= MAX_LIMIT
    && Fetched(visits[i].dataset, CursorAt(visits, i), visits[i].limit + 1, visits[i].fetched)
    && (i > 0 ==> CursorAt(visits, i).Some?)
  }

  function Shown<T(==)>(visits: seq<Visit<T>>): seq<Row<T>> {
    if visits == [] then [] else Shown(visits[..|visits| - 1]) + visits[|visits| - 1].Rows()
  }

  lemma FollowsPrefix<T(!new)>(visits: seq<Visit<T>>)
    requires visits != [] && Follows(visits)
    ensures Follows(visits[..|visits| - 1])
  {
    var front := visits[..|visits| - 1];
    forall i | 0 <= i < |front| ensures VisitOk(front, i) {
      assert VisitOk(visits, i);
      assert CursorAt(front, i) == CursorAt(visits, i);
    }
  }

  lemma PageDescends<T(!new)>(visit: Visit<T>, after: Option<Key>)
    requires visit.limit >= 1 && Fetched(visit.dataset, after, visit.limit + 1, visit.fetched)
    ensures Descends(visit.Rows())
    ensures forall r :: r in visit.Rows() ==> r in visit.dataset && Selects(after, r.key)
    ensures visit.Next().Some? ==> visit.Rows() != [] && visit.Rows()[|visit.Rows()| - 1].key == visit.Next().value
  {
  }

  lemma JoinDescends<T>(a: seq<Row<T>>, b: seq<Row<T>>, cursor: Option<Key>)
    requires Descends(a) && Descends(b)
    requires a != [] ==> cursor == Some(a[|a| - 1].key)
    requires forall r :: r in b ==> Selects(cursor, r.key)
    ensures Descends(a + b)
  {
  }

  /** Whatever is inserted, changed or deleted between the requests, the rows shown
      descend strictly in (time, id): none is shown twice. */
  lemma {:induction false} NoRowRepeats<T(!new)>(visits: seq<Visit<T>>)
    requires Follows(visits)
    ensures Descends(Shown(visits))
    ensures visits != [] && visits[|visits| - 1].Next().Some? ==>
              Shown(visits) != [] && Shown(visits)[|Shown(visits)| - 1].key == visits[|visits| - 1].Next().value
  {
    if visits != [] {
      var n := |visits| - 1;
      FollowsPrefix(visits);
      NoRowRepeats(visits[..n]);
      assert VisitOk(visits, n);
      PageDescends(visits[n], CursorAt(visits, n));
      JoinDescends(Shown(visits[..n]), visits[n].Rows(), CursorAt(visits, n));
    }
  }

  /** What the last request's cursor has put behind it. */
  lemma PageCovers<T(!new)>(visit: Visit<T>, after: Option<Key>, r: Row<T>)
    requires visit.limit >= 1 && Fetched(visit.dataset, after, visit.limit + 1, visit.fetched)
    requires r in visit.dataset && Selects(after, r.key)
    ensures r in visit.Rows() || (visit.Next().Some? && Selects(visit.Next(), r.key))
  {
  }

  /** A key that every request's collection contained is shown, or still ahead. */
  lemma {:induction false} ShownOrAhead<T(!new)>(visits: seq<Visit<T>>, k: Key)
    requires visits != [] && Follows(visits)
    requires forall i :: 0 <= i < |visits| ==> HasKey(visits[i].dataset, k)
    ensures (exists r :: r in Shown(visits) && r.key == k)
            || (visits[|visits| - 1].Next().Some? && Selects(visits[|visits| - 1].Next(), k))
  {
    var n := |visits| - 1;
    var front := visits[..n];
    FollowsPrefix(visits);
    assert VisitOk(visits, n);
    if n > 0 {
      ShownOrAhead(front, k);
      if exists r :: r in Shown(front) && r.key == k {
        var r :| r in Shown(front) && r.key == k;
        assert r in Shown(visits);
        return;
      }
    }
    assert HasKey(visits[n].dataset, k);
    var r :| r in visits[n].dataset && r.key == k;
    PageCovers(visits[n], CursorAt(visits, n), r);
    if r in visits[n].Rows() { assert r in Shown(visits); }
  }

  ghost predicate ShownOnce<T>(rows: seq<Row<T>>, k: Key) {
    && (exists r :: r in rows && r.key == k)
    && (forall i, j :: 0 <= i < j < |rows| ==> !(rows[i].key == k && rows[j].key == k))
  }

  /** Every row that matched throughout has been shown when the cursors end. */
  lemma NoneMissed<T(!new)>(visits: seq<Visit<T>>, k: Key)
    requires visits != [] && Follows(visits) && visits[|visits| - 1].Next().None?
    requires forall i :: 0 <= i < |visits| ==> HasKey(visits[i].dataset, k)
    ensures ShownOnce(Shown(visits), k)
  {
    ShownOrAhead(visits, k);
    NoRowRepeats(visits);
  }

  lemma {:induction false} ShownFrom<T(!new)>(visits: seq<Visit<T>>, d: set<Row<T>>)
    requires Follows(visits) && forall i :: 0 <= i < |visits| ==> visits[i].dataset == d
    ensures forall r :: r in Shown(visits) ==> r in d
    ensures visits != [] ==> |Shown(visits)| >= |visits| - 1
  {
    if visits != [] {
      var n := |visits| - 1;
      FollowsPrefix(visits);
      ShownFrom(visits[..n], d);
      assert VisitOk(visits, n);
      PageDescends(visits[n], CursorAt(visits, n));
      if n > 0 {
        PageNonempty(visits[..n], d);
      }
    }
  }

  /** Pages followed by another page show at least one row each. */
  lemma {:induction false} PageNonempty<T(!new)>(visits: seq<Visit<T>>, d: set<Row<T>>)
    requires visits != [] && Follows(visits) && visits[|visits| - 1].Next().Some?
    ensures |Shown(visits)| >= |visits|
  {
    var n := |visits| - 1;
    FollowsPrefix(visits);
    assert VisitOk(visits, n);
    PageDescends(visits[n], CursorAt(visits, n));
    if n > 0 {
      assert CursorAt(visits, n) == visits[..n][n - 1].Next();
      PageNonempty(visits[..n], d);
    }
  }

  lemma {:induction false} DistinctRows<T>(rows: seq<Row<T>>, d: set<Row<T>>)
    requires Descends(rows) && forall r :: r in rows ==> r in d
    ensures |rows| <= |d|
  {
    if rows != [] {
      var n := |rows| - 1;
      var last := rows[n];
      forall r | r in rows[..n] ensures r in d - {last} {
        var i :| 0 <= i < n && rows[i] == r;
        assert Less(last.key, r.key);
      }
      DistinctRows(rows[..n], d - {last});
    }
  }

  /** Over a fixed collection, any page sizes show exactly its rows, once each and
      in descending order, and the cursors end after at most |d| + 1 requests. */
  lemma FixedCollection<T(!new)>(visits: seq<Visit<T>>, d: set<Row<T>>)
    requires visits != [] && Follows(visits) && UniqueKeys(d)
             && forall i :: 0 <= i < |visits| ==> visits[i].dataset == d
    ensures Descends(Shown(visits)) && |visits| <= |d| + 1
    ensures visits[|visits| - 1].Next().None? ==> forall r :: r in Shown(visits) <==> r in d
  {
    NoRowRepeats(visits);
    ShownFrom(visits, d);
    DistinctRows(Shown(visits), d);
    if visits[|visits| - 1].Next().None? {
      forall r | r in d ensures r in Shown(visits) {
        NoneMissed(visits, r.key);
        var shown :| shown in Shown(visits) && shown.key == r.key;
        assert shown in d;
      }
    }
  }

  /** The page query always has an answer: a finite collection has a largest row. */
  lemma Largest<T>(d: set<Row<T>>) returns (m: Row<T>)
    requires d != {} && UniqueKeys(d)
    ensures m in d && forall r :: r in d && r != m ==> Less(r.key, m.key)
    decreases |d|
  {
    var x :| x in d;
    m := x;
    var rest := d - {x};
    if rest != {} {
      var y := Largest(rest);
      assert Less(x.key, y.key) || Less(y.key, x.key);
      m := if Less(x.key, y.key) then y else x;
    }
    forall r | r in d && r != m ensures Less(r.key, m.key) {
      if r != x { assert r in rest; }
    }
  }

  lemma {:induction false} FetchAnswers<T(!new)>(d: set<Row<T>>, after: Option<Key>, n: nat) returns (rows: seq<Row<T>>)
    requires UniqueKeys(d)
    ensures Fetched(d, after, n, rows)
    decreases n
  {
    var selected := set r | r in d && Selects(after, r.key);
    rows := [];
    if n > 0 && selected != {} {
      var m := Largest(selected);
      var rest := FetchAnswers(d, Some(m.key), n - 1);
      rows := [m] + rest;
      forall r | r in d && Selects(after, r.key) && r !in rows
        ensures |rows| == n && forall s :: s in rows ==> Less(r.key, s.key)
      {
        assert r in selected && r != m;
      }
    } else {
      assert forall r :: r in d && Selects(after, r.key) ==> r in selected;
    }
  }
}
