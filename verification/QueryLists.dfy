/** The list queries over the access store: what one call does with its observation
    lease, and what following cursors shows while use cases keep committing. */
module QueryLists {
  import opened Base
  import opened Domain
  import opened Store
  import opened UseCases
  import opened StoreInvariants
  import opened Reachable
  import opened Effects
  import opened Pagination

  // ------------------------------------------------------------------- one call

  datatype QueryError = InvalidRequest | TechnicalBusy | PersistenceUnavailable

  /** A read-observation lease; release may throw, but has then been asked for. */
  class ReadLease {
    const observedAt: int
    const releaseThrows: bool
    ghost var released: nat

    constructor (observedAt: int, releaseThrows: bool)
      ensures this.observedAt == observedAt && this.releaseThrows == releaseThrows && released == 0
    {
      this.observedAt := observedAt;
      this.releaseThrows := releaseThrows;
      released := 0;
    }

    method Release() returns (threw: bool)
      modifies this
      ensures released == old(released) + 1 && threw == releaseThrows
    {
      released := released + 1;
      return releaseThrows;
    }
  }

  datatype Acquisition = Acquired(lease: ReadLease) | Busy | AcquireThrew

  datatype ReadOutcome<T> = Read(rows: seq<Row<T>>) | ReadThrew

  /** What a list call answers, lease aside: more rows than asked for, a row that
      cannot be rendered, a next cursor that cannot be encoded, or a throwing read are
      all PERSISTENCE_UNAVAILABLE. */
  ghost function Answer<T, U>(limit: nat, read: ReadOutcome<T>, render: (T, int) -> Option<U>, encodes: Key -> bool,
                              observedAt: int): Result<Page<U>, QueryError>
  {
    if read.ReadThrew? || |read.rows| > limit + 1 then Err(PersistenceUnavailable)
    else
      var visible := Visible(read.rows, limit);
      if exists i :: 0 <= i < |visible| && render(visible[i].content, observedAt).None? then Err(PersistenceUnavailable)
      else if NextCursor(read.rows, limit).Some?
        && !encodes(NextCursor(read.rows, limit).value) then Err(PersistenceUnavailable)
      else
        Ok(Page(seq(|visible|, i requires 0 <= i < |visible| => render(visible[i].content, observedAt).value),
                NextCursor(read.rows, limit)))
  }

  /** A read of at most limit + 1 rows, all of which can be shown, is answered with the
      first limit of them; a cursor, that of the last shown, exactly if a row is left. */
  lemma AnswerIff<T, U>(limit: nat, read: ReadOutcome<T>, render: (T, int) -> Option<U>, encodes: Key -> bool, at: int)
    requires limit >= 1
    ensures var r := Answer(limit, read, render, encodes, at);
            && (r.Ok? <==>
                  && read.Read? && |read.rows| <= limit + 1
                  && (forall i :: 0 <= i < |read.rows| && i < limit ==> render(read.rows[i].content, at).Some?)
                  && (|read.rows| == limit + 1 ==> encodes(read.rows[limit - 1].key)))
            && (r.Err? ==> r.error == PersistenceUnavailable)
            && (r.Ok? ==>
                  && |r.value.rows| == (if |read.rows| <= limit then |read.rows| else limit)
                  && (forall i :: 0 <= i < |r.value.rows| ==> render(read.rows[i].content, at) == Some(r.value.rows[i]))
                  && r.value.next == if |read.rows| == limit + 1 then Some(read.rows[limit - 1].key) else None)
  {
  }

  /** runList: on every path an acquired lease is released exactly once, a refused
      one never, and the page is the first `limit` rows with the cursor of the last. */
  method RunList<T, U(0)>(acquired: Acquisition, read: ReadOutcome<T>, render: (T, int) -> Option<U>,
                          encodes: Key -> bool, limit: nat)
    returns (r: Result<Page<U>, QueryError>)
    requires 1 <= limit <= MAX_LIMIT
    modifies if acquired.Acquired? then {acquired.lease} else {}
    ensures acquired.Acquired? ==> acquired.lease.released == old(acquired.lease.released) + 1
    ensures acquired.AcquireThrew? ==> r == Err(PersistenceUnavailable)
    ensures acquired.Busy? ==> r == Err(TechnicalBusy)
    ensures acquired.Acquired? ==>
              r == if acquired.lease.releaseThrows then Err(PersistenceUnavailable)
                   else Answer(limit, read, render, encodes, acquired.lease.observedAt)
  {
    if acquired.AcquireThrew? { return Err(PersistenceUnavailable); }
    if acquired.Busy? { return Err(TechnicalBusy); }
    var lease := acquired.lease;
    if read.ReadThrew? {
      var _ := lease.Release();
      return Err(PersistenceUnavailable);
    }
    r := RenderPage(read.rows, render, encodes, lease.observedAt, limit);
    var threw := lease.Release();
    if threw { r := Err(PersistenceUnavailable); }
  }

  method RenderPage<T, U(0)>(rows: seq<Row<T>>, render: (T, int) -> Option<U>, encodes: Key -> bool, observedAt: int,
                             limit: nat)
    returns (r: Result<Page<U>, QueryError>)
    requires 1 <= limit <= MAX_LIMIT
    ensures r == Answer(limit, Read(rows), render, encodes, observedAt)
  {
    if |rows| > limit + 1 { return Err(PersistenceUnavailable); }
    var hasExtra := |rows| == limit + 1;
    var visible := if hasExtra then rows[..limit] else rows;
    var items: seq<U> := [];
    var i := 0;
    while i < |visible|
      invariant 0 <= i == |items| <= |visible|
      invariant forall k :: 0 <= k < i ==> render(visible[k].content, observedAt) == Some(items[k])
    {
      var item := render(visible[i].content, observedAt);
      if item.None? { return Err(PersistenceUnavailable); }
      items := items + [item.value];
      i := i + 1;
    }
    var next := if hasExtra then Some(visible[|visible| - 1].key) else None;
    if next.Some? && !encodes(next.value) { return Err(PersistenceUnavailable); }
    r := Ok(Page(items, next));
    assert items == seq(|visible|, k requires 0 <= k < |visible| => render(visible[k].content, observedAt).value);
  }

  // ------------------------------------------------------------- the store's lists

  datatype EventFilters = EventFilters(qualificationId: Option<Uuid>, outcome: Option<Outcome>, reason: Option<Reason>)

  predicate Matches(f: EventFilters, e: Event) {
    && (f.qualificationId.Some? ==> e.qualificationId == f.qualificationId)
    && (f.outcome.Some? ==> e.outcome == f.outcome.value)
    && (f.reason.Some? ==> e.reason == f.reason.value)
  }

  /** Filters narrow the list independently of each other; each asks for one field. */
  lemma FiltersNarrow(f: EventFilters, e: Event)
    ensures Matches(EventFilters(None, None, None), e)
    ensures Matches(f, e) <==>
              && Matches(EventFilters(f.qualificationId, None, None), e)
              && Matches(EventFilters(None, f.outcome, None), e)
              && Matches(EventFilters(None, None, f.reason), e)
    ensures forall id :: Matches(EventFilters(Some(id), None, None), e) <==> e.qualificationId == Some(id)
    ensures forall o :: Matches(EventFilters(None, Some(o), None), e) <==> e.outcome == o
    ensures forall r :: Matches(EventFilters(None, None, Some(r)), e) <==> e.reason == r
  {
  }

  ghost function QualificationRows(db: Database): set<Row<Qualification>> {
    set id | id in db.qualifications :: Row(Key(db.qualifications[id].createdAt, id), db.qualifications[id])
  }

  ghost function EventRows(db: Database, f: EventFilters): set<Row<Event>> {
    set e | e in db.events && Matches(f, e) :: Row(Key(e.receivedAt, e.eventId), e)
  }

  /** presence INSIDE, ordered by enteredAt; a valid store has one for each. */
  ghost function InsideRows(db: Database): set<Row<Qualification>>
    requires QualificationsSound(db.qualifications)
  {
    set id | id in db.qualifications && db.qualifications[id].state.presence.Inside? ::
      assert QualificationSound(db.qualifications[id]);
      Row(Key(db.qualifications[id].state.enteredAt.value, id), db.qualifications[id])
  }

  lemma RowsAreUnique(db: Database, f: EventFilters)
    requires Valid(db)
    ensures UniqueKeys(QualificationRows(db)) && UniqueKeys(InsideRows(db)) && UniqueKeys(EventRows(db, f))
  {
  }

  /** Every page of every list over a valid store exists. */
  lemma PagesExist(db: Database, f: EventFilters, after: Option<Key>, n: nat)
    requires Valid(db)
    ensures exists rows :: Fetched(EventRows(db, f), after, n, rows)
    ensures exists rows :: Fetched(QualificationRows(db), after, n, rows)
    ensures exists rows :: Fetched(InsideRows(db), after, n, rows)
  {
    RowsAreUnique(db, f);
    var events := FetchAnswers(EventRows(db, f), after, n);
    var qualifications := FetchAnswers(QualificationRows(db), after, n);
    var inside := FetchAnswers(InsideRows(db), after, n);
  }

  /** While nothing commits, any page sizes show exactly the matching events, and the
      cursors end. */
  lemma QuietLogPaging(db: Database, f: EventFilters, visits: seq<Visit<Event>>)
    requires Valid(db) && visits != [] && Follows(visits)
    requires forall i :: 0 <= i < |visits| ==> visits[i].dataset == EventRows(db, f)
    ensures Descends(Shown(visits)) && |visits| <= |EventRows(db, f)| + 1
    ensures visits[|visits| - 1].Next().None? ==> forall r :: r in Shown(visits) <==> r in EventRows(db, f)
  {
    RowsAreUnique(db, f);
    FixedCollection(visits, EventRows(db, f));
  }

  /** The requests of one client: request i meets the store reached after some more
      use cases have committed. */
  ghost predicate Meets<T(!new)>(visits: seq<Visit<T>>, start: Database, runs: seq<seq<Step>>,
                                 rows: Database -> set<Row<T>>) {
    && |runs| == |visits|
    && forall i :: 0 <= i < |visits| ==> visits[i].dataset == rows(RunAll(start, runs[i]))
  }

  /** Paging through the log while use cases commit: every event matching when
      paging began is shown exactly once, and no event twice. */
  lemma {:induction false} LogPagingIsComplete(start: Database, runs: seq<seq<Step>>, visits: seq<Visit<Event>>,
                                               f: EventFilters, e: Event)
    requires Valid(start) && e in start.events && Matches(f, e)
    requires visits != [] && Follows(visits) && visits[|visits| - 1].Next().None?
    requires Meets(visits, start, runs, db => EventRows(db, f))
    ensures Descends(Shown(visits)) && ShownOnce(Shown(visits), Key(e.receivedAt, e.eventId))
  {
    var k := Key(e.receivedAt, e.eventId);
    forall i | 0 <= i < |visits| ensures HasKey(visits[i].dataset, k) {
      var later := RunAll(start, runs[i]);
      RunGrows(start, runs[i]);
      assert e in later.events;
      assert Row(k, e) in EventRows(later, f);
    }
    NoneMissed(visits, k);
    NoRowRepeats(visits);
  }

  /** The same for qualifications: they are never deleted and keep their creation
      time, however their state moves meanwhile. */
  lemma {:induction false} QualificationPagingIsComplete(start: Database, runs: seq<seq<Step>>,
                                                         visits: seq<Visit<Qualification>>, id: Uuid)
    requires Valid(start) && id in start.qualifications
    requires visits != [] && Follows(visits) && visits[|visits| - 1].Next().None?
    requires Meets(visits, start, runs, db => QualificationRows(db))
    ensures Descends(Shown(visits)) && ShownOnce(Shown(visits), Key(start.qualifications[id].createdAt, id))
  {
    var k := Key(start.qualifications[id].createdAt, id);
    forall i | 0 <= i < |visits| ensures HasKey(visits[i].dataset, k) {
      var later := RunAll(start, runs[i]);
      RunGrows(start, runs[i]);
      assert Row(k, later.qualifications[id]) in QualificationRows(later);
    }
    NoneMissed(visits, k);
    NoRowRepeats(visits);
  }

  // -------------------------------------------------------------- the visitors inside

  /** Whoever is INSIDE keeps the time of entry for as long as it stays, in every run. */
  lemma EntryTimeStays(start: Database, steps: seq<Step>, id: Uuid)
    requires Valid(start) && id in start.qualifications && start.qualifications[id].state.presence.Inside?
    ensures Valid(RunAll(start, steps)) && id in RunAll(start, steps).qualifications
    ensures var later := RunAll(start, steps).qualifications[id].state;
            later.presence.Inside? ==> later.enteredAt == start.qualifications[id].state.enteredAt
  {
    RunGrows(start, steps);
    RunKeepsValid(start, steps);
    var later := RunAll(start, steps);
    AcceptedGrows(start.events, later.events, id);
    var s, t := start.qualifications[id], later.qualifications[id];
    assert QualificationSound(s) && QualificationSound(t);
    assert HistoryOf(s.state) == [(EntryGranted, s.state.enteredAt.value)];
    if t.state.presence.Inside? {
      assert HistoryOf(t.state) == [(EntryGranted, t.state.enteredAt.value)];
      assert HistoryOf(s.state)[0] == HistoryOf(t.state)[0];
    }
  }

  lemma {:induction false} AcceptedGrows(before: seq<Event>, after: seq<Event>, id: Uuid)
    requires before <= after
    ensures AcceptedOf(before, id) <= AcceptedOf(after, id)
  {
    if |before| < |after| {
      var rest := after[..|after| - 1];
      assert before <= rest;
      AcceptedGrows(before, rest, id);
    } else {
      assert before == after;
    }
  }

  /** The INSIDE list while use cases commit: a visitor who is inside when paging
      begins and at every request is shown exactly once, and nobody twice, however
      many others enter and leave. */
  lemma {:induction false} InsidePagingIsComplete(start: Database, runs: seq<seq<Step>>,
                                                  visits: seq<Visit<Qualification>>, id: Uuid)
    requires Valid(start) && id in start.qualifications && start.qualifications[id].state.presence.Inside?
    requires visits != [] && Follows(visits) && visits[|visits| - 1].Next().None?
    requires |runs| == |visits|
    requires forall i :: 0 <= i < |visits| ==> MeetsInside(visits[i], start, runs[i], id)
    ensures start.qualifications[id].state.enteredAt.Some?
    ensures Descends(Shown(visits)) && ShownOnce(Shown(visits), Key(start.qualifications[id].state.enteredAt.value, id))
  {
    assert QualificationSound(start.qualifications[id]);
    var k := Key(start.qualifications[id].state.enteredAt.value, id);
    forall i | 0 <= i < |visits| ensures HasKey(visits[i].dataset, k) {
      assert MeetsInside(visits[i], start, runs[i], id);
      var later := RunAll(start, runs[i]);
      EntryTimeStays(start, runs[i], id);
      assert Row(k, later.qualifications[id]) in InsideRows(later);
    }
    NoneMissed(visits, k);
    NoRowRepeats(visits);
  }

  /** A request of the INSIDE list at a later store, where id is still inside. */
  ghost predicate MeetsInside(visit: Visit<Qualification>, start: Database, run: seq<Step>, id: Uuid) {
    var later := RunAll(start, run);
    && QualificationsSound(later.qualifications)
    && visit.dataset == InsideRows(later)
    && id in later.qualifications && later.qualifications[id].state.presence.Inside?
  }
}
