/** All writers of one admission handler over one coordinator and one ledger: what
    each step of any interleaving does with their leases, and what a settlement that
    is published as known rests on. */
module WriterFlows {
  import opened Base
  import opened ResourceLedger
  import opened WriteCoordinator
  import opened AdmissionFlows
  import RecoveryBridge

  /** What the business work came back with. */
  datatype Answer = WorkThrew | WorkInvalid | WorkReturned(disposition: Disposition)

  /** retained: a commit was handed to recovery; recovered: it was later proved. */
  datatype Work = NotIssued | Issued | Came(answer: Answer, retained: bool, recovered: bool)

  datatype Writer = Writer(
    recognition: bool,
    http: nat,
    validation: nat,
    origin: nat,
    response: Option<ResponseOwner.View>,     // None: the owner was never constructed
    validating: bool,
    recorded: bool,                           // its origin lease was recorded
    work: Work)

  // -------------------------------------------------------------------- invariants

  /** The origin lease goes back when a known outcome is told, if it was recorded. */
  predicate GivenBack(w: Writer, op: Operation) {
    w.recorded && Known(op.told)
  }

  /** The response owner has not released yet. */
  predicate Answerable(w: Writer) {
    w.response.Some? && w.response.value.releases == 0
  }

  predicate LeaseOk(w: Writer, op: Operation, mapped: bool, leases: map<nat, LeaseState>) {
    && Holds(leases, w.http, HTTP_POOLS, Answerable(w))
    && Holds(leases, w.validation, VALIDATION_POOLS, w.validating)
    && Holds(leases, w.origin, {Origin}, !GivenBack(w, op))
    && (mapped <==> w.recorded && !Known(op.told))
  }

  predicate HolderOk(w: Writer, holder: map<nat, nat>, i: nat) {
    && w.http in holder && holder[w.http] == i
    && w.validation in holder && holder[w.validation] == i
    && w.origin in holder && holder[w.origin] == i
  }

  predicate OriginOut(leases: map<nat, LeaseState>, id: nat) {
    id in leases && leases[id].pool == Origin && leases[id].active
  }

  /** What a known outcome rests on: no work was issued and none is claimed; or the
      work itself returned it and no commit was retained; or the retained commit was
      proved. */
  predicate Justified(work: Work, d: Disposition) {
    match work
    case NotIssued => d.PrestartRejected? || d.KnownNoEffect?
    case Issued => false
    case Came(answer, retained, recovered) =>
      if retained then recovered && d.BusinessResultPersisted? else answer == WorkReturned(d)
  }

  function WorkAudit(work: Work, op: Operation): Audit {
    if
      && (op.executor.Idle? ==> work.NotIssued?)
      && (op.executor.Working? ==> work.Issued? && op.candidate.None? && op.settlements == 0 && !op.invalid
                                   && op.phase.NoPause?)
      && (op.active && op.executor.Ended? && !op.phase.Paused? ==>
            match Verdict(op)
            case None => work.Came? && work.retained
            case Some(d) => d.UnknownEffect? || Justified(work, d))
      && (op.phase.Paused? ==> work.Came? && work.retained)
      && (Known(op.told) ==> Justified(work, op.told.value))
    then Passed else Flawed
  }

  predicate WorkOk(work: Work, op: Operation) {
    WorkAudit(work, op).Passed?
  }

  predicate Rests(w: Writer) {
    w.response.Some? ==> AtRest(w.response.value)
  }

  function WriterAudit(w: Writer, op: Operation, mapped: bool, leases: map<nat, LeaseState>, holder: map<nat, nat>,
                       i: nat): Audit {
    if LeaseOk(w, op, mapped, leases) && HolderOk(w, holder, i) && WorkOk(w.work, op)
      && Rests(w) then Passed else Flawed
  }

  predicate WriterOk(w: Writer, op: Operation, mapped: bool, leases: map<nat, LeaseState>, holder: map<nat, nat>,
                     i: nat) {
    WriterAudit(w, op, mapped, leases, holder, i).Passed?
  }

  predicate OriginsOk(writers: map<nat, Writer>, origins: map<nat, nat>) {
    forall i :: i in origins ==> i in writers && origins[i] == writers[i].origin
  }

  /** No origin lease is out that is not a writer's. */
  ghost predicate HoldersOk(writers: map<nat, Writer>, holder: map<nat, nat>, leases: map<nat, LeaseState>) {
    && (forall id :: id in holder ==> id in leases)
    && (forall id :: OriginOut(leases, id) ==> id in holder && holder[id] in writers
                                               && writers[holder[id]].origin == id)
  }

  /** Whatever has not ended belongs to a writer. */
  predicate NoOrphans(writers: map<nat, Writer>, operations: seq<Operation>) {
    forall i :: 0 <= i < |operations| && !operations[i].finalized ==> i in writers
  }

  ghost function SystemAudit(writers: map<nat, Writer>, operations: seq<Operation>, origins: map<nat, nat>,
                             leases: map<nat, LeaseState>, holder: map<nat, nat>): Audit {
    if
      && (forall i :: i in writers ==> i < |operations|
                                       && WriterOk(writers[i], operations[i], i in origins, leases, holder, i))
      && OriginsOk(writers, origins)
      && HoldersOk(writers, holder, leases)
      && NoOrphans(writers, operations)
    then Passed else Flawed
  }

  ghost predicate Sound(writers: map<nat, Writer>, operations: seq<Operation>, origins: map<nat, nat>,
                        leases: map<nat, LeaseState>, holder: map<nat, nat>) {
    SystemAudit(writers, operations, origins, leases, holder).Passed?
  }

  // ------------------------------------------------------------------- frame lemmas

  /** No lease of another writer is touched, and no origin lease goes out. */
  ghost predicate OnlyHis(before: map<nat, LeaseState>, after: map<nat, LeaseState>, holder: map<nat, nat>, i: nat) {
    && before.Keys <= after.Keys
    && (forall id :: id in holder && holder[id] != i && id in before ==> after[id] == before[id])
    && (forall id :: OriginOut(after, id) ==> OriginOut(before, id))
  }

  lemma TheirsStays(w: Writer, op: Operation, op': Operation, mapped: bool, leases: map<nat, LeaseState>,
                    holder: map<nat, nat>, k: nat, i: nat, leases': map<nat, LeaseState>)
    requires WriterOk(w, op, mapped, leases, holder, k) && k != i && OnlyHis(leases, leases', holder, i)
    requires op' == op || op' == Stranded(op)
    ensures WriterOk(w, op', mapped, leases', holder, k)
  {
    assert leases'[w.http] == leases[w.http] && leases'[w.validation] == leases[w.validation]
           && leases'[w.origin] == leases[w.origin];
  }

  /** A step of writer i: its own record and leases, strands, and nothing else. */
  lemma HisStep(writers: map<nat, Writer>, operations: seq<Operation>, origins: map<nat, nat>,
                leases: map<nat, LeaseState>,
                holder: map<nat, nat>, i: nat,
                w: Writer, operations': seq<Operation>, origins': map<nat, nat>, leases': map<nat, LeaseState>)
    requires Sound(writers, operations, origins, leases, holder)
    requires i in writers && w.origin == writers[i].origin
    requires OnlyStrands(operations, operations', i) && OnlyHis(leases, leases', holder, i)
    requires origins' == origins || origins' == origins - {i}
    requires WriterOk(w, operations'[i], i in origins', leases', holder, i)
    ensures Sound(writers[i := w], operations', origins', leases', holder)
  {
    EachStays(writers, operations, origins, leases, holder, i, w, operations', origins', leases');
    HoldersStay(writers, holder, leases, i, w, leases');
    OriginsStay(writers, origins, i, w, origins');
    Whole(writers[i := w], operations', origins', leases', holder);
  }

  lemma Whole(writers: map<nat, Writer>, operations: seq<Operation>, origins: map<nat, nat>,
              leases: map<nat, LeaseState>, holder: map<nat, nat>)
    requires forall i :: i in writers ==> i < |operations|
                                          && WriterOk(writers[i], operations[i], i in origins, leases, holder, i)
    requires OriginsOk(writers, origins) && HoldersOk(writers, holder, leases) && NoOrphans(writers, operations)
    ensures Sound(writers, operations, origins, leases, holder)
  {
  }

  lemma EachStays(writers: map<nat, Writer>, operations: seq<Operation>, origins: map<nat, nat>,
                  leases: map<nat, LeaseState>,
                  holder: map<nat, nat>, i: nat,
                  w: Writer, operations': seq<Operation>, origins': map<nat, nat>, leases': map<nat, LeaseState>)
    requires forall k :: k in writers ==> k < |operations|
                                          && WriterOk(writers[k], operations[k], k in origins, leases, holder, k)
    requires i in writers && OnlyStrands(operations, operations', i) && OnlyHis(leases, leases', holder, i)
    requires origins' == origins || origins' == origins - {i}
    requires WriterOk(w, operations'[i], i in origins', leases', holder, i)
    ensures forall k :: k in writers[i := w] ==>
              k < |operations'| && WriterOk(writers[i := w][k], operations'[k], k in origins', leases', holder, k)
  {
    forall k | k in writers && k != i ensures WriterOk(writers[k], operations'[k], k in origins', leases', holder, k) {
      TheirsStays(writers[k], operations[k], operations'[k], k in origins, leases, holder, k, i, leases');
    }
  }

  lemma OriginsStay(writers: map<nat, Writer>, origins: map<nat, nat>, i: nat, w: Writer, origins': map<nat, nat>)
    requires OriginsOk(writers, origins) && i in writers && w.origin == writers[i].origin
    requires origins' == origins || origins' == origins - {i}
    ensures OriginsOk(writers[i := w], origins')
  {
  }

  lemma HoldersStay(writers: map<nat, Writer>, holder: map<nat, nat>, leases: map<nat, LeaseState>, i: nat,
                    w: Writer, leases': map<nat, LeaseState>)
    requires HoldersOk(writers, holder, leases) && i in writers && w.origin == writers[i].origin
             && OnlyHis(leases, leases', holder, i)
    ensures HoldersOk(writers[i := w], holder, leases')
  {
  }

  function Responded(w: Writer, answered: bool): Writer {
    if w.response.None? then w else w.(response := Some(Closing(w.response.value, answered)))
  }

  lemma ReturningIsHis(leases: map<nat, LeaseState>, holder: map<nat, nat>, i: nat, id: nat)
    requires id in leases && id in holder && holder[id] == i
    ensures OnlyHis(leases, Inactive(leases, id), holder, i)
  {
  }

  lemma Each(writers: map<nat, Writer>, operations: seq<Operation>, origins: map<nat, nat>,
             leases: map<nat, LeaseState>, holder: map<nat, nat>, i: nat)
    requires Sound(writers, operations, origins, leases, holder) && i in writers
    ensures i < |operations| && WriterOk(writers[i], operations[i], i in origins, leases, holder, i)
  {
  }

  lemma SameMap(writers: map<nat, Writer>, i: nat)
    requires i in writers
    ensures writers[i := writers[i]] == writers
  {
  }

  lemma KnownReturns(w: Writer, op: Operation, op': Operation, leases: map<nat, LeaseState>, holder: map<nat, nat>,
                     i: nat)
    requires WriterOk(w, op, true, leases, holder, i) && Known(op'.told) && WorkOk(w.work, op')
    ensures w.origin in leases && WriterOk(w, op', false, Inactive(leases, w.origin), holder, i)
  {
  }

  lemma Unanswerable(writers: map<nat, Writer>, i: nat, answered: bool)
    requires i in writers && Rests(writers[i]) && !Answerable(writers[i])
    ensures writers[i := Responded(writers[i], answered)] == writers
  {
    assert Responded(writers[i], answered) == writers[i];
    SameMap(writers, i);
  }

  lemma ValidationReturned(writers: map<nat, Writer>, operations: seq<Operation>, origins: map<nat, nat>,
                           leases: map<nat, LeaseState>, holder: map<nat, nat>, i: nat)
    requires Sound(writers, operations, origins, leases, holder) && i in writers
    ensures Holds(leases, writers[i].validation, VALIDATION_POOLS, writers[i].validating)
    ensures Sound(writers[i := writers[i].(validating := false)], operations, origins,
                  Inactive(leases, writers[i].validation), holder)
  {
    var w := writers[i].(validating := false);
    Each(writers, operations, origins, leases, holder, i);
    ReturningIsHis(leases, holder, i, w.validation);
    HisStep(writers, operations, origins, leases, holder, i, w, operations, origins, Inactive(leases, w.validation));
  }

  lemma ResponseReturned(writers: map<nat, Writer>, operations: seq<Operation>, origins: map<nat, nat>,
                         leases: map<nat, LeaseState>, holder: map<nat, nat>, i: nat, answered: bool)
    requires Sound(writers, operations, origins, leases, holder) && i in writers && Answerable(writers[i])
    ensures Holds(leases, writers[i].http, HTTP_POOLS, true)
    ensures Sound(writers[i := Responded(writers[i], answered)], operations, origins, Inactive(leases, writers[i].http),
                  holder)
  {
    var w := Responded(writers[i], answered);
    Each(writers, operations, origins, leases, holder, i);
    ReturningIsHis(leases, holder, i, w.http);
    ClosingRests(writers[i].response.value, answered);
    HisStep(writers, operations, origins, leases, holder, i, w, operations, origins, Inactive(leases, w.http));
  }

  lemma Responding(writers: map<nat, Writer>, operations: seq<Operation>, origins: map<nat, nat>,
                   leases: map<nat, LeaseState>, holder: map<nat, nat>, i: nat, answered: bool)
    requires Sound(writers, operations, origins, leases, holder) && i in writers
    ensures Answerable(writers[i]) ==> Holds(leases, writers[i].http, HTTP_POOLS, true)
    ensures Sound(writers[i := Responded(writers[i], answered)], operations, origins,
                  if Answerable(writers[i]) then Inactive(leases, writers[i].http) else leases, holder)
  {
    if Answerable(writers[i]) {
      ResponseReturned(writers, operations, origins, leases, holder, i, answered);
    } else {
      Each(writers, operations, origins, leases, holder, i);
      Unanswerable(writers, i, answered);
    }
  }

  lemma ClosingRests(v: ResponseOwner.View, answered: bool)
    requires AtRest(v)
    ensures AtRest(Closing(v, answered)) && Closing(v, answered).releases == 1
  {
  }

  /** A known outcome was told and the recorded origin lease goes back. */
  lemma PublishedKnown(writers: map<nat, Writer>, operations: seq<Operation>, origins: map<nat, nat>,
                       leases: map<nat, LeaseState>, holder: map<nat, nat>, i: nat, operations': seq<Operation>)
    requires Sound(writers, operations, origins, leases, holder) && i in writers && i in origins && i < |operations|
    requires OnlyStrands(operations, operations', i)
    requires operations[i].told.None? && Known(operations'[i].told) && WorkOk(writers[i].work, operations'[i])
    ensures origins[i] == writers[i].origin && Holds(leases, origins[i], {Origin}, true)
    ensures Sound(writers, operations', origins - {i}, Inactive(leases, writers[i].origin), holder)
  {
    var w := writers[i];
    SameMap(writers, i);
    Each(writers, operations, origins, leases, holder, i);
    ReturningIsHis(leases, holder, i, w.origin);
    KnownReturns(w, operations[i], operations'[i], leases, holder, i);
    HisStep(writers, operations, origins, leases, holder, i, w, operations', origins - {i}, Inactive(leases, w.origin));
  }

  /** Operation i moved and nothing goes back: nothing was told, or an unknown
      outcome, or its origin was never recorded. */
  lemma Kept(writers: map<nat, Writer>, operations: seq<Operation>, origins: map<nat, nat>,
             leases: map<nat, LeaseState>, holder: map<nat, nat>, i: nat, operations': seq<Operation>)
    requires Sound(writers, operations, origins, leases, holder) && i in writers && i < |operations|
    requires OnlyStrands(operations, operations', i) && WorkOk(writers[i].work, operations'[i])
    requires operations'[i].told == operations[i].told
             || (operations[i].told.None? && (i in origins ==> !Known(operations'[i].told)))
    ensures Sound(writers, operations', origins, leases, holder)
  {
    var w := writers[i];
    SameMap(writers, i);
    Each(writers, operations, origins, leases, holder, i);
    HisStep(writers, operations, origins, leases, holder, i, w, operations', origins, leases);
  }

  /** Operation i moves without being told anything. */
  lemma Moved(writers: map<nat, Writer>, operations: seq<Operation>, origins: map<nat, nat>,
              leases: map<nat, LeaseState>, holder: map<nat, nat>, i: nat, work: Work, operations': seq<Operation>)
    requires Sound(writers, operations, origins, leases, holder) && i in writers && i < |operations|
             && OnlyStrands(operations, operations', i)
    requires operations'[i].told == operations[i].told && WorkOk(work, operations'[i])
    ensures Sound(writers[i := writers[i].(work := work)], operations', origins, leases, holder)
  {
    var w := writers[i].(work := work);
    Each(writers, operations, origins, leases, holder, i);
    HisStep(writers, operations, origins, leases, holder, i, w, operations', origins, leases);
  }

  /** Steps outside the handler's writers: other requests, and operations that ended
      before they were handed out. */
  lemma Elsewhere(writers: map<nat, Writer>, operations: seq<Operation>, origins: map<nat, nat>,
                  leases: map<nat, LeaseState>,
                  holder: map<nat, nat>, operations': seq<Operation>, leases': map<nat, LeaseState>)
    requires Sound(writers, operations, origins, leases, holder) && |operations| <= |operations'|
    requires OnlyStrands(operations, operations'[..|operations|], |operations|)
             && OnlyHis(leases, leases', holder, |operations|)
    requires forall k :: |operations| <= k < |operations'| ==> operations'[k].finalized
    ensures Sound(writers, operations', origins, leases', holder)
  {
    var n := |operations|;
    forall k | k in writers ensures k < n && WriterOk(writers[k], operations'[k], k in origins, leases', holder, k) {
      Each(writers, operations, origins, leases, holder, k);
      assert operations'[..n][k] == operations'[k];
      TheirsStays(writers[k], operations[k], operations'[k], k in origins, leases, holder, k, n, leases');
    }
    forall k | 0 <= k < n && !operations'[k].finalized ensures k in writers {
      assert operations'[..n][k] == operations'[k];
    }
    Whole(writers, operations', origins, leases', holder);
  }

  function Handed(holder: map<nat, nat>, w: Writer, i: nat): map<nat, nat> {
    holder[w.http := i][w.validation := i][w.origin := i]
  }

  function Mapped(origins: map<nat, nat>, w: Writer, i: nat): map<nat, nat> {
    if w.recorded then origins[i := w.origin] else origins
  }

  /** A freshly registered operation gets its writer. */
  lemma Joins(writers: map<nat, Writer>, operations: seq<Operation>, origins: map<nat, nat>,
              leases: map<nat, LeaseState>,
              holder: map<nat, nat>, w: Writer, leases': map<nat, LeaseState>)
    requires Sound(writers, operations, origins, leases, holder) && leases.Keys <= leases'.Keys
    requires forall id :: id in leases ==> leases'[id] == leases[id]
    requires forall id :: id in leases' && id !in leases ==> id in {w.http, w.validation, w.origin}
    requires w.http !in leases && w.validation !in leases && w.origin !in leases && w.work.NotIssued? && Rests(w)
    requires LeaseOk(w, REGISTERED, w.recorded, leases')
    ensures var i := |operations|;
            Sound(writers[i := w], operations + [REGISTERED], Mapped(origins, w, i), leases',
                  Handed(holder, w, i))
  {
    var i, origins' := |operations|, Mapped(origins, w, |operations|);
    NotYet(writers, operations, origins, leases, holder);
    EachJoins(writers, operations, origins, leases, holder, w, leases', origins');
    NewHolder(writers, holder, leases, i, w, leases');
    OriginsJoin(writers, operations, origins, w);
    Whole(writers[i := w], operations + [REGISTERED], origins', leases', Handed(holder, w, i));
  }

  lemma NotYet(writers: map<nat, Writer>, operations: seq<Operation>, origins: map<nat, nat>,
               leases: map<nat, LeaseState>,
               holder: map<nat, nat>)
    requires Sound(writers, operations, origins, leases, holder)
    ensures |operations| !in writers && |operations| !in origins
    ensures OriginsOk(writers, origins) && HoldersOk(writers, holder, leases) && NoOrphans(writers, operations)
  {
  }

  lemma OriginsJoin(writers: map<nat, Writer>, operations: seq<Operation>, origins: map<nat, nat>, w: Writer)
    requires OriginsOk(writers, origins) && NoOrphans(writers, operations) && |operations| !in writers
             && |operations| !in origins
    ensures var i := |operations|;
            OriginsOk(writers[i := w], Mapped(origins, w, i)) && NoOrphans(writers[i := w], operations + [REGISTERED])
  {
  }

  lemma EachJoins(writers: map<nat, Writer>, operations: seq<Operation>, origins: map<nat, nat>,
                  leases: map<nat, LeaseState>,
                  holder: map<nat, nat>, w: Writer, leases': map<nat, LeaseState>, origins': map<nat, nat>)
    requires Sound(writers, operations, origins, leases, holder) && leases.Keys <= leases'.Keys
    requires forall id :: id in leases ==> leases'[id] == leases[id]
    requires w.http !in leases && w.validation !in leases && w.origin !in leases && w.work.NotIssued? && Rests(w)
    requires LeaseOk(w, REGISTERED, w.recorded, leases')
    requires |operations| !in writers && (|operations| in origins' <==> w.recorded)
    requires forall k :: k in writers ==> (k in origins' <==> k in origins)
    ensures var i := |operations|;
            forall k :: k in writers[i := w] ==>
              k <= i && WriterOk(writers[i := w][k], (operations + [REGISTERED])[k], k in origins', leases',
                                 Handed(holder, w, i), k)
  {
    var i := |operations|;
    var holder' := Handed(holder, w, i);
    forall k | k in writers ensures k < i && WriterOk(writers[k], operations[k], k in origins', leases', holder', k) {
      Each(writers, operations, origins, leases, holder, k);
      Bystander(writers[k], operations[k], k in origins, leases, holder, k, w, i, leases');
    }
    NewcomerOk(w, leases', holder, i);
  }

  lemma NewcomerOk(w: Writer, leases: map<nat, LeaseState>, holder: map<nat, nat>, i: nat)
    requires LeaseOk(w, REGISTERED, w.recorded, leases) && w.work.NotIssued? && Rests(w)
    ensures WriterOk(w, REGISTERED, w.recorded, leases, Handed(holder, w, i), i)
  {
  }

  lemma NewHolder(writers: map<nat, Writer>, holder: map<nat, nat>, leases: map<nat, LeaseState>, i: nat, w: Writer,
                  leases': map<nat, LeaseState>)
    requires HoldersOk(writers, holder, leases) && leases.Keys <= leases'.Keys && i !in writers
    requires forall id :: id in leases ==> leases'[id] == leases[id]
    requires forall id :: id in leases' && id !in leases ==> id in {w.http, w.validation, w.origin}
    requires w.http !in leases && w.validation !in leases && w.origin !in leases
    requires w.http in leases' && w.validation in leases' && leases'[w.http].pool != Origin
             && leases'[w.validation].pool != Origin
    requires w.origin in leases'
    ensures HoldersOk(writers[i := w], Handed(holder, w, i), leases')
  {
    var after := Handed(holder, w, i);
    forall id: nat | OriginOut(leases', id) ensures id in after && after[id] in writers[i := w]
      && writers[i := w][after[id]].origin == id {
      if id in leases { assert OriginOut(leases, id); }
    }
  }

  lemma Bystander(w: Writer, op: Operation, mapped: bool, leases: map<nat, LeaseState>, holder: map<nat, nat>, k: nat,
                  newcomer: Writer, i: nat, leases': map<nat, LeaseState>)
    requires WriterOk(w, op, mapped, leases, holder, k) && leases.Keys <= leases'.Keys
    requires forall id :: id in leases ==> leases'[id] == leases[id]
    requires newcomer.http !in leases && newcomer.validation !in leases && newcomer.origin !in leases
    ensures WriterOk(w, op, mapped, leases', Handed(holder, newcomer, i), k)
  {
  }

  /** Marks, decisions and strandings leave what the work rests on. */
  lemma WorkStays(work: Work, op: Operation, op': Operation)
    requires WorkOk(work, op) && (op'.phase == op.phase || QueuedOk(op))
    requires op'.executor == op.executor && op'.told == op.told && (op'.active ==> op.active)
    requires op'.candidate == op.candidate && op'.settlements == op.settlements && op'.invalid == op.invalid
    requires op'.phase == op.phase || op'.phase.Terminal?
    ensures WorkOk(work, op')
  {
  }

  /** An operation that moved on without being told anything. */
  lemma MovesOn(writers: map<nat, Writer>, operations: seq<Operation>, origins: map<nat, nat>,
                leases: map<nat, LeaseState>, holder: map<nat, nat>, i: nat, operations': seq<Operation>)
    requires Sound(writers, operations, origins, leases, holder) && i in writers && i < |operations|
    requires OnlyStrands(operations, operations', i)
             && (operations'[i].phase == operations[i].phase || QueuedOk(operations[i]))
    requires var op, op' := operations[i], operations'[i];
             && op'.executor == op.executor && op'.told == op.told && (op'.active ==> op.active)
             && op'.candidate == op.candidate && op'.settlements == op.settlements && op'.invalid == op.invalid
             && (op'.phase == op.phase || op'.phase.Terminal?)
    ensures Sound(writers, operations', origins, leases, holder)
  {
    Each(writers, operations, origins, leases, holder, i);
    WorkStays(writers[i].work, operations[i], operations'[i]);
    Kept(writers, operations, origins, leases, holder, i, operations');
  }

  lemma SettledEarlyOk(work: Work, op: Operation, d: Disposition)
    requires WorkOk(work, op) && QueuedOk(op) && (d.KnownNoEffect? || d.UnknownEffect?)
    ensures var began := op.(active := true, executor := Working);
            WorkOk(work, Recorded(began, d).(executor := Ended(false)))
  {
  }

  lemma IssuedOk(work: Work, op: Operation)
    requires WorkOk(work, op) && QueuedOk(op)
    ensures WorkOk(Issued, op.(active := true, executor := Working))
  {
  }

  /** Leases that are no writer's and no origins may come, go and change. */
  lemma Foreign(writers: map<nat, Writer>, operations: seq<Operation>, origins: map<nat, nat>,
                leases: map<nat, LeaseState>,
                holder: map<nat, nat>, leases': map<nat, LeaseState>)
    requires Sound(writers, operations, origins, leases, holder) && leases.Keys <= leases'.Keys
    requires forall id :: id in leases && id in holder ==> leases'[id] == leases[id]
    requires forall id :: OriginOut(leases', id) ==> OriginOut(leases, id)
    ensures Sound(writers, operations, origins, leases', holder)
  {
    assert operations[..|operations|] == operations;
    Elsewhere(writers, operations, origins, leases, holder, operations, leases');
  }

  lemma HoldersKnown(writers: map<nat, Writer>, operations: seq<Operation>, origins: map<nat, nat>,
                     leases: map<nat, LeaseState>,
                     holder: map<nat, nat>)
    requires Sound(writers, operations, origins, leases, holder)
    ensures forall id :: id in holder ==> id in leases
    ensures forall i :: i in writers ==> writers[i].http in holder
  {
    forall i | i in writers ensures writers[i].http in holder {
      Each(writers, operations, origins, leases, holder, i);
    }
  }

  /** One legal settlement, or a pause, or unknown: an ended executor is published as
      exactly what its work returned, unless a commit was retained; then it pauses, or
      is published as unknown if the pause fails. */
  lemma EndsOk(recognition: bool, r: Return, op: Operation, ended: Operation)
    requires WorkOk(Issued, op) && op.executor.Working? && op.active && op.told.None?
    requires ended == Ending(recognition, r, op)
    ensures WorkOk(Came(r.answer, r.retained, false), ended)
    ensures Verdict(ended) == if !r.retained then Some(SettlementOf(recognition, r))
                              else if r.fault.NoFault? then None
                              else Some(UnknownEffect)
    ensures forall d: Disposition :: d.BusinessResultPersisted? || d.KnownNoEffect? ==>
              (Verdict(ended) == Some(d) <==>
                 !r.retained && r.answer == WorkReturned(d) && (recognition ==> r.completes))
    ensures Verdict(ended) != Some(PrestartRejected)
    ensures !ended.executor.failed && !ended.invalid ==> ended.settlements == 1
    ensures ended.executor.failed || ended.invalid ==> r.retained && !r.fault.NoFault?
  {
  }

  /** What the executor leaves in its operation. */
  function Ending(recognition: bool, r: Return, op: Operation): Operation {
    if !r.retained then Recorded(op, SettlementOf(recognition, r)).(executor := Ended(false))
    else
      var paused := if r.fault.SettlementThrows? then op else Pausing(op);
      if r.fault.NoFault? then paused.(executor := Ended(false))
      else if recognition then Recorded(paused, UnknownEffect).(executor := Ended(false))
      else paused.(executor := Ended(true))
  }

  lemma VerdictOk(work: Work, op: Operation)
    requires WorkOk(work, op) && op.active && op.executor.Ended? && !op.phase.Paused?
    ensures if Verdict(op).None? then WorkOk(work, op.(phase := Paused)) else WorkOk(work, Told(op, Verdict(op).value))
  {
  }

  lemma RecoveredOk(work: Work, op: Operation)
    requires WorkOk(work, op) && RunningOk(op) && op.phase.Paused?
    ensures work.Came? && work.retained
    ensures WorkOk(work.(recovered := true), op) && WorkOk(work.(recovered := true), Told(op, BusinessResultPersisted))
    ensures WorkOk(work, Told(op, UnknownEffect))
  {
  }

  predicate ReadyIn(operations: seq<Operation>, queue: seq<nat>, i: nat) {
    i in queue && i < |operations| && operations[i].validation.Ready?
  }

  /** Everyone in `ids` that is validated is told KNOWN_NO_EFFECT. */
  function AllSettled(operations: seq<Operation>, ids: seq<nat>): (r: seq<Operation>)
    ensures |r| == |operations|
    ensures forall i :: 0 <= i < |r| ==> r[i] == operations[i] || (i in ids && operations[i].validation.Ready?)
    ensures forall i :: 0 <= i < |r| ==> r[i].validation == operations[i].validation
  {
    if ids == [] then operations
    else
      var n := |ids| - 1;
      var i, before := ids[n], AllSettled(operations, ids[..n]);
      if i < |operations|
        && operations[i].validation.Ready? then before[i := Told(before[i], KnownNoEffect)] else before
  }

  /** ... and leaves the queue. */
  function AllLeft(operations: seq<Operation>, queue: seq<nat>, ids: seq<nat>): (r: seq<nat>)
    ensures forall i :: i in r <==> i in queue && !(i in ids && ReadyIn(operations, queue, i))
  {
    if ids == [] then queue
    else
      var n := |ids| - 1;
      var rest := AllLeft(operations, queue, ids[..n]);
      assert ids == ids[..n] + [ids[n]];
      if ReadyIn(operations, queue, ids[n]) then Without(rest, ids[n]) else rest
  }

  /** Whoever is validated is settled with the outcome that nothing happened. */
  lemma {:induction false} AllSettledTells(operations: seq<Operation>, ids: seq<nat>, i: nat)
    requires Increasing(ids) && i in ids && i < |operations| && operations[i].validation.Ready?
    ensures AllSettled(operations, ids)[i] == Told(operations[i], KnownNoEffect)
  {
    var n := |ids| - 1;
    assert ids == ids[..n] + [ids[n]];
    if i != ids[n] { AllSettledTells(operations, ids[..n], i); }
  }

  /** At it settling stops. */
  predicate Stops(operations: seq<Operation>, queue: seq<nat>, i: nat, cleanupThrows: set<nat>,
                  settledThrows: set<nat>) {
    ReadyIn(operations, queue, i) && (i in cleanupThrows || i in settledThrows)
  }

  /** One visit to i: skipped, stopped before its cleanup, or settled. */
  predicate Visited(operations: seq<Operation>, queue: seq<nat>, i: nat, cleanupThrows: set<nat>,
                    settledThrows: set<nat>, stops: bool, settled: bool, operations': seq<Operation>,
                    queue': seq<nat>) {
    && (stops <==> Stops(operations, queue, i, cleanupThrows, settledThrows))
    && (settled <==> ReadyIn(operations, queue, i) && i !in cleanupThrows)
    && queue' == (if settled then Without(queue, i) else queue)
    && operations' == if settled && i < |operations| then operations[i := Told(operations[i], KnownNoEffect)]
                      else operations
  }

  /** The first k of the snapshot have been visited, and nothing stopped yet. */
  function SettlingAudit(before: seq<Operation>, snapshot: seq<nat>, k: nat, cleanupThrows: set<nat>,
                         settledThrows: set<nat>, operations: seq<Operation>, queue: seq<nat>): Audit {
    if
      && k <= |snapshot| && Increasing(snapshot)
      && operations == AllSettled(before, snapshot[..k]) && queue == AllLeft(before, snapshot, snapshot[..k])
      && (forall m :: 0 <= m < k ==> !Stops(before, snapshot, snapshot[m], cleanupThrows, settledThrows))
    then Passed else Flawed
  }

  /** The next of the snapshot is still as it was. */
  lemma NextUntouched(operations: seq<Operation>, queue: seq<nat>, k: nat)
    requires Increasing(queue) && k < |queue|
    ensures queue[k] in AllLeft(operations, queue, queue[..k])
    ensures queue[k] < |operations| ==> AllSettled(operations, queue[..k])[queue[k]] == operations[queue[k]]
    ensures ReadyIn(AllSettled(operations, queue[..k]), AllLeft(operations, queue, queue[..k]), queue[k]) <==>
              ReadyIn(operations, queue, queue[k])
  {
  }

  lemma NextSettled(operations: seq<Operation>, queue: seq<nat>, k: nat)
    requires k < |queue|
    ensures var i, now, rest := queue[k], AllSettled(operations, queue[..k]), AllLeft(operations, queue, queue[..k]);
            && AllSettled(operations, queue[..k + 1]) ==
               (if ReadyIn(operations, queue, i) then now[i := Told(now[i], KnownNoEffect)] else now)
            && AllLeft(operations, queue, queue[..k + 1]) ==
               if ReadyIn(operations, queue, i) then Without(rest, i) else rest
  {
    assert queue[..k + 1][..k] == queue[..k] && queue[..k + 1][k] == queue[k];
  }

  lemma SettlingGoesOn(before: seq<Operation>, snapshot: seq<nat>, k: nat, cleanupThrows: set<nat>,
                       settledThrows: set<nat>, operations: seq<Operation>, queue: seq<nat>, stops: bool,
                       settled: bool, operations': seq<Operation>, queue': seq<nat>)
    requires SettlingAudit(before, snapshot, k, cleanupThrows, settledThrows, operations, queue).Passed?
    requires k < |snapshot|
    requires Visited(operations, queue, snapshot[k], cleanupThrows, settledThrows, stops, settled, operations', queue')
    ensures !stops ==>
              SettlingAudit(before, snapshot, k + 1, cleanupThrows, settledThrows, operations', queue').Passed?
    ensures stops ==>
              SettlingEnds(before, snapshot, cleanupThrows, settledThrows, true, if settled then k + 1 else k,
                           operations', queue')
  {
    NextUntouched(before, snapshot, k);
    NextSettled(before, snapshot, k);
    if stops { assert Stops(before, snapshot, snapshot[k], cleanupThrows, settledThrows); }
  }

  /** What settling a snapshot amounts to. */
  ghost predicate SettlingEnds(before: seq<Operation>, snapshot: seq<nat>, cleanupThrows: set<nat>,
                               settledThrows: set<nat>,
                         stopped: bool, seen: nat, operations: seq<Operation>, queue: seq<nat>) {
    && seen <= |snapshot|
    && operations == AllSettled(before, snapshot[..seen]) && queue == AllLeft(before, snapshot, snapshot[..seen])
    && (!stopped ==> seen == |snapshot| && forall i :: !ReadyIn(operations, queue, i))
    && (stopped <==> exists i :: Stops(before, snapshot, i, cleanupThrows, settledThrows))
  }

  lemma SettlingComplete(before: seq<Operation>, snapshot: seq<nat>, cleanupThrows: set<nat>,
                         settledThrows: set<nat>, operations: seq<Operation>, queue: seq<nat>)
    requires SettlingAudit(before, snapshot, |snapshot|, cleanupThrows, settledThrows, operations, queue).Passed?
    ensures SettlingEnds(before, snapshot, cleanupThrows, settledThrows, false, |snapshot|, operations, queue)
  {
    assert snapshot[..|snapshot|] == snapshot;
  }

  /** Maintenance marks leave every audit as it is. */
  lemma MarkedOk(writers: map<nat, Writer>, operations: seq<Operation>, origins: map<nat, nat>,
                 leases: map<nat, LeaseState>,
                 holder: map<nat, nat>, queue: seq<nat>)
    requires Sound(writers, operations, origins, leases, holder)
    ensures Sound(writers, Marked(operations, queue), origins, leases, holder)
  {
    var operations' := Marked(operations, queue);
    forall k | k in writers ensures k < |operations'|
      && WriterOk(writers[k], operations'[k], k in origins, leases, holder, k) {
      Each(writers, operations, origins, leases, holder, k);
      WorkStays(writers[k].work, operations[k], operations'[k]);
    }
    NotYet(writers, operations, origins, leases, holder);
    Whole(writers, operations', origins, leases, holder);
  }

  /** A queued operation has issued no work: it may be told that nothing happened. */
  lemma DismissedOk(work: Work, op: Operation, decided: bool, v: Validity, d: Disposition)
    requires WorkOk(work, op) && QueuedOk(op) && (d.PrestartRejected? || d.KnownNoEffect?)
    ensures WorkOk(work, Told(op.(decided := decided, validation := v), d))
  {
  }

  lemma DecidedOk(work: Work, op: Operation, decided: bool, v: Validity)
    requires WorkOk(work, op)
    ensures WorkOk(work, op.(decided := decided, validation := v))
  {
  }

  /** How a writer's validation turns out. */
  datatype Validating = Validating(
    outcome: Validation,
    answered: bool,
    cleanupThrows: bool,      // releaseReservationForMaintenance
    inputThrows: bool,        // building the writer's input
    queuedThrows: bool,
    settledThrows: bool)

  /** rejectBeforeStart: told PRESTART_REJECTED while it is queued and undecided. */
  function Dismissed(op: Operation, queued: bool): Operation {
    if op.decided then op
    else
      var rejected := op.(decided := true, validation := Rejected);
      if queued then Told(rejected, PrestartRejected) else rejected
  }

  /** settleMaintenanceKnownNoEffect. */
  function Settling(op: Operation, queued: bool): Operation {
    if !op.decided && queued then Told(op.(decided := true), KnownNoEffect) else op.(decided := true)
  }

  /** activate. */
  function Activating(op: Operation, queuedThrows: bool): Operation {
    if op.decided then op
    else if queuedThrows then Failed(op.(decided := true, validation := Ready))
    else op.(decided := true, validation := Ready)
  }

  /** Something threw before the operation could be settled or activated. */
  predicate Dropped(canceled: bool, recognition: bool, v: Validating) {
    if canceled then recognition && v.cleanupThrows else v.inputThrows
  }

  /** Maintenance settles it, or it is activated; if neither, the request is answered. */
  predicate Proceeds(op: Operation, queued: bool, canceled: bool, recognition: bool, v: Validating) {
    && !op.decided && !Dropped(canceled, recognition, v)
    && if canceled then queued && !v.settledThrows else !v.queuedThrows
  }

  function Proceeding(op: Operation, queued: bool, canceled: bool, recognition: bool, v: Validating): Operation {
    if Dropped(canceled, recognition, v) then op
    else if canceled then Settling(op, queued)
    else Activating(op, v.queuedThrows)
  }

  predicate Taken(op: Operation, queued: bool, recognition: bool, v: Validating) {
    v.outcome.Validated? && Proceeds(op, queued, op.canceled, recognition, v)
  }

  /** What a validation that returned makes of its operation. */
  function AfterValidation(op: Operation, queued: bool, recognition: bool, v: Validating): Operation {
    var consumed := op.(canceled := false);
    if !v.outcome.Validated? then Dismissed(op, queued)
    else if Dropped(op.canceled, recognition, v) then Dismissed(consumed, queued)
    else Proceeding(consumed, queued, op.canceled, recognition, v)
  }

  /** Each outcome of a validation on its own: it is activated iff it was valid, not
      cancelled, and nothing threw; the other three say why it was not. */
  lemma ValidationIff(op: Operation, recognition: bool, v: Validating)
    requires QueuedOk(op) && op.validation.Waiting?
    ensures var after := AfterValidation(op, true, recognition, v);
            && (!after.finalized <==> v.outcome.Validated? && !op.canceled && !v.inputThrows && !v.queuedThrows)
            && (!after.finalized ==> after == op.(decided := true, validation := Ready))
            && (after.told == Some(PrestartRejected) <==>
                  || !v.outcome.Validated?
                  || (if op.canceled then recognition && v.cleanupThrows else v.inputThrows))
            && (after.told == Some(KnownNoEffect) <==>
                  v.outcome.Validated? && op.canceled && !(recognition && v.cleanupThrows))
            && (after.finalized && after.told.None? <==>
                  v.outcome.Validated? && !op.canceled && !v.inputThrows && v.queuedThrows)
            && (after.told != Some(BusinessResultPersisted) && after.told != Some(UnknownEffect))
    ensures Taken(op, true, recognition, v) ==>
              !AfterValidation(op, true, recognition, v).finalized
              || AfterValidation(op, true, recognition, v).told == Some(KnownNoEffect)
  {
  }

  datatype Registration = RegistrationThrew | Conflict | JoinsExisting | ReplaysExisting | Original

  /** How an executor begins, up to the business work. */
  datatype Beginning = Beginning(
    rate: Rate,
    cleanupThrows: bool,      // releaseReservation
    registration: Registration,
    issueThrows: bool,        // the work context, its binding, or the writer permission
    answered: bool)

  /** What the executor settles before any work is issued; None: the work is issued. */
  function Settles(recognition: bool, b: Beginning): Option<Disposition> {
    if !b.rate.RateAllowed? then Some(if recognition && b.cleanupThrows then UnknownEffect else KnownNoEffect)
    else if !recognition then (if b.issueThrows then Some(UnknownEffect) else None)
    else
      match b.registration
      case RegistrationThrew => Some(UnknownEffect)
      case Original => if b.issueThrows then Some(UnknownEffect) else None
      case _ => Some(KnownNoEffect)
  }

  /** The writer when its executor has begun: at work, or answered. */
  function Begun(w: Writer, b: Beginning): Writer {
    if Settles(w.recognition, b).None? then w.(work := Issued) else Responded(w, b.answered)
  }

  /** Work is issued exactly if the rate allows it and, for a recognition, the registry
      made it the original, and nothing on the way to the work throws. What is settled
      instead is unknown only where the registry or the context failed, or where a
      rejected reservation could not be released. */
  lemma BeginsIff(recognition: bool, b: Beginning)
    ensures Settles(recognition, b).None? <==>
              b.rate.RateAllowed? && !b.issueThrows && (recognition ==> b.registration.Original?)
    ensures Settles(recognition, b) == Some(UnknownEffect) <==>
              if b.rate.RateAllowed? then
                if recognition then b.registration.RegistrationThrew? || (b.registration.Original? && b.issueThrows)
                else b.issueThrows
              else recognition && b.cleanupThrows
    ensures Settles(recognition, b).Some? ==> Settles(recognition, b).value in {KnownNoEffect, UnknownEffect}
  {
  }

  /** How issued work comes back, and what its retained commit, the pause and the
      registry then do. */
  datatype Return = Return(
    answer: Answer,
    retained: bool,
    fault: RecoveryBridge.PauseFault,
    completes: bool,          // the registry took the terminal result
    answered: bool)

  /** A management executor whose pause throws is rejected without an answer. */
  predicate Answers(recognition: bool, r: Return) {
    recognition || !r.retained || r.fault.NoFault?
  }

  /** The writer whose work came back. */
  function BackFromWork(w: Writer, r: Return): Writer {
    var came := w.(work := Came(r.answer, r.retained, false));
    if Answers(w.recognition, r) then Responded(came, r.answered) else came
  }

  /** The settlement of work that retained nothing. */
  function SettlementOf(recognition: bool, r: Return): Disposition {
    match r.answer
    case WorkThrew => UnknownEffect
    case WorkInvalid => UnknownEffect
    case WorkReturned(d) =>
      if d.PrestartRejected? || d.UnknownEffect? || (recognition && !r.completes) then UnknownEffect else d
  }

  /** The setup of a writer, up to its validation. */
  datatype Setup = Setup(
    reserveThrows: bool,
    clocksThrow: bool,
    registeredThrows: bool,
    bindThrows: bool,                            // bindOperationIdentity
    construction: seq<ResponseOwner.Foreign>,
    registeredAt: real,
    settledThrows: bool)

  lemma GrantIsHis(before: map<nat, LeaseState>, granted: map<nat, LeaseState>, b: Bundle, plan: Plan,
                   holder: map<nat, nat>, n: nat,
                   after: map<nat, LeaseState>)
    requires Grants(before, granted, b, plan) && b.origin.Some? && !plan.http.Origin? && !plan.validation.Origin?
    requires forall id :: id in holder ==> id in before
    requires after == Inactive(Inactive(Inactive(granted, b.http), b.validation), b.origin.value)
    ensures OnlyHis(before, after, holder, n)
  {
  }

  /** The writer of an admitted and registered request. */
  function Admitted(recognition: bool, b: Bundle, s: Setup, response: Option<ResponseOwner.View>): Writer
    requires b.origin.Some?
  {
    Writer(recognition, b.http, b.validation, b.origin.value, response, response.Some?, !s.bindThrows, NotIssued)
  }

  lemma EquippedOk(before: map<nat, LeaseState>, granted: map<nat, LeaseState>, recognition: bool, b: Bundle, s: Setup,
                   response: Option<ResponseOwner.View>, after: map<nat, LeaseState>)
    requires Grants(before, granted, b, Plan(HttpOrdinary, ValidationWrite, true))
    requires var http := if response.Some? && response.value.releases == 0 then granted else Inactive(granted, b.http);
             after == if response.Some? then http else Inactive(http, b.validation)
    ensures LeaseOk(Admitted(recognition, b, s, response), REGISTERED, !s.bindThrows, after)
    ensures before.Keys <= after.Keys && (forall id :: id in before ==> after[id] == before[id])
    ensures forall id :: id in after && id !in before ==> id in {b.http, b.validation, b.origin.value}
  {
  }

  class Handler {
    const ledger: Ledger
    const coordinator: Coordinator
    var writers: map<nat, Writer>                // by operation
    var originByOperation: map<nat, nat>
    var holder: map<nat, nat>                    // whose lease it is

    ghost predicate Leased()
      reads `writers, `originByOperation, `holder, ledger, coordinator
    {
      ledger.Valid() && Sound(writers, coordinator.operations, originByOperation, ledger.leases, holder)
    }

    ghost function CoordinatorAudit(): Audit
      reads coordinator
    {
      if coordinator.Valid() then Passed else Flawed
    }

    ghost predicate Valid()
      reads `writers, `originByOperation, `holder, ledger, coordinator
    {
      CoordinatorAudit().Passed? && Leased()
    }

    constructor ()
      ensures Valid() && fresh(ledger) && fresh(coordinator) && writers == map[]
    {
      ledger := new Ledger();
      coordinator := new Coordinator();
      writers, originByOperation, holder := map[], map[], map[];
    }

    // ---------------------------------------------------------------- single effects

    method GiveBack(id: nat, pools: set<Pool>)
      requires ledger.Valid() && Holds(ledger.leases, id, pools, true)
      modifies ledger
      ensures ledger.Valid() && ledger.leases == Inactive(old(ledger.leases), id)
    {
      var r := ledger.Release(id, pools);
      assert r.Ok?;
    }

    method ReleaseValidation(i: nat)
      requires Leased() && i in writers && writers[i].validating
      modifies ledger, `writers
      ensures Leased() && writers == old(writers)[i := old(writers)[i].(validating := false)]
    {
      ghost var operations := coordinator.operations;
      ValidationReturned(writers, operations, originByOperation, ledger.leases, holder, i);
      var later := writers[i := writers[i].(validating := false)];
      GiveBack(writers[i].validation, VALIDATION_POOLS);
      assert Sound(later, operations, originByOperation, ledger.leases, holder);
      assert coordinator.operations == operations;
      writers := later;
    }

    method Respond(i: nat, answered: bool)
      requires Leased() && i in writers
      modifies ledger, `writers
      ensures Leased() && writers == old(writers)[i := Responded(old(writers)[i], answered)]
      ensures ledger.leases == old(ledger.leases) || ledger.leases == Inactive(old(ledger.leases), old(writers)[i].http)
    {
      ghost var operations := coordinator.operations;
      Responding(writers, operations, originByOperation, ledger.leases, holder, i, answered);
      var later := writers[i := Responded(writers[i], answered)];
      if Answerable(writers[i]) { GiveBack(writers[i].http, HTTP_POOLS); }
      assert Sound(later, operations, originByOperation, ledger.leases, holder);
      assert coordinator.operations == operations;
      writers := later;
    }

    /** lifecycleObserver.settled, after the coordinator told it: a known outcome
        returns the recorded origin lease, an unknown one keeps it. */
    method Settled(i: nat, ghost before: seq<Operation>)
      requires ledger.Valid() && Sound(writers, before, originByOperation, ledger.leases, holder)
      requires i in writers && i < |before| && OnlyStrands(before, coordinator.operations, i) && before[i].told.None?
               && coordinator.operations[i].told.Some?
      requires WorkOk(writers[i].work, coordinator.operations[i])
      modifies ledger, `originByOperation
      ensures ledger.Valid() && Sound(writers, coordinator.operations, originByOperation, ledger.leases, holder)
    {
      if Known(coordinator.operations[i].told) && i in originByOperation {
        ReturnOrigin(i, before);
      } else {
        Kept(writers, before, originByOperation, ledger.leases, holder, i, coordinator.operations);
      }
    }

    method ReturnOrigin(i: nat, ghost before: seq<Operation>)
      requires ledger.Valid() && Sound(writers, before, originByOperation, ledger.leases, holder)
      requires i in writers && i in originByOperation && i < |before| && OnlyStrands(before, coordinator.operations, i)
      requires before[i].told.None? && Known(coordinator.operations[i].told)
      requires WorkOk(writers[i].work, coordinator.operations[i])
      modifies ledger, `originByOperation
      ensures ledger.Valid() && Sound(writers, coordinator.operations, originByOperation, ledger.leases, holder)
    {
      ghost var operations := coordinator.operations;
      PublishedKnown(writers, before, originByOperation, ledger.leases, holder, i, operations);
      var rest := originByOperation - {i};
      GiveBack(originByOperation[i], {Origin});
      assert Sound(writers, operations, rest, ledger.leases, holder);
      assert coordinator.operations == operations;
      originByOperation := rest;
    }

    // ------------------------------------------------------------------- validation

    /** safeRejectProvisional: told PRESTART_REJECTED if it is still queued. */
    method Reject(i: nat, observerThrows: bool)
      requires Valid() && i in writers
      modifies ledger, coordinator, `originByOperation
      ensures Valid()
      ensures i < |old(coordinator.operations)| && i < |coordinator.operations|
              && coordinator.operations[i] == Dismissed(old(coordinator.operations)[i], i in old(coordinator.queue))
      ensures ToldKept(old(coordinator.operations), coordinator.operations)
    {
      ghost var before := coordinator.operations;
      Each(writers, before, originByOperation, ledger.leases, holder, i);
      if i in coordinator.queue { DismissedOk(writers[i].work, before[i], true, Rejected, PrestartRejected); }
      DecidedOk(writers[i].work, before[i], true, Rejected);
      var ok := coordinator.RejectBeforeStart(i, observerThrows);
      if ok {
        Settled(i, before);
      } else {
        Kept(writers, before, originByOperation, ledger.leases, holder, i, coordinator.operations);
      }
    }

    // -------------------------------------------------------------------- admission

    /** Everything back before an operation was handed out. */
    method RollBack(b: Bundle)
      requires ledger.Valid() && b.origin.Some?
      requires Holds(ledger.leases, b.http, HTTP_POOLS, true)
               && Holds(ledger.leases, b.validation, VALIDATION_POOLS, true)
      requires Holds(ledger.leases, b.origin.value, {Origin}, true)
      modifies ledger
      ensures ledger.Valid()
      ensures ledger.leases == Inactive(Inactive(Inactive(old(ledger.leases), b.http), b.validation), b.origin.value)
    {
      var http := ledger.Release(b.http, HTTP_POOLS);
      var validation := ledger.Release(b.validation, VALIDATION_POOLS);
      var origin := ledger.Release(b.origin.value, {Origin});
      assert http.Ok? && validation.Ok? && origin.Ok?;
    }

    /** The owner of a registered writer's response, unless its identity cannot be
        bound or the construction throws; then http and validation go back. */
    method Equip(b: Bundle, s: Setup) returns (response: Option<ResponseOwner.View>)
      requires ledger.Valid()
      requires Holds(ledger.leases, b.http, HTTP_POOLS, true)
               && Holds(ledger.leases, b.validation, VALIDATION_POOLS, true)
      modifies ledger
      ensures ledger.Valid() && (response.Some? ==> AtRest(response.value))
      ensures s.bindThrows ==> response.None?
      ensures ResponseOwner.Quiet(s.construction) && !s.bindThrows ==>
                (response.Some? && response.value.state.Open? <==>
                   ResponseOwner.Opens(s.construction, s.registeredAt))
      ensures var http := if response.Some? && response.value.releases == 0 then old(ledger.leases)
                          else Inactive(old(ledger.leases), b.http);
              ledger.leases == if response.Some? then http else Inactive(http, b.validation)
    {
      if !s.bindThrows {
        var owner := CreateOwner(ledger, b.http, s.construction, s.registeredAt);
        if owner.Some? { return Some(owner.value.Now()); }
      }
      var http := ledger.Release(b.http, HTTP_POOLS);
      var validation := ledger.Release(b.validation, VALIDATION_POOLS);
      assert http.Ok? && validation.Ok?;
      return None;
    }

    /** A writer's leases are all to be had. */
    predicate Admissible()
      reads ledger
    {
      && |ActiveIn(ledger.leases, HttpOrdinary)| < Limit(HttpOrdinary)
      && |ActiveIn(ledger.leases, ValidationWrite)| < Limit(ValidationWrite)
      && |ActiveIn(ledger.leases, Origin)| < Limit(Origin)
    }

    /** startWriter: refused and rolled back, or a writer whose validation begins, or
        one that is rejected at once. */
    method Admit(recognition: bool, s: Setup) returns (operation: Option<nat>)
      requires Valid()
      modifies this, ledger, coordinator
      ensures Valid()
      ensures ToldKept(old(coordinator.operations), coordinator.operations)
      ensures operation.Some? <==>
                && old(Admissible()) && !(recognition && s.reserveThrows)
                && !old(coordinator.blocked) && !s.clocksThrow && !s.registeredThrows
      ensures !old(Admissible()) ==>
                ledger.leases == old(ledger.leases) && coordinator.operations == old(coordinator.operations)
      ensures operation.None? ==> writers == old(writers) && originByOperation == old(originByOperation)
      ensures operation.Some? ==>
                && operation.value == |old(coordinator.operations)| && operation.value in writers
                && operation.value < |coordinator.operations|
                && var w := writers[operation.value];
                   && w.recognition == recognition && w.recorded == !s.bindThrows && w.work.NotIssued?
                   && (s.bindThrows ==> w.response.None?) && w.validating == w.response.Some?
                   && (ResponseOwner.Quiet(s.construction) && !s.bindThrows ==>
                         (w.response.Some? && w.response.value.state.Open? <==>
                            ResponseOwner.Opens(s.construction, s.registeredAt)))
                   && coordinator.operations[operation.value] ==
                      if w.response.Some? then REGISTERED else Dismissed(REGISTERED, true)
    {
      var bundle := ledger.TryAcquire(if recognition then NormalRecognition else Management);
      if bundle.None? { return None; }
      operation := None;
      if !(recognition && s.reserveThrows) {
        operation := coordinator.Register(s.clocksThrow, s.registeredThrows);
      }
      if operation.None? {
        Refuse(bundle.value, old(coordinator.operations), old(ledger.leases));
      } else {
        Enlist(recognition, bundle.value, s, old(coordinator.operations), old(ledger.leases));
        if s.bindThrows || writers[operation.value].response.None? { Reject(operation.value, s.settledThrows); }
      }
    }

    method Refuse(b: Bundle, ghost operations: seq<Operation>, ghost leases: map<nat, LeaseState>)
      requires ledger.Valid() && CoordinatorAudit().Passed?
      requires Sound(writers, operations, originByOperation, leases, holder) && |operations| <= |coordinator.operations|
      requires OnlyStrands(operations, coordinator.operations[..|operations|], |operations|)
      requires forall k :: |operations| <= k < |coordinator.operations| ==> coordinator.operations[k].finalized
      requires Grants(leases, ledger.leases, b, Plan(HttpOrdinary, ValidationWrite, true))
      modifies ledger
      ensures Valid()
    {
      NotYet(writers, operations, originByOperation, leases, holder);
      GrantIsHis(leases, ledger.leases, b, Plan(HttpOrdinary, ValidationWrite, true), holder, |operations|,
                 Inactive(Inactive(Inactive(ledger.leases, b.http), b.validation), b.origin.value));
      RollBack(b);
      Elsewhere(writers, operations, originByOperation, leases, holder, coordinator.operations, ledger.leases);
    }

    method Enlist(recognition: bool, b: Bundle, s: Setup, ghost operations: seq<Operation>,
                  ghost leases: map<nat, LeaseState>)
      requires ledger.Valid() && CoordinatorAudit().Passed?
      requires Sound(writers, operations, originByOperation, leases, holder)
      requires coordinator.operations == operations + [REGISTERED]
      requires Grants(leases, ledger.leases, b, Plan(HttpOrdinary, ValidationWrite, true))
      modifies ledger, `writers, `originByOperation, `holder
      ensures Valid() && |operations| in writers
      ensures writers[|operations|] == Admitted(recognition, b, s, writers[|operations|].response)
      ensures s.bindThrows ==> writers[|operations|].response.None?
      ensures ResponseOwner.Quiet(s.construction) && !s.bindThrows ==>
                var response := writers[|operations|].response;
                (response.Some? && response.value.state.Open? <==>
                   ResponseOwner.Opens(s.construction, s.registeredAt))
    {
      var i := |coordinator.operations| - 1;
      ghost var granted := ledger.leases;
      var response := Equip(b, s);
      var w := Admitted(recognition, b, s, response);
      EquippedOk(leases, granted, recognition, b, s, response, ledger.leases);
      Joins(writers, operations, originByOperation, leases, holder, w, ledger.leases);
      writers := writers[i := w];
      originByOperation := Mapped(originByOperation, w, i);
      holder := Handed(holder, w, i);
    }

    /** validateWriter after its await: rejected, cancelled by maintenance, or ready. */
    method ValidationReturns(i: nat, v: Validating)
      requires Valid()
      modifies this, ledger, coordinator
      ensures Valid()
      ensures ToldKept(old(coordinator.operations), coordinator.operations)
      ensures i in old(writers) && old(writers)[i].validating ==>
                && i < |old(coordinator.operations)| && i < |coordinator.operations| && i in writers
                && var op, queued, w := old(coordinator.operations)[i], i in old(coordinator.queue), old(writers)[i];
                   && coordinator.operations[i] == AfterValidation(op, queued, w.recognition, v)
                   && writers[i] == (if Taken(op, queued, w.recognition, v) then w else Responded(w, v.answered)).(
                        validating := false)
    {
      if i !in writers || !writers[i].validating { return; }
      ReleaseValidation(i);
      if !v.outcome.Validated? {
        Dismiss(i, v);
        return;
      }
      Decide(i, v);
    }

    /** After a valid result: cancelled by maintenance, or on to the queue. */
    method Decide(i: nat, v: Validating)
      requires Valid() && i in writers && !writers[i].validating
      modifies ledger, coordinator, `writers, `originByOperation
      ensures Valid()
      ensures ToldKept(old(coordinator.operations), coordinator.operations)
      ensures i < |old(coordinator.operations)| && i < |coordinator.operations| && i in writers
      ensures v.outcome.Validated? ==>
                var op, queued, w := old(coordinator.operations)[i], i in old(coordinator.queue), old(writers)[i];
                && coordinator.operations[i] == AfterValidation(op, queued, w.recognition, v)
                && writers[i] == if Taken(op, queued, w.recognition, v) then w else Responded(w, v.answered)
    {
      ghost var before := coordinator.operations;
      var canceled := ConsumeCancellation(i);
      ghost var consumed := coordinator.operations;
      TakeOrDismiss(i, canceled, v);
      ToldKeptOn(before, consumed, coordinator.operations);
    }

    method TakeOrDismiss(i: nat, canceled: bool, v: Validating)
      requires Valid() && i in writers && !writers[i].validating
      modifies ledger, coordinator, `writers, `originByOperation
      ensures Valid()
      ensures ToldKept(old(coordinator.operations), coordinator.operations)
      ensures i < |old(coordinator.operations)| && i < |coordinator.operations| && i in writers
      ensures var op, queued, w := old(coordinator.operations)[i], i in old(coordinator.queue), old(writers)[i];
              && coordinator.operations[i] == (if Dropped(canceled, w.recognition, v) then Dismissed(op, queued)
                                               else Proceeding(op, queued, canceled, w.recognition, v))
              && writers[i] == if Proceeds(op, queued, canceled, w.recognition, v) then w else Responded(w, v.answered)
    {
      ghost var before := coordinator.operations;
      var decided := Proceed(i, canceled, v);
      ghost var tried := coordinator.operations;
      if !decided { Dismiss(i, v); }
      ToldKeptOn(before, tried, coordinator.operations);
    }

    /** Settled for maintenance, or activated, unless something threw before. */
    method Proceed(i: nat, canceled: bool, v: Validating) returns (decided: bool)
      requires Valid() && i in writers
      modifies ledger, coordinator, `originByOperation
      ensures Valid()
      ensures ToldKept(old(coordinator.operations), coordinator.operations)
      ensures i < |old(coordinator.operations)| && i < |coordinator.operations|
      ensures var op, queued, recognition :=
                old(coordinator.operations)[i], i in old(coordinator.queue), writers[i].recognition;
              && decided == Proceeds(op, queued, canceled, recognition, v)
              && coordinator.operations[i] == Proceeding(op, queued, canceled, recognition, v)
              && (Dropped(canceled, recognition, v) ==> coordinator.queue == old(coordinator.queue))
    {
      Each(writers, coordinator.operations, originByOperation, ledger.leases, holder, i);
      if Dropped(canceled, writers[i].recognition, v) { return false; }
      if canceled {
        decided := SettleMaintenance(i, v.settledThrows);
      } else {
        decided := Activate(i, v.queuedThrows);
      }
    }

    method Dismiss(i: nat, v: Validating)
      requires Valid() && i in writers && !writers[i].validating
      modifies ledger, coordinator, `writers, `originByOperation
      ensures Valid()
      ensures ToldKept(old(coordinator.operations), coordinator.operations)
      ensures i < |old(coordinator.operations)| && i < |coordinator.operations|
              && coordinator.operations[i] == Dismissed(old(coordinator.operations)[i], i in old(coordinator.queue))
      ensures i in writers && writers[i] == Responded(old(writers)[i], v.answered)
    {
      Respond(i, v.answered);
      Reject(i, v.settledThrows);
    }

    method ConsumeCancellation(i: nat) returns (canceled: bool)
      requires Valid() && i in writers
      modifies coordinator`operations
      ensures Valid()
      ensures ToldKept(old(coordinator.operations), coordinator.operations)
      ensures i < |old(coordinator.operations)| && i < |coordinator.operations|
              && canceled == old(coordinator.operations)[i].canceled
              && coordinator.operations[i] == old(coordinator.operations)[i].(canceled := false)
    {
      ghost var before := coordinator.operations;
      Each(writers, before, originByOperation, ledger.leases, holder, i);
      canceled := coordinator.ConsumeCancellation(i);
      MovesOn(writers, before, originByOperation, ledger.leases, holder, i, coordinator.operations);
    }

    method Activate(i: nat, queuedThrows: bool) returns (ok: bool)
      requires Valid() && i in writers
      modifies coordinator
      ensures Valid()
      ensures ToldKept(old(coordinator.operations), coordinator.operations)
      ensures i < |old(coordinator.operations)| && i < |coordinator.operations|
              && ok == (!old(coordinator.operations)[i].decided && !queuedThrows)
              && coordinator.operations[i] == Activating(old(coordinator.operations)[i], queuedThrows)
    {
      ghost var before := coordinator.operations;
      Each(writers, before, originByOperation, ledger.leases, holder, i);
      ok := coordinator.Activate(i, queuedThrows);
      MovesOn(writers, before, originByOperation, ledger.leases, holder, i, coordinator.operations);
    }

    method SettleMaintenance(i: nat, settledThrows: bool) returns (settled: bool)
      requires Valid() && i in writers
      modifies ledger, coordinator, `originByOperation
      ensures Valid()
      ensures ToldKept(old(coordinator.operations), coordinator.operations)
      ensures i < |old(coordinator.operations)| && i < |coordinator.operations|
      ensures var op, queued := old(coordinator.operations)[i], i in old(coordinator.queue);
              && settled == (!op.decided && queued && !settledThrows)
              && coordinator.operations[i] == Settling(op, queued)
    {
      ghost var before := coordinator.operations;
      Each(writers, before, originByOperation, ledger.leases, holder, i);
      if i in coordinator.queue {
        HeadIsWriter(i);
        DismissedOk(writers[i].work, before[i], true, before[i].validation, KnownNoEffect);
      }
      var ok := coordinator.SettleMaintenance(i);
      if ok {
        Settled(i, before);
      } else {
        MovesOn(writers, before, originByOperation, ledger.leases, holder, i, coordinator.operations);
      }
      return ok && !settledThrows;
    }

    // -------------------------------------------------------------------- executors

    /** One turn of drain, and the executor of what it started up to its work. */
    method Drain(gate: Gate, startedThrows: bool, b: Beginning) returns (started: Option<nat>)
      requires Valid()
      modifies this, ledger, coordinator
      ensures Valid()
      ensures ToldKept(old(coordinator.operations), coordinator.operations)
      ensures started.Some? <==> old(Startable(Now())) && gate.Allows? && !startedThrows
      ensures started.Some? ==>
                var i := started.value;
                && old(coordinator.queue) != [] && i == old(coordinator.queue)[0]
                && i in old(writers) && i in writers && i < |coordinator.operations|
                && var op, settles := coordinator.operations[i], Settles(old(writers)[i].recognition, b);
                   && writers[i] == Begun(old(writers)[i], b)
                   && if settles.None? then op.executor.Working? && writers[i].work.Issued?
                      else
                        && op.executor == Ended(false) && op.candidate == settles && op.settlements == 1
                        && writers[i].work.NotIssued?
    {
      ghost var before := coordinator.operations;
      var startable := coordinator.Startable();
      if !startable { return None; }
      var head := coordinator.queue[0];
      HeadIsWriter(head);
      started := coordinator.Start(gate, startedThrows);
      if started.None? {
        MovesOn(writers, before, originByOperation, ledger.leases, holder, head, coordinator.operations);
      } else {
        ghost var began := coordinator.operations;
        Begin(head, b, before);
        ToldKeptOn(before, began, coordinator.operations);
      }
    }

    lemma HeadIsWriter(i: nat)
      requires Valid() && i in coordinator.queue
      ensures i < |coordinator.operations| && i in writers && QueuedOk(coordinator.operations[i])
      ensures WorkOk(writers[i].work, coordinator.operations[i])
    {
      assert OperationOk(coordinator.operations[i], true, coordinator.current == Some(i));
      Each(writers, coordinator.operations, originByOperation, ledger.leases, holder, i);
    }

    method Begin(i: nat, b: Beginning, ghost before: seq<Operation>)
      requires CoordinatorAudit().Passed? && ledger.Valid()
               && Sound(writers, before, originByOperation, ledger.leases, holder)
      requires i in writers && i < |before| && OnlyStrands(before, coordinator.operations, i)
               && coordinator.current == Some(i)
      requires QueuedOk(before[i]) && coordinator.operations[i] == before[i].(active := true, executor := Working)
      modifies ledger, `writers, coordinator
      ensures Valid()
      ensures ToldKept(old(coordinator.operations), coordinator.operations)
      ensures i in writers && i < |coordinator.operations|
      ensures var settles := Settles(old(writers)[i].recognition, b);
              && writers[i] == Begun(old(writers)[i], b)
              && coordinator.operations[i] == if settles.None? then old(coordinator.operations)[i]
                                              else Recorded(old(coordinator.operations)[i],
                                                            settles.value).(executor := Ended(false))
    {
      var settles := Settles(writers[i].recognition, b);
      if settles.None? {
        Issue(i, before);
      } else {
        SettleEarly(i, settles.value, before);
        var _ := AnswerEarly(i, b);
      }
    }

    method Issue(i: nat, ghost before: seq<Operation>)
      requires CoordinatorAudit().Passed? && ledger.Valid()
               && Sound(writers, before, originByOperation, ledger.leases, holder)
      requires i in writers && i < |before| && OnlyStrands(before, coordinator.operations, i)
      requires QueuedOk(before[i]) && coordinator.operations[i] == before[i].(active := true, executor := Working)
      modifies `writers
      ensures Valid() && i in writers && writers[i] == old(writers)[i].(work := Issued)
    {
      Each(writers, before, originByOperation, ledger.leases, holder, i);
      IssuedOk(writers[i].work, before[i]);
      Moved(writers, before, originByOperation, ledger.leases, holder, i, Issued, coordinator.operations);
      writers := writers[i := writers[i].(work := Issued)];
    }

    /** The replay of an existing recognition, or the plain answer. */
    method AnswerEarly(i: nat, b: Beginning) returns (replayed: bool)
      requires Valid() && i in writers
      modifies ledger, `writers
      ensures Valid()
      ensures i in writers && writers[i] == Responded(old(writers)[i], b.answered)
      ensures replayed <==> && old(writers)[i].recognition && b.rate.RateAllowed? && b.registration.ReplaysExisting?
                            && |ActiveIn(old(ledger.leases), CanonicalReplay)| < Limit(CanonicalReplay)
    {
      replayed := false;
      if writers[i].recognition && b.rate.RateAllowed? && b.registration.ReplaysExisting? {
        replayed := HandleReplay(i, b.answered);
      } else {
        Respond(i, b.answered);
      }
    }

    method SettleEarly(i: nat, d: Disposition, ghost before: seq<Operation>)
      requires CoordinatorAudit().Passed? && ledger.Valid()
               && Sound(writers, before, originByOperation, ledger.leases, holder)
      requires i in writers && i < |before| && OnlyStrands(before, coordinator.operations, i)
               && coordinator.current == Some(i)
      requires QueuedOk(before[i]) && coordinator.operations[i] == before[i].(active := true, executor := Working)
      requires d.KnownNoEffect? || d.UnknownEffect?
      modifies coordinator
      ensures Valid()
      ensures ToldKept(old(coordinator.operations), coordinator.operations)
      ensures i < |coordinator.operations|
      ensures coordinator.operations[i] == Recorded(old(coordinator.operations)[i], d).(executor := Ended(false))
    {
      Each(writers, before, originByOperation, ledger.leases, holder, i);
      ghost var began := coordinator.operations;
      coordinator.Record(i, d);
      ghost var recorded := coordinator.operations;
      coordinator.EndExecutor(false);
      ToldKeptOn(began, recorded, coordinator.operations);
      SettledEarlyOk(writers[i].work, before[i], d);
      Kept(writers, before, originByOperation, ledger.leases, holder, i, coordinator.operations);
    }

    /** handleReplay: the answer is rendered under one canonicalReplay lease. */
    method HandleReplay(i: nat, answered: bool) returns (replayed: bool)
      requires Leased() && i in writers
      modifies ledger, `writers
      ensures Leased()
      ensures i in writers && writers[i] == Responded(old(writers)[i], answered)
      ensures replayed <==> |ActiveIn(old(ledger.leases), CanonicalReplay)| < Limit(CanonicalReplay)
    {
      HoldersKnown(writers, coordinator.operations, originByOperation, ledger.leases, holder);
      var capacity := TakeCapacity();
      Respond(i, answered);
      if capacity.Some? { GiveCapacity(capacity.value); }
      return capacity.Some?;
    }

    method TakeCapacity() returns (capacity: Option<nat>)
      requires Leased()
      modifies ledger
      ensures Leased()
      ensures capacity.Some? <==> |ActiveIn(old(ledger.leases), CanonicalReplay)| < Limit(CanonicalReplay)
      ensures capacity.Some? ==> capacity.value !in holder
                                 && Holds(ledger.leases, capacity.value, {CanonicalReplay}, true)
    {
      HoldersKnown(writers, coordinator.operations, originByOperation, ledger.leases, holder);
      ghost var leases := ledger.leases;
      capacity := ledger.TryAcquireAncillary(CanonicalReplay);
      if capacity.Some? {
        Foreign(writers, coordinator.operations, originByOperation, leases, holder, ledger.leases);
      }
    }

    method GiveCapacity(capacity: nat)
      requires Leased() && capacity !in holder && Holds(ledger.leases, capacity, {CanonicalReplay}, true)
      modifies ledger
      ensures Leased() && ledger.leases == Inactive(old(ledger.leases), capacity)
    {
      ghost var leases := ledger.leases;
      GiveBack(capacity, {CanonicalReplay});
      Foreign(writers, coordinator.operations, originByOperation, leases, holder, ledger.leases);
    }

    /** executeManagement, executeRecognition and runOriginalRecognition after the await. */
    method WorkReturns(r: Return)
      requires Valid()
      modifies coordinator, ledger, `writers
      ensures Valid()
      ensures ToldKept(old(coordinator.operations), coordinator.operations)
      ensures old(coordinator.current).Some?
              && old(coordinator.operations)[old(coordinator.current).value].executor.Working? ==>
                var i := old(coordinator.current).value;
                && i in old(writers) && i in writers && writers[i] == BackFromWork(old(writers)[i], r)
                && i < |coordinator.operations|
                && coordinator.operations[i] == Ending(old(writers)[i].recognition, r, old(coordinator.operations)[i])
    {
      if coordinator.current.None? || !coordinator.operations[coordinator.current.value].executor.Working? { return; }
      var i := coordinator.current.value;
      EndWork(i, r);
      if Answers(writers[i].recognition, r) { Respond(i, r.answered); }
    }

    method EndWork(i: nat, r: Return)
      requires Valid() && coordinator.current == Some(i) && i < |coordinator.operations|
               && coordinator.operations[i].executor.Working?
      modifies coordinator, `writers
      ensures Valid() && ToldKept(old(coordinator.operations), coordinator.operations)
      ensures i in old(writers) && i in writers
              && writers[i] == old(writers)[i].(work := Came(r.answer, r.retained, false))
      ensures coordinator.operations ==
                old(coordinator.operations)[i := Ending(writers[i].recognition, r, old(coordinator.operations)[i])]
    {
      RunningIsWriter(i);
      ghost var before := coordinator.operations;
      var work := Came(r.answer, r.retained, false);
      SettleWork(i, writers[i].recognition, r);
      Moved(writers, before, originByOperation, ledger.leases, holder, i, work, coordinator.operations);
      writers := writers[i := writers[i].(work := work)];
    }

    method SettleWork(i: nat, recognition: bool, r: Return)
      requires CoordinatorAudit().Passed? && coordinator.current == Some(i) && i < |coordinator.operations|
      requires WorkOk(Issued, coordinator.operations[i]) && RunningOk(coordinator.operations[i])
               && coordinator.operations[i].executor.Working?
      modifies coordinator
      ensures CoordinatorAudit().Passed? && ToldKept(old(coordinator.operations), coordinator.operations)
      ensures coordinator.operations ==
              old(coordinator.operations)[i := Ending(recognition, r, old(coordinator.operations)[i])]
      ensures OnlyStrands(old(coordinator.operations), coordinator.operations, i)
      ensures WorkOk(Came(r.answer, r.retained, false), coordinator.operations[i])
      ensures coordinator.operations[i].told == old(coordinator.operations)[i].told
    {
      ghost var op := coordinator.operations[i];
      EndsOk(recognition, r, op, Ending(recognition, r, op));
      if recognition {
        SettleRecognition(i, r);
      } else {
        SettleManagement(i, r);
      }
    }

    lemma RunningIsWriter(i: nat)
      requires Valid() && coordinator.current == Some(i)
      ensures i < |coordinator.operations| && i in writers && RunningOk(coordinator.operations[i])
      ensures WorkOk(writers[i].work, coordinator.operations[i])
    {
      assert OperationOk(coordinator.operations[i], false, true);
      Each(writers, coordinator.operations, originByOperation, ledger.leases, holder, i);
    }

    method SettleManagement(i: nat, r: Return)
      requires CoordinatorAudit().Passed? && coordinator.current == Some(i) && i < |coordinator.operations|
      requires WorkOk(Issued, coordinator.operations[i]) && coordinator.operations[i].executor.Working?
      modifies coordinator
      ensures CoordinatorAudit().Passed? && coordinator.current == Some(i)
      ensures coordinator.operations ==
              old(coordinator.operations)[i := Ending(false, r, old(coordinator.operations)[i])]
      ensures ToldKept(old(coordinator.operations), coordinator.operations)
    {
      var failed := false;
      if !r.retained {
        coordinator.Record(i, SettlementOf(false, r));
      } else if r.fault.SettlementThrows? {
        failed := true;
      } else {
        var paused := coordinator.RequestPause(i);
        assert paused;
        failed := !r.fault.NoFault?;
      }
      coordinator.EndExecutor(failed);
    }

    method SettleRecognition(i: nat, r: Return)
      requires CoordinatorAudit().Passed? && coordinator.current == Some(i) && i < |coordinator.operations|
      requires WorkOk(Issued, coordinator.operations[i]) && coordinator.operations[i].executor.Working?
      modifies coordinator
      ensures CoordinatorAudit().Passed? && coordinator.current == Some(i)
      ensures coordinator.operations ==
              old(coordinator.operations)[i := Ending(true, r, old(coordinator.operations)[i])]
      ensures ToldKept(old(coordinator.operations), coordinator.operations)
    {
      if !r.retained {
        coordinator.Record(i, SettlementOf(true, r));
      } else {
        if !r.fault.SettlementThrows? {
          var paused := coordinator.RequestPause(i);
          assert paused;
        }
        // whatever the pause threw, the executor's outer catch settles as unknown
        if !r.fault.NoFault? { coordinator.Record(i, UnknownEffect); }
      }
      coordinator.EndExecutor(false);
    }

    // --------------------------------------------------------------------- outcomes

    /** The end of runOperation: published, or paused. */
    method ExecutorReturns(settledThrows: bool)
      requires Valid()
      modifies coordinator, ledger, `originByOperation
      ensures Valid()
      ensures ToldKept(old(coordinator.operations), coordinator.operations)
      ensures old(coordinator.current).Some?
              && old(coordinator.operations)[old(coordinator.current).value].executor.Ended?
              && !old(coordinator.operations)[old(coordinator.current).value].phase.Paused? ==>
                var i, op := old(coordinator.current).value,
                  old(coordinator.operations)[old(coordinator.current).value];
                && i < |coordinator.operations|
                && coordinator.operations[i] == if Verdict(op).None? then op.(phase := Paused)
                   else Told(op, Verdict(op).value)
    {
      if coordinator.current.None? { return; }
      var i := coordinator.current.value;
      RunningIsWriter(i);
      if !coordinator.operations[i].executor.Ended? || coordinator.operations[i].phase.Paused? { return; }
      ghost var before := coordinator.operations;
      VerdictOk(writers[i].work, before[i]);
      var publishes := Verdict(coordinator.operations[i]).Some?;
      coordinator.Complete(settledThrows);
      if publishes {
        Settled(i, before);
      } else {
        Kept(writers, before, originByOperation, ledger.leases, holder, i, coordinator.operations);
      }
    }

    /** The recovery handle's two commands; any other operation than the paused one
        makes them throw. */
    method RecoveryReturns(proved: bool, settledThrows: bool)
      requires Valid()
      modifies coordinator, ledger, `writers, `originByOperation
      ensures Valid()
      ensures ToldKept(old(coordinator.operations), coordinator.operations)
      ensures OnHold(old(coordinator.operations), old(coordinator.current)) ==>
                var i := old(coordinator.current).value;
                && i < |coordinator.operations|
                && coordinator.operations[i].told == Some(if proved then BusinessResultPersisted else UnknownEffect)
    {
      if coordinator.current.None? { return; }
      var i := coordinator.current.value;
      RunningIsWriter(i);
      if !coordinator.operations[i].phase.Paused? { return; }
      RecoveredOk(writers[i].work, coordinator.operations[i]);
      if proved {
        Prove(i);
        PublishRecovered(i, settledThrows);
      } else {
        FailRecovered(i, settledThrows);
      }
    }

    method Prove(i: nat)
      requires Leased() && i in writers && i < |coordinator.operations| && writers[i].work.Came?
      requires WorkOk(writers[i].work.(recovered := true), coordinator.operations[i])
      modifies `writers
      ensures Leased() && i in writers && writers[i].work == old(writers)[i].work.(recovered := true)
    {
      var work := writers[i].work.(recovered := true);
      Moved(writers, coordinator.operations, originByOperation, ledger.leases, holder, i, work, coordinator.operations);
      writers := writers[i := writers[i].(work := work)];
    }

    method PublishRecovered(i: nat, settledThrows: bool)
      requires Valid() && coordinator.current == Some(i) && i in writers && i < |coordinator.operations|
      requires coordinator.operations[i].phase.Paused? && coordinator.operations[i].told.None?
      requires WorkOk(writers[i].work, Told(coordinator.operations[i], BusinessResultPersisted))
      modifies coordinator, ledger, `originByOperation
      ensures Valid()
      ensures ToldKept(old(coordinator.operations), coordinator.operations)
      ensures i < |coordinator.operations| && coordinator.operations[i].told == Some(BusinessResultPersisted)
    {
      ghost var before := coordinator.operations;
      var _ := coordinator.FinalizeRecovered(settledThrows);
      Settled(i, before);
    }

    method FailRecovered(i: nat, settledThrows: bool)
      requires Valid() && coordinator.current == Some(i) && i in writers && i < |coordinator.operations|
      requires coordinator.operations[i].phase.Paused? && coordinator.operations[i].told.None?
      requires WorkOk(writers[i].work, Told(coordinator.operations[i], UnknownEffect))
      modifies coordinator, ledger, `originByOperation
      ensures Valid()
      ensures ToldKept(old(coordinator.operations), coordinator.operations)
      ensures i < |coordinator.operations| && coordinator.operations[i].told == Some(UnknownEffect)
    {
      ghost var before := coordinator.operations;
      coordinator.FailRecovered(settledThrows);
      Settled(i, before);
    }

    // ------------------------------------------------------------------ maintenance

    /** settleReadyKnownNoEffect over a snapshot of the queue: whoever is validated among
        the first `seen` is settled; it stops at the first cleanup or observer that
        throws, otherwise nothing validated is left waiting. */
    method SettleReady(cleanupThrows: set<nat>, settledThrows: set<nat>) returns (stopped: bool, ghost seen: nat)
      requires Valid()
      modifies coordinator, ledger, `originByOperation
      ensures Valid() && ToldKept(old(coordinator.operations), coordinator.operations)
      ensures SettlingEnds(old(coordinator.operations), old(coordinator.queue), cleanupThrows, settledThrows, stopped,
                           seen, coordinator.operations, coordinator.queue)
    {
      var snapshot := coordinator.queue;
      ghost var before := coordinator.operations;
      Increases();
      var k := 0;
      while k < |snapshot|
        invariant k <= |snapshot| && Valid() && ToldKept(before, coordinator.operations)
        invariant SettlingAudit(before, snapshot, k, cleanupThrows, settledThrows, coordinator.operations,
                                coordinator.queue).Passed?
      {
        ghost var operations, queue := coordinator.operations, coordinator.queue;
        var settled;
        stopped, settled := VisitReady(snapshot[k], cleanupThrows, settledThrows, before);
        SettlingGoesOn(before, snapshot, k, cleanupThrows, settledThrows, operations, queue, stopped, settled,
                       coordinator.operations, coordinator.queue);
        if stopped { return true, if settled then k + 1 else k; }
        k := k + 1;
      }
      SettlingComplete(before, snapshot, cleanupThrows, settledThrows, coordinator.operations, coordinator.queue);
      return false, k;
    }

    lemma Increases()
      requires Valid()
      ensures Increasing(coordinator.queue)
      ensures forall k :: 0 <= k < |coordinator.queue| ==> coordinator.queue[k] < |coordinator.operations|
    {
    }

    method VisitReady(i: nat, cleanupThrows: set<nat>, settledThrows: set<nat>, ghost since: seq<Operation>)
      returns (stops: bool, settled: bool)
      requires Valid() && ToldKept(since, coordinator.operations)
      modifies coordinator, ledger, `originByOperation
      ensures Valid() && ToldKept(since, coordinator.operations)
      ensures Visited(old(coordinator.operations), old(coordinator.queue), i, cleanupThrows, settledThrows, stops,
                      settled,
                      coordinator.operations, coordinator.queue)
    {
      if i !in coordinator.queue { return false, false; }
      HeadIsWriter(i);
      if !coordinator.operations[i].validation.Ready? { return false, false; }
      if i in cleanupThrows { return true, false; }
      ghost var before := coordinator.operations;
      SettleOneReady(i);
      ToldKeptOn(since, before, coordinator.operations);
      return i in settledThrows, true;
    }

    method SettleOneReady(i: nat)
      requires Valid() && i in coordinator.queue && i in writers && i < |coordinator.operations|
      requires QueuedOk(coordinator.operations[i]) && WorkOk(writers[i].work, coordinator.operations[i])
      modifies coordinator, ledger, `originByOperation
      ensures Valid()
      ensures ToldKept(old(coordinator.operations), coordinator.operations)
      ensures coordinator.queue == Without(old(coordinator.queue), i)
      ensures coordinator.operations ==
              old(coordinator.operations)[i := Told(old(coordinator.operations)[i], KnownNoEffect)]
    {
      ghost var before := coordinator.operations;
      var op := coordinator.operations[i];
      DismissedOk(writers[i].work, op, op.decided, op.validation, KnownNoEffect);
      coordinator.FinalizeMaintenance(i, op);
      Settled(i, before);
    }

    method MarkWaiting()
      requires Valid()
      modifies coordinator`operations
      ensures Valid() && coordinator.operations == Marked(old(coordinator.operations), coordinator.queue)
      ensures ToldKept(old(coordinator.operations), coordinator.operations)
    {
      MarkedOk(writers, coordinator.operations, originByOperation, ledger.leases, holder, coordinator.queue);
      coordinator.MarkWaiting();
    }

    // --------------------------------------------------------------- other requests

    /** Another request takes or returns a lease of its own; none of them takes an
        origin, which only writers do. */
    method Other(act: Act)
      requires Valid()
      modifies ledger
      ensures Valid()
    {
      ghost var leases := ledger.leases;
      HoldersKnown(writers, coordinator.operations, originByOperation, leases, holder);
      ActOn(act);
      Foreign(writers, coordinator.operations, originByOperation, leases, holder, ledger.leases);
    }

    method ActOn(act: Act)
      requires ledger.Valid() && forall id :: id in holder ==> id in ledger.leases
      modifies ledger
      ensures ledger.Valid() && old(ledger.leases).Keys <= ledger.leases.Keys
      ensures forall id :: id in old(ledger.leases) && id in holder ==> ledger.leases[id] == old(ledger.leases)[id]
      ensures forall id :: OriginOut(ledger.leases, id) ==> OriginOut(old(ledger.leases), id)
      ensures act.Give? ==>
                var gives := act.id !in holder && ReleaseAnswer(old(ledger.leases), act.id, act.expected).Ok?;
                ledger.leases == if gives then Inactive(old(ledger.leases), act.id) else old(ledger.leases)
      ensures act.Take? && act.pool in ANCILLARY && |ActiveIn(old(ledger.leases), act.pool)| < Limit(act.pool) ==>
                ledger.leases.Keys != old(ledger.leases).Keys
      ensures act.Admit? && !PlanFor(act.class_).origin
              && |ActiveIn(old(ledger.leases), PlanFor(act.class_).http)| < Limit(PlanFor(act.class_).http)
              && |ActiveIn(old(ledger.leases),
                           PlanFor(act.class_).validation)| < Limit(PlanFor(act.class_).validation) ==>
                ledger.leases.Keys != old(ledger.leases).Keys
    {
      match act {
        case Admit(c) => if !PlanFor(c).origin { var _ := ledger.TryAcquire(c); }
        case Take(p) => if p in ANCILLARY { var _ := ledger.TryAcquireAncillary(p); }
        case Give(id, expected) => if id !in holder { var _ := ledger.Release(id, expected); }
      }
    }

    // ----------------------------------------------------------------------- a step

    /** Any event of one writer's response. */
    method ResponseMoves(i: nat, answered: bool)
      requires Valid()
      modifies ledger, `writers
      ensures Valid()
      ensures writers == if i in old(writers) then old(writers)[i := Responded(old(writers)[i], answered)]
                         else old(writers)
    {
      if i in writers { Respond(i, answered); }
    }

    function Now(): View
      reads this, ledger, coordinator
    {
      View(writers, coordinator.operations, coordinator.queue, coordinator.current, coordinator.blocked, Admissible())
    }

    method Step(e: Event)
      requires Valid()
      modifies this, ledger, coordinator
      ensures Moves(old(Now()), e, Now())
      ensures Valid() && ToldKept(old(coordinator.operations), coordinator.operations)
    {
      match e {
        case Admission(recognition, s) => var _ := Admit(recognition, s);
        case ValidationReturn(i, v) => ValidationReturns(i, v);
        case Wake(gate, startedThrows, b) => var _ := Drain(gate, startedThrows, b);
        case WorkReturn(r) => WorkReturns(r);
        case ExecutorReturn(throws) => ExecutorReturns(throws);
        case RecoveryReturn(proved, throws) => RecoveryReturns(proved, throws);
        case MaintenanceSettles(cleanups, throws) => var _, _ := SettleReady(cleanups, throws);
        case MaintenanceMarks => MarkWaiting();
        case ResponseEvent(i, answered) => ResponseMoves(i, answered);
        case OtherRequest(act) => Other(act);
      }
    }
  }

  /** The handler's state, as far as its events are concerned; admissible: a writer's
      leases are all to be had. */
  datatype View = View(writers: map<nat, Writer>, operations: seq<Operation>, queue: seq<nat>, current: Option<nat>,
                       blocked: bool, admissible: bool)

  predicate Startable(v: View) {
    !v.blocked && v.current.None? && v.queue != [] && v.queue[0] < |v.operations|
    && v.operations[v.queue[0]].validation.Ready?
  }

  /** Some executor runs, or has ended and was not published yet. */
  predicate Unpublished(v: View) {
    v.current.Some? && v.current.value < |v.operations| && !v.operations[v.current.value].phase.Paused?
  }

  /** What an event makes of the operation it is about, and of its writer. */
  ghost predicate Moves(before: View, e: Event, after: View) {
    match e
    case Admission(recognition, s) => Admits(before, recognition, s, after)
    case ValidationReturn(i, v) =>
      i in before.writers && before.writers[i].validating ==>
        && i in after.writers && i < |before.operations| && i < |after.operations|
        && var op, queued, w := before.operations[i], i in before.queue, before.writers[i];
           && after.operations[i] == AfterValidation(op, queued, w.recognition, v)
           && after.writers[i] ==
              (if Taken(op, queued, w.recognition, v) then w else Responded(w, v.answered)).(validating := false)
    case Wake(gate, startedThrows, b) =>
      Startable(before) && gate.Allows? && !startedThrows ==>
        var i := before.queue[0];
        && i in before.writers && i in after.writers && i < |after.operations|
        && after.writers[i] == Begun(before.writers[i], b)
        && after.operations[i].executor == (if after.writers[i].work.Issued? then Working else Ended(false))
        && after.operations[i].candidate == Settles(before.writers[i].recognition, b)
    case WorkReturn(r) =>
      Unpublished(before) && before.operations[before.current.value].executor.Working? ==>
        var i := before.current.value;
        && i in before.writers && i in after.writers && i < |after.operations|
        && after.writers[i] == BackFromWork(before.writers[i], r)
        && after.operations[i] == Ending(before.writers[i].recognition, r, before.operations[i])
    case ExecutorReturn(_) =>
      Unpublished(before) && before.operations[before.current.value].executor.Ended? ==>
        var i, op := before.current.value, before.operations[before.current.value];
        && i < |after.operations|
        && after.operations[i] == if Verdict(op).None? then op.(phase := Paused) else Told(op, Verdict(op).value)
    case RecoveryReturn(proved, _) =>
      OnHold(before.operations, before.current) ==>
        var i := before.current.value;
        && i < |after.operations|
        && after.operations[i].told == Some(if proved then BusinessResultPersisted else UnknownEffect)
    case MaintenanceSettles(cleanups, throws) =>
      exists stopped, seen ::
        SettlingEnds(before.operations, before.queue, cleanups, throws, stopped, seen, after.operations, after.queue)
    case MaintenanceMarks => after.operations == Marked(before.operations, before.queue)
    case ResponseEvent(i, answered) =>
      after.writers == if i in before.writers then before.writers[i := Responded(before.writers[i], answered)]
                       else before.writers
    case OtherRequest(_) => after == before.(admissible := after.admissible)
  }

  predicate Admits(before: View, recognition: bool, s: Setup, after: View) {
    var i := |before.operations|;
    if before.admissible && !(recognition && s.reserveThrows) && !before.blocked && !s.clocksThrow
       && !s.registeredThrows
    then
      && i in after.writers && i < |after.operations|
      && after.writers[i].recognition == recognition && after.writers[i].recorded == !s.bindThrows
      && after.operations[i] == if after.writers[i].response.Some? then REGISTERED else Dismissed(REGISTERED, true)
    else
      after.writers == before.writers && (!before.admissible ==> after.operations == before.operations)
  }

  /** The states between the events. */
  ghost predicate Follows(trace: seq<View>, events: seq<Event>) {
    |trace| == |events| + 1 && forall k :: 0 <= k < |events| ==> Moves(trace[k], events[k], trace[k + 1])
  }

  /** Everything that can happen to the handler between two awaits. */
  datatype Event =
    | Admission(recognition: bool, setup: Setup)
    | ValidationReturn(operation: nat, validating: Validating)
    | Wake(gate: Gate, startedThrows: bool, beginning: Beginning)
    | WorkReturn(returned: Return)
    | ExecutorReturn(settledThrows: bool)
    | RecoveryReturn(proved: bool, settledThrows: bool)
    | MaintenanceSettles(cleanupThrows: set<nat>, settlesThrow: set<nat>)
    | MaintenanceMarks
    | ResponseEvent(operation: nat, answered: bool)
    | OtherRequest(act: Act)

  // ----------------------------------------------------------------- what it all means

  /** The writers whose origin lease is still out. */
  function Unsettled(writers: map<nat, Writer>, operations: seq<Operation>): set<nat> {
    set i | i in writers && i < |operations| && !GivenBack(writers[i], operations[i])
  }

  /** Every lease of every writer, exactly: http until its response was closed,
      validation until its validation returned, origin until a known outcome was told
      to the handler that had recorded it, hence never again for an unknown outcome, an
      operation stranded untold, or an identity that could not be bound. */
  lemma WriterLeases(writers: map<nat, Writer>, operations: seq<Operation>, origins: map<nat, nat>,
                     leases: map<nat, LeaseState>,
                     holder: map<nat, nat>, i: nat)
    requires Sound(writers, operations, origins, leases, holder) && i in writers
    ensures i < |operations|
    ensures Holds(leases, writers[i].http, HTTP_POOLS, writers[i].response.Some?
                  && writers[i].response.value.state.Open?)
    ensures Holds(leases, writers[i].validation, VALIDATION_POOLS, writers[i].validating)
    ensures Holds(leases, writers[i].origin, {Origin}, !(writers[i].recorded && Known(operations[i].told)))
    ensures Known(operations[i].told) ==> Justified(writers[i].work, operations[i].told.value)
  {
    Each(writers, operations, origins, leases, holder, i);
  }

  /** The origin pool holds one lease for each unsettled writer and no other. */
  lemma OriginPool(writers: map<nat, Writer>, operations: seq<Operation>, origins: map<nat, nat>,
                   leases: map<nat, LeaseState>,
                   holder: map<nat, nat>)
    requires Sound(writers, operations, origins, leases, holder)
    ensures |ActiveIn(leases, Origin)| == |Unsettled(writers, operations)|
  {
    var originOf := OriginOf(writers, operations);
    forall i | i in originOf ensures originOf[i] in holder && holder[originOf[i]] == i
      && originOf[i] in ActiveIn(leases, Origin) {
      Each(writers, operations, origins, leases, holder, i);
    }
    forall id | id in ActiveIn(leases, Origin) ensures id in holder && holder[id] in originOf
      && originOf[holder[id]] == id {
      OutIsUnsettled(writers, operations, origins, leases, holder, id);
    }
    assert ActiveIn(leases, Origin) == originOf.Values;
    assert originOf.Keys == Unsettled(writers, operations);
    OneEach(originOf, holder);
  }

  function OriginOf(writers: map<nat, Writer>, operations: seq<Operation>): map<nat, nat> {
    map i | i in Unsettled(writers, operations) :: writers[i].origin
  }

  lemma OutIsUnsettled(writers: map<nat, Writer>, operations: seq<Operation>, origins: map<nat, nat>,
                       leases: map<nat, LeaseState>,
                       holder: map<nat, nat>, id: nat)
    requires Sound(writers, operations, origins, leases, holder) && OriginOut(leases, id)
    ensures id in holder && holder[id] in Unsettled(writers, operations) && writers[holder[id]].origin == id
  {
    NotYet(writers, operations, origins, leases, holder);
    Each(writers, operations, origins, leases, holder, holder[id]);
  }

  /** As many values as keys, when the values tell the keys. */
  lemma {:induction false} OneEach(f: map<nat, nat>, back: map<nat, nat>)
    requires forall i :: i in f ==> f[i] in back && back[f[i]] == i
    ensures |f.Values| == |f|
  {
    if f != map[] {
      var i :| i in f;
      var rest := f - {i};
      OneEach(rest, back);
      forall v | v in f.Values ensures v in rest.Values + {f[i]} {
        var j :| j in f && f[j] == v;
        assert j != i ==> j in rest && rest[j] == v;
      }
      assert f.Values == rest.Values + {f[i]};
      forall j | j in rest ensures rest[j] != f[i] {
        assert back[f[j]] == j;
      }
      assert f[i] !in rest.Values;
    }
  }

  /** A handler's life over any events: its leases are as WriterLeases says, at most 32
      writers are unsettled, and once an outcome was told as unknown nothing runs or
      waits any more. */
  method Run(events: seq<Event>) returns (h: Handler, ghost trace: seq<View>)
    ensures fresh(h) && h.Valid() && Follows(trace, events) && trace[|events|] == h.Now()
    ensures Sound(h.writers, h.coordinator.operations, h.originByOperation, h.ledger.leases, h.holder)
    ensures |Unsettled(h.writers, h.coordinator.operations)| <= Limit(Origin) == 32
    ensures (exists i :: 0 <= i < |h.coordinator.operations|
                         && h.coordinator.operations[i].told == Some(UnknownEffect)) ==>
              h.coordinator.blocked && h.coordinator.queue == [] && h.coordinator.current.None?
  {
    h, trace := Drive(events);
    OriginPool(h.writers, h.coordinator.operations, h.originByOperation, h.ledger.leases, h.holder);
    assert PoolOk(h.ledger.used, h.ledger.leases, Origin);
  }

  lemma FollowsOn(trace: seq<View>, events: seq<Event>, k: nat, next: View)
    requires k < |events| && Follows(trace, events[..k]) && Moves(trace[k], events[k], next)
    ensures Follows(trace + [next], events[..k + 1]) && (trace + [next])[k + 1] == next
  {
    assert events[..k + 1][..k] == events[..k];
    forall j | 0 <= j <= k ensures Moves((trace + [next])[j], events[..k + 1][j], (trace + [next])[j + 1]) {
      if j < k { assert events[..k][j] == events[j]; }
    }
  }

  method Drive(events: seq<Event>) returns (h: Handler, ghost trace: seq<View>)
    ensures fresh(h) && fresh(h.ledger) && fresh(h.coordinator) && h.Valid()
    ensures Follows(trace, events) && trace[|events|] == h.Now()
  {
    h := new Handler();
    trace := [h.Now()];
    var k := 0;
    while k < |events|
      invariant k <= |events| && FollowsAudit(trace, events, k, h.Now()).Passed?
      invariant fresh(h) && fresh(h.ledger) && fresh(h.coordinator) && h.Valid()
    {
      h.Step(events[k]);
      FollowsOn(trace, events, k, h.Now());
      trace := trace + [h.Now()];
      k := k + 1;
    }
    assert events[..k] == events;
  }

  ghost function FollowsAudit(trace: seq<View>, events: seq<Event>, k: nat, now: View): Audit
    requires k <= |events|
  {
    if Follows(trace, events[..k]) && trace[k] == now then Passed else Flawed
  }
}
