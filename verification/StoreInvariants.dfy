/** What every reachable store satisfies, and that every use case keeps it. */
module StoreInvariants {
  import opened Base
  import opened Domain
  import opened Store

  // ---------------------------------------------------------------- the pieces

  ghost predicate SlotsUnique(slots: Slots) {
    && (forall i, j :: i in slots && j in slots && slots[i].face == slots[j].face ==> i == j)
    && (forall i, j, id :: OwnedBy(slots, i, id) && OwnedBy(slots, j, id) ==> i == j)
  }

  /** A bound slot names an existing, same-incarnation, not terminal qualification. */
  ghost predicate OwnersLive(slots: Slots, qualifications: map<Uuid, Qualification>) {
    forall i :: i in slots && slots[i].owner.Some? ==>
      var o := slots[i].owner.value;
      && o.qualificationId in qualifications
      && qualifications[o.qualificationId].incarnation == o.incarnation
      && !qualifications[o.qualificationId].state.Terminal()
  }

  /** The entry time lies in the window still stored. */
  predicate QualificationSound(q: Qualification) {
    && q.state.Valid()
    && (!q.state.presence.NotEntered? ==> q.state.validFrom <= q.state.enteredAt.value < q.state.validUntil)
  }

  ghost predicate QualificationsSound(qualifications: map<Uuid, Qualification>) {
    && (forall id :: id in qualifications ==> QualificationSound(qualifications[id]))
    && (forall a, b | a in qualifications && b in qualifications ::
          qualifications[a].qrLookupDigest == qualifications[b].qrLookupDigest ==> a == b)
  }

  /** assertPersistedEventInvariant: the fixed reason, direction and transition matrix. */
  predicate EventSound(e: Event) {
    match e.reason
    case EntryGranted =>
      && e.outcome.Accepted? && e.direction.Entry? && e.qualificationId.Some?
      && e.transition == Some(Transition(NotEntered, Inside))
    case ExitRecorded =>
      && e.outcome.Accepted? && e.direction.Exit? && e.qualificationId.Some?
      && e.transition == Some(Transition(Inside, Exited))
    case SourceInactive => e.outcome.Rejected? && e.transition.None? && e.qualificationId.None?
    case InvalidQrCredential => e.outcome.Rejected? && e.transition.None? && e.qualificationId.None?
    case FaceIsUnknown => e.outcome.Rejected? && e.transition.None? && e.qualificationId.None?
    case FaceSubjectNotMapped => e.outcome.Rejected? && e.transition.None? && e.qualificationId.None?
    case NotInside => e.outcome.Rejected? && e.transition.None? && e.qualificationId.Some? && e.direction.Exit?
    case AlreadyExited => e.outcome.Rejected? && e.transition.None? && e.qualificationId.Some? && e.direction.Exit?
    case _ => e.outcome.Rejected? && e.transition.None? && e.qualificationId.Some? && e.direction.Entry?
  }

  ghost predicate EventsSound(db: Database) {
    && (forall k :: 0 <= k < |db.events| ==> EventSound(db.events[k]))
    && (forall k :: 0 <= k < |db.events| && db.events[k].qualificationId.Some? ==>
          db.events[k].qualificationId.value in db.qualifications)
    && (forall j, k :: 0 <= j < k < |db.events| ==>
          db.events[j].key != db.events[k].key && db.events[j].eventId != db.events[k].eventId)
  }

  /** The reasons and times of the accepted events of one qualification, in commit order. */
  function AcceptedOf(events: seq<Event>, id: Uuid): seq<(Reason, int)> {
    if events == [] then []
    else
      var e := events[|events| - 1];
      AcceptedOf(events[..|events| - 1], id)
      + (if e.outcome.Accepted? && e.qualificationId == Some(id) then [(e.reason, e.receivedAt)] else [])
  }

  /** The one history a qualification's own fields allow: at most one entry, then
      at most one exit, at exactly the stored times. */
  function HistoryOf(s: QualificationState): seq<(Reason, int)>
    requires s.Valid()
  {
    match s.presence
    case NotEntered => []
    case Inside => [(EntryGranted, s.enteredAt.value)]
    case Exited => [(EntryGranted, s.enteredAt.value), (ExitRecorded, s.exitedAt.value)]
  }

  ghost predicate LogDetermines(db: Database) {
    forall id :: id in db.qualifications && db.qualifications[id].state.Valid() ==>
      AcceptedOf(db.events, id) == HistoryOf(db.qualifications[id].state)
  }

  ghost predicate SlotsValid(db: Database) {
    && SlotsUnique(db.slots)
    && OwnersLive(db.slots, db.qualifications)
    && |db.slots| == db.metadata.slotCount <= FACE_SLOT_CAPACITY
  }

  ghost predicate Valid(db: Database) {
    && SlotsValid(db)
    && QualificationsSound(db.qualifications)
    && EventsSound(db)
    && LogDetermines(db)
  }

  // ---------------------------------------------------------------- face slots

  /** With unique owners the multiple-mapping check is dead and the query finds
      exactly the slot owned by the qualification. */
  lemma CurrentSlotFinds(slots: Slots, id: Uuid)
    requires SlotsUnique(slots)
    ensures CurrentSlot(slots, id).Ok?
    ensures CurrentSlot(slots, id).value.Some? ==> OwnedBy(slots, CurrentSlot(slots, id).value.value, id)
    ensures CurrentSlot(slots, id).value.None? ==> forall i :: !OwnedBy(slots, i, id)
    ensures forall i :: OwnedBy(slots, i, id) ==> CurrentSlot(slots, id) == Ok(Some(i))
  {
  }

  /** Releasing succeeds, frees exactly the owned slot and touches no other. */
  lemma ReleaseFrees(slots: Slots, id: Uuid, incarnation: Uuid)
    requires SlotsUnique(slots)
    requires forall i :: OwnedBy(slots, i, id) ==> slots[i].owner.value.incarnation == incarnation
    ensures ReleaseFace(slots, id, incarnation).Ok?
    ensures var r := ReleaseFace(slots, id, incarnation).value;
            && SlotsUnique(r)
            && r.Keys == slots.Keys
            && (forall i :: !OwnedBy(r, i, id))
            && (forall i :: i in slots && !OwnedBy(slots, i, id) ==> r[i] == slots[i])
            && (forall i :: OwnedBy(slots, i, id) ==> Empty(r, i) && r[i].face == slots[i].face)
  {
    CurrentSlotFinds(slots, id);
    var r := ReleaseFace(slots, id, incarnation).value;
    assert forall i :: i in r ==> r[i].face == slots[i].face;
    assert forall i, k :: OwnedBy(r, i, k) ==> OwnedBy(slots, i, k);
  }

  /** In a valid store, binding a subject that is not owned by anyone else: it is
      ALREADY_BOUND iff some bound slot holds the subject, otherwise
      CAPACITY_EXHAUSTED iff all 4096 slots exist and none is empty, otherwise it
      succeeds (generated slot ids being fresh). */
  lemma BindOutcome(db: Database, owner: Owner, face: Face, env: Env)
    requires SlotsUnique(db.slots)
    requires |db.slots| == db.metadata.slotCount
    requires forall i :: !OwnedBy(db.slots, i, owner.qualificationId)
    requires env.slotId !in db.slots
    requires db.metadata.datasetEpoch == env.epoch
    ensures BindFace(db, owner, face, env) == Err(FaceSubjectAlreadyBound) <==>
              exists i :: BoundFace(db.slots, i, face)
    ensures BindFace(db, owner, face, env) == Err(FaceSlotCapacityExhausted) <==>
              && !(exists i :: BoundFace(db.slots, i, face))
              && |db.slots| >= FACE_SLOT_CAPACITY
              && !(exists i :: Empty(db.slots, i))
    ensures BindFace(db, owner, face, env).Ok? <==>
              && !(exists i :: BoundFace(db.slots, i, face))
              && (|db.slots| < FACE_SLOT_CAPACITY || exists i :: Empty(db.slots, i))
  {
    var slots := db.slots;
    var claimed := EmptySlotFor(slots, face, env.pick);
    if exists i :: BoundFace(slots, i, face) {
      var i :| BoundFace(slots, i, face);
      assert !Empty(slots, i);
      if claimed.Some? {
        assert Empty(slots, claimed.value);
        assert SubjectTakenElsewhere(slots, claimed.value, face);
      } else {
        assert SubjectTakenElsewhere(slots, env.slotId, face);
      }
    } else {
      forall j | j in slots && slots[j].face == face ensures Empty(slots, j) {
        assert !BoundFace(slots, j, face);
      }
      assert claimed.Some? ==> Empty(slots, claimed.value);
    }
  }

  /** A successful bind claims one slot i, empty or new, for the owner and
      disturbs no other slot. */
  lemma BindKeeps(db: Database, owner: Owner, face: Face, env: Env) returns (i: Uuid)
    requires SlotsUnique(db.slots) && |db.slots| == db.metadata.slotCount <= FACE_SLOT_CAPACITY
    requires forall j :: !OwnedBy(db.slots, j, owner.qualificationId)
    requires BindFace(db, owner, face, env).Ok?
    ensures i in db.slots ==> Empty(db.slots, i)
    ensures var b := BindFace(db, owner, face, env).value;
            && SlotsUnique(b.slots)
            && |b.slots| == b.slotCount <= FACE_SLOT_CAPACITY
            && i in b.slots && b.slots[i].face == face && b.slots[i].owner == Some(owner)
            && b.slots == db.slots[i := b.slots[i]]
  {
    i := BindShape(db, owner, face, env);
    var b := BindFace(db, owner, face, env).value;
    PutOwnerKeepsUnique(db.slots, i, b.slots[i]);
    assert b.slots.Keys == db.slots.Keys + {i};
    if i in db.slots {
      assert b.slots.Keys == db.slots.Keys;
    }
  }

  /** The one slot a successful bind writes, and the checks it passed. */
  lemma BindShape(db: Database, owner: Owner, face: Face, env: Env) returns (i: Uuid)
    requires BindFace(db, owner, face, env).Ok?
    ensures i in db.slots ==> Empty(db.slots, i)
    ensures !SubjectTakenElsewhere(db.slots, i, face)
    ensures var b := BindFace(db, owner, face, env).value;
            && i in b.slots && b.slots[i].face == face && b.slots[i].owner == Some(owner)
            && b.slots == db.slots[i := b.slots[i]]
            && b.slotCount == db.metadata.slotCount + (if i in db.slots then 0 else 1)
            && (i !in db.slots ==> db.metadata.slotCount < FACE_SLOT_CAPACITY)
  {
    var claimed := EmptySlotFor(db.slots, face, env.pick);
    assert claimed.Some? ==> Empty(db.slots, claimed.value);
    i := if claimed.Some? then claimed.value else env.slotId;
  }

  lemma PutOwnerKeepsUnique(slots: Slots, i: Uuid, slot: Slot)
    requires SlotsUnique(slots)
    requires slot.owner.Some? && !SubjectTakenElsewhere(slots, i, slot.face)
    requires forall j :: !OwnedBy(slots, j, slot.owner.value.qualificationId)
    ensures SlotsUnique(slots[i := slot])
  {
    var r := slots[i := slot];
    assert forall j :: j in slots && j != i ==> slots[j].face != slot.face;
    assert forall j, id :: j != i && OwnedBy(r, j, id) ==> OwnedBy(slots, j, id);
  }
}
