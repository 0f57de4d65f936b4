/** Every use case, from any valid store, leaves a valid store; hence so does
    every run. No internal consistency check fires on the way. */
module StoreSafety {
  import opened Base
  import opened Domain
  import opened Store
  import opened StoreInvariants

  // ------------------------------------------------------------------- the log

  lemma {:induction false} AcceptedOfUnmentioned(events: seq<Event>, id: Uuid)
    requires forall k :: 0 <= k < |events| ==> events[k].qualificationId != Some(id)
    ensures AcceptedOf(events, id) == []
  {
    if events != [] {
      AcceptedOfUnmentioned(events[..|events| - 1], id);
    }
  }

  predicate NewKey(db: Database, e: Event) {
    forall k :: 0 <= k < |db.events| ==> db.events[k].key != e.key && db.events[k].eventId != e.eventId
  }

  lemma AppendKeepsEvents(db: Database, after: Database, e: Event)
    requires EventsSound(db)
    requires after.events == db.events + [e]
    requires db.qualifications.Keys <= after.qualifications.Keys
    requires EventSound(e) && NewKey(db, e)
    requires e.qualificationId.Some? ==> e.qualificationId.value in after.qualifications
    ensures EventsSound(after)
  {
  }

  // -------------------------------------------------------- one changed document

  /** One qualification is written or inserted, under a digest no other holds. */
  ghost predicate FreshDigest(qs: map<Uuid, Qualification>, id: Uuid, digest: Uuid) {
    forall a :: a in qs && a != id ==> qs[a].qrLookupDigest != digest
  }

  lemma WriteKeepsSound(qs: map<Uuid, Qualification>, id: Uuid, q: Qualification)
    requires QualificationsSound(qs) && QualificationSound(q) && FreshDigest(qs, id, q.qrLookupDigest)
    ensures QualificationsSound(qs[id := q])
  {
  }

  /** One qualification is written and nothing is logged. */
  lemma WriteKeepsValid(db: Database, after: Database, id: Uuid, q: Qualification)
    requires Valid(db) && SlotsValid(after)
    requires after.qualifications == db.qualifications[id := q]
    requires QualificationSound(q) && FreshDigest(db.qualifications, id, q.qrLookupDigest)
    requires after.events == db.events
    requires AcceptedOf(db.events, id) == HistoryOf(q.state)
    ensures Valid(after)
  {
    WriteKeepsSound(db.qualifications, id, q);
    assert EventsSound(after);
    assert LogDetermines(after);
  }

  /** What logging event e did to the qualifications: only e's own moved, and it
      moved by exactly what the event records. */
  ghost predicate MovedBy(before: map<Uuid, Qualification>, after: map<Uuid, Qualification>, e: Event) {
    && after.Keys == before.Keys
    && (forall a :: a in before && e.qualificationId != Some(a) ==> after[a] == before[a])
    && (e.qualificationId.None? ==> e.outcome.Rejected?)
    && (forall id :: id in before && e.qualificationId == Some(id) && before[id].state.Valid() ==>
          && QualificationSound(after[id])
          && after[id].qrLookupDigest == before[id].qrLookupDigest
          && HistoryOf(after[id].state) == HistoryOf(before[id].state)
               + (if e.outcome.Accepted? then [(e.reason, e.receivedAt)] else []))
  }

  lemma MoveKeepsSound(before: map<Uuid, Qualification>, after: map<Uuid, Qualification>, e: Event)
    requires QualificationsSound(before) && MovedBy(before, after, e)
    ensures QualificationsSound(after)
  {
    assert forall id :: id in before ==> QualificationSound(after[id])
                                         && after[id].qrLookupDigest == before[id].qrLookupDigest;
  }

  lemma MoveKeepsLog(db: Database, after: Database, e: Event)
    requires QualificationsSound(db.qualifications) && LogDetermines(db)
    requires MovedBy(db.qualifications, after.qualifications, e)
    requires after.events == db.events + [e]
    ensures LogDetermines(after)
  {
  }

  /** One event is logged and at most its own qualification is written. */
  lemma LogKeepsValid(db: Database, after: Database, e: Event)
    requires Valid(db) && SlotsValid(after)
    requires after.events == db.events + [e]
    requires EventSound(e) && NewKey(db, e)
    requires e.qualificationId.Some? ==> e.qualificationId.value in db.qualifications
    requires MovedBy(db.qualifications, after.qualifications, e)
    ensures Valid(after)
  {
    AppendKeepsEvents(db, after, e);
    MoveKeepsSound(db.qualifications, after.qualifications, e);
    MoveKeepsLog(db, after, e);
  }

  /** A rewritten qualification that stays live keeps every slot's owner live. */
  lemma OwnersSurviveLiveWrite(slots: Slots, qs: map<Uuid, Qualification>, id: Uuid, q: Qualification)
    requires OwnersLive(slots, qs)
    requires id in qs ==> qs[id].incarnation == q.incarnation
    requires !q.state.Terminal()
    ensures OwnersLive(slots, qs[id := q])
  {
  }

  /** Releasing first lets the qualification become anything. */
  lemma OwnersSurviveRelease(slots: Slots, qs: map<Uuid, Qualification>, id: Uuid, q: Qualification)
    requires SlotsUnique(slots) && OwnersLive(slots, qs)
    requires id in qs && qs[id].incarnation == q.incarnation
    ensures ReleaseFace(slots, id, q.incarnation).Ok?
    ensures var r := ReleaseFace(slots, id, q.incarnation).value;
            && SlotsUnique(r) && r.Keys == slots.Keys && |r| == |slots|
            && OwnersLive(r, qs[id := q])
            && (forall i :: !OwnedBy(r, i, id))
  {
    ReleaseFrees(slots, id, q.incarnation);
    var r := ReleaseFace(slots, id, q.incarnation).value;
    assert |r| == |r.Keys| && |slots| == |slots.Keys|;
    assert forall i, k :: OwnedBy(r, i, k) ==> OwnedBy(slots, i, k);
  }

  lemma OwnersSurviveBind(db: Database, qs: map<Uuid, Qualification>, owner: Owner, face: Face, env: Env)
    requires SlotsUnique(db.slots) && |db.slots| == db.metadata.slotCount <= FACE_SLOT_CAPACITY
    requires OwnersLive(db.slots, qs)
    requires forall j :: !OwnedBy(db.slots, j, owner.qualificationId)
    requires owner.qualificationId in qs && qs[owner.qualificationId].incarnation == owner.incarnation
    requires !qs[owner.qualificationId].state.Terminal()
    ensures var r := BindFace(db, owner, face, env);
            && (r.Err? ==> !Internal(r.error))
            && (r.Ok? ==>
                  && SlotsUnique(r.value.slots)
                  && |r.value.slots| == r.value.slotCount <= FACE_SLOT_CAPACITY
                  && OwnersLive(r.value.slots, qs))
  {
    if BindFace(db, owner, face, env).Ok? {
      var i := BindKeeps(db, owner, face, env);
    }
  }

  // ---------------------------------------------------------------- management

  lemma CreateKeepsSlots(db: Database, plan: ManagementPlan, env: Env)
    requires Valid(db) && plan.CreatePlan? && CreateStep(db, plan, env).Ok?
    ensures SlotsValid(CreateStep(db, plan, env).value)
  {
    var after := CreateStep(db, plan, env).value;
    var id := env.qualificationId;
    var q := after.qualifications[id];
    assert forall i :: !OwnedBy(db.slots, i, id);
    OwnersSurviveLiveWrite(db.slots, db.qualifications, id, q);
    if plan.face.Some? {
      var inserted := BumpQr(db.(qualifications := db.qualifications[id := q]));
      OwnersSurviveBind(inserted, inserted.qualifications, Owner(id, env.incarnation), plan.face.value, env);
    }
  }

  lemma CreatedShape(db: Database, plan: ManagementPlan, env: Env)
    requires plan.CreatePlan? && CreateStep(db, plan, env).Ok?
    requires IsInstant(plan.validFrom) && IsInstant(plan.validUntil) && plan.validFrom < plan.validUntil
    ensures var after, id := CreateStep(db, plan, env).value, env.qualificationId;
            && id !in db.qualifications && id in after.qualifications
            && after.qualifications == db.qualifications[id := after.qualifications[id]] && after.events == db.events
            && QualificationSound(after.qualifications[id]) && HistoryOf(after.qualifications[id].state) == []
            && FreshDigest(db.qualifications, id, after.qualifications[id].qrLookupDigest)
  {
  }

  /** CREATE, with or without a face, leaves a valid store. */
  lemma CreateKeepsValid(db: Database, plan: ManagementPlan, env: Env)
    requires Valid(db) && plan.CreatePlan? && CreateStep(db, plan, env).Ok?
    requires IsInstant(plan.validFrom) && IsInstant(plan.validUntil) && plan.validFrom < plan.validUntil
    ensures Valid(CreateStep(db, plan, env).value)
  {
    var after, id := CreateStep(db, plan, env).value, env.qualificationId;
    CreatedShape(db, plan, env);
    AcceptedOfUnmentioned(db.events, id);
    CreateKeepsSlots(db, plan, env);
    WriteKeepsValid(db, after, id, after.qualifications[id]);
  }

  /** The tail shared by REVOKE and EXPIRE. */
  lemma ReleaseStepKeeps(db: Database, p: Provenance, q: Qualification, touched: Database, env: Env)
    requires SlotsValid(db) && Current(db, p).Ok?
    requires q.incarnation == p.incarnation
    requires touched == db.(qualifications := db.qualifications[p.qualificationId := q])
    ensures ReleaseStep(touched, p, env).Ok? <==> db.metadata.datasetEpoch == env.epoch
    ensures ReleaseStep(touched, p, env).Err? ==> ReleaseStep(touched, p, env).error.EpochMismatch?
    ensures ReleaseStep(touched, p, env).Ok? ==>
              var after := ReleaseStep(touched, p, env).value;
              && SlotsValid(after)
              && after.qualifications == touched.qualifications && after.events == db.events
              && forall i :: !OwnedBy(after.slots, i, p.qualificationId)
  {
    OwnersSurviveRelease(db.slots, db.qualifications, p.qualificationId, q);
  }

  lemma RevokeKeepsValid(db: Database, p: Provenance, reason: string, receivedAt: int, env: Env)
    requires Valid(db) && IsInstant(receivedAt)
    requires RevokeStep(db, p, reason, receivedAt, env).Ok?
    requires DecideMutable(db.qualifications[p.qualificationId].state, receivedAt) == Ok(Allowed)
    ensures Valid(RevokeStep(db, p, reason, receivedAt, env).value)
  {
    var after := RevokeStep(db, p, reason, receivedAt, env).value;
    var id := p.qualificationId;
    var before := db.qualifications[id];
    var q := Touch(db, id, before.(state := before.state.(revokedAt := Some(receivedAt),
                                                          revocationReason := Some(reason))), env.now)
             .qualifications[id];
    ReleaseStepKeeps(db, p, q, db.(qualifications := db.qualifications[id := q]), env);
    WriteKeepsValid(db, after, id, q);
  }

  lemma ExpireKeepsValid(db: Database, p: Provenance, receivedAt: int, env: Env)
    requires Valid(db) && IsInstant(receivedAt)
    requires ExpireStep(db, p, receivedAt, env).Ok?
    ensures Valid(ExpireStep(db, p, receivedAt, env).value)
  {
    var after := ExpireStep(db, p, receivedAt, env).value;
    var id := p.qualificationId;
    var before := db.qualifications[id];
    var q := Touch(db, id, before.(state := before.state.(expiredTerminalAt := Some(receivedAt))),
                   env.now).qualifications[id];
    ReleaseStepKeeps(db, p, q, db.(qualifications := db.qualifications[id := q]), env);
    WriteKeepsValid(db, after, id, q);
  }

  /** Rebinding keeps the slots valid and reports no internal failure. */
  lemma RebindKeeps(db: Database, p: Provenance, mode: MappingMode, env: Env)
    requires SlotsValid(db) && Current(db, p).Ok? && !Current(db, p).value.state.Terminal()
    ensures var r := RebindStep(db, p, mode, env);
            && (r.Err? ==> !Internal(r.error))
            && (r.Ok? ==>
                  && SlotsUnique(r.value.slots)
                  && |r.value.slots| == r.value.slotCount <= FACE_SLOT_CAPACITY
                  && OwnersLive(r.value.slots, db.qualifications))
  {
    var id := p.qualificationId;
    var q := db.qualifications[id];
    OwnersSurviveRelease(db.slots, db.qualifications, id, q);
    assert db.qualifications[id := q] == db.qualifications;
    var slots := ReleaseFace(db.slots, id, p.incarnation).value;
    if mode.SetMapping? {
      var released := db.(slots := slots);
      OwnersSurviveBind(released, db.qualifications, Owner(id, p.incarnation), mode.face, env);
    }
  }

  /** Replacing an existing mapping never fails on capacity: the released slot is
      free again. It fails only if another qualification holds the face. */
  lemma ReplacingNeverExhausts(db: Database, p: Provenance, face: Face, env: Env)
    requires SlotsUnique(db.slots)
    requires exists i :: OwnedBy(db.slots, i, p.qualificationId)
    requires forall i :: OwnedBy(db.slots, i, p.qualificationId) ==>
                           db.slots[i].owner.value.incarnation == p.incarnation
    ensures var r := RebindStep(db, p, SetMapping(face), env);
            && (r.Ok? <==> !exists j :: BoundFace(db.slots, j, face) && !OwnedBy(db.slots, j, p.qualificationId))
            && (r.Err? ==> r.error.FaceSubjectAlreadyBound?)
  {
    ReleaseFrees(db.slots, p.qualificationId, p.incarnation);
    var slots := ReleaseFace(db.slots, p.qualificationId, p.incarnation).value;
    var i :| OwnedBy(db.slots, i, p.qualificationId);
    assert Empty(slots, i);
    var claimed := EmptySlotFor(slots, face, env.pick).value;
    assert Empty(slots, claimed);
    if exists j :: BoundFace(db.slots, j, face) && !OwnedBy(db.slots, j, p.qualificationId) {
      var j :| BoundFace(db.slots, j, face) && !OwnedBy(db.slots, j, p.qualificationId);
      assert BoundFace(slots, j, face) && j != claimed;
      assert SubjectTakenElsewhere(slots, claimed, face);
    } else {
      OwnFaceIsClaimed(db.slots, slots, p, face, claimed, env);
    }
  }

  /** A face nobody else has is claimed where it is recorded, if it is recorded. */
  lemma OwnFaceIsClaimed(before: Slots, slots: Slots, p: Provenance, face: Face, claimed: Uuid, env: Env)
    requires SlotsUnique(before) && ReleaseFace(before, p.qualificationId, p.incarnation) == Ok(slots)
    requires forall i :: OwnedBy(before, i, p.qualificationId) ==> before[i].owner.value.incarnation == p.incarnation
    requires EmptySlotFor(slots, face, env.pick) == Some(claimed)
    requires forall j :: BoundFace(before, j, face) ==> OwnedBy(before, j, p.qualificationId)
    ensures forall j :: j in slots && slots[j].face == face ==> j == claimed
  {
    ReleaseFrees(before, p.qualificationId, p.incarnation);
    forall j | j in slots && slots[j].face == face ensures j == claimed {
      assert before[j].face == face;
      assert !BoundFace(before, j, face) || OwnedBy(before, j, p.qualificationId);
      assert Empty(slots, j) && slots[j].face == face;
    }
  }

  lemma UpdateKeepsValid(db: Database, plan: ManagementPlan, receivedAt: int, env: Env)
    requires Valid(db) && plan.UpdatePlan? && UpdateStep(db, plan, env).Ok?
    requires DecideUpdate(db.qualifications[plan.expected.qualificationId].state, plan.validFrom, plan.validUntil,
                          receivedAt) == Ok(Allowed)
    ensures Valid(UpdateStep(db, plan, env).value)
  {
    var after := UpdateStep(db, plan, env).value;
    var p := plan.expected;
    var id := p.qualificationId;
    var q := after.qualifications[id];
    var slots := after.slots;
    if MappingChanges(db.slots, id, plan.mode) {
      RebindKeeps(db, p, plan.mode, env);
    }
    OwnersSurviveLiveWrite(slots, db.qualifications, id, q);
    WriteKeepsValid(db, after, id, q);
  }
}
