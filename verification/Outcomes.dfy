/** What each use case leaves behind when it succeeds, field by field, and exactly
    when it succeeds. */
module Outcomes {
  import opened Base
  import opened Domain
  import opened Store
  import opened UseCases
  import opened StoreInvariants
  import opened StoreSafety
  import opened Reachable
  import opened Effects
  import opened Histories

  // ---------------------------------------------------------------------- slots

  /** Exactly the slot of that qualification was emptied; it keeps its subject. */
  ghost predicate Frees(before: Slots, after: Slots, id: Uuid) {
    && after.Keys == before.Keys
    && forall i :: i in before ==>
         after[i] == if OwnedBy(before, i, id) then before[i].(owner := None, version := before[i].version + 1)
                     else before[i]
  }

  /** One slot, empty or new, took the face for its owner; no other changed. */
  ghost predicate Gains(before: Slots, after: Slots, i: Uuid, owner: Owner, face: Face, env: Env) {
    if i in before then
      Empty(before, i)
      && after == before[i := before[i].(face := face, owner := Some(owner), version := before[i].version + 1)]
    else i == env.slotId && after == before[i := Slot(face, Some(owner), env.slotIncarnation, 0)]
  }

  /** Whether the mapping is written: a given face that is bound already is not, a
      removal is, even of nothing. */
  ghost predicate Rewrites(slots: Slots, id: Uuid, field: FaceField) {
    match field
    case FaceOmitted => false
    case FaceNull => true
    case FaceGiven(face) => forall i :: OwnedBy(slots, i, id) ==> slots[i].face != face
  }

  /** What an UPDATE makes of the mapping: left alone, removed, or set. */
  ghost predicate Remapped(before: Slots, after: Slots, owner: Owner, field: FaceField, env: Env) {
    match field
    case FaceOmitted => after == before
    case FaceNull => Frees(before, after, owner.qualificationId)
    case FaceGiven(face) =>
      if !Rewrites(before, owner.qualificationId, field) then after == before
      else exists mid, i :: Frees(before, mid, owner.qualificationId) && Gains(mid, after, i, owner, face, env)
  }

  lemma ReleaseIsFrees(slots: Slots, id: Uuid, incarnation: Uuid)
    requires SlotsUnique(slots)
    requires forall i :: OwnedBy(slots, i, id) ==> slots[i].owner.value.incarnation == incarnation
    ensures ReleaseFace(slots, id, incarnation).Ok?
    ensures Frees(slots, ReleaseFace(slots, id, incarnation).value, id)
  {
    CurrentSlotFinds(slots, id);
  }

  /** Who owns a face afterwards: nobody else's slot is affected; none is owned after a
      removal, and after setting a face exactly one slot, which carries that face. */
  ghost predicate OwnsAsAsked(before: Slots, after: Slots, id: Uuid, field: FaceField) {
    && (forall i, k :: k != id ==> (OwnedBy(after, i, k) <==> OwnedBy(before, i, k)))
    && match field
       case FaceOmitted => forall i :: OwnedBy(after, i, id) <==> OwnedBy(before, i, id)
       case FaceNull => forall i :: !OwnedBy(after, i, id)
       case FaceGiven(face) =>
         exists i :: OwnedBy(after, i, id) && after[i].face == face && forall j :: OwnedBy(after, j, id) ==> j == i
  }

  lemma FreedOwns(before: Slots, after: Slots, id: Uuid)
    requires Frees(before, after, id)
    ensures forall i :: !OwnedBy(after, i, id)
    ensures forall i, k :: k != id ==> (OwnedBy(after, i, k) <==> OwnedBy(before, i, k))
  {
  }

  lemma GainedOwns(before: Slots, after: Slots, i: Uuid, owner: Owner, face: Face, env: Env)
    requires Gains(before, after, i, owner, face, env) && forall j :: !OwnedBy(before, j, owner.qualificationId)
    ensures OwnedBy(after, i, owner.qualificationId) && after[i].face == face
    ensures forall j :: OwnedBy(after, j, owner.qualificationId) ==> j == i
    ensures forall j, k :: k != owner.qualificationId ==> (OwnedBy(after, j, k) <==> OwnedBy(before, j, k))
  {
    forall j | j != i ensures j in after <==> j in before ensures j in before ==> after[j] == before[j] {
    }
    forall j | OwnedBy(after, j, owner.qualificationId) ensures j == i {
      assert j != i ==> OwnedBy(before, j, owner.qualificationId);
    }
  }

  lemma RemappedOwns(before: Slots, after: Slots, owner: Owner, field: FaceField, env: Env)
    requires SlotsUnique(before) && Remapped(before, after, owner, field, env)
    ensures OwnsAsAsked(before, after, owner.qualificationId, field)
  {
    var id := owner.qualificationId;
    if field.FaceNull? { FreedOwns(before, after, id); }
    if field.FaceGiven? {
      if Rewrites(before, id, field) {
        var mid, i :| Frees(before, mid, id) && Gains(mid, after, i, owner, field.face, env);
        FreedOwns(before, mid, id);
        GainedOwns(mid, after, i, owner, field.face, env);
      } else {
        var i :| OwnedBy(before, i, id) && before[i].face == field.face;
      }
    }
  }

  lemma BindIsGains(db: Database, owner: Owner, face: Face, env: Env) returns (i: Uuid)
    requires BindFace(db, owner, face, env).Ok?
    ensures Gains(db.slots, BindFace(db, owner, face, env).value.slots, i, owner, face, env)
  {
    var claimed := EmptySlotFor(db.slots, face, env.pick);
    i := if claimed.Some? then claimed.value else env.slotId;
    if claimed.Some? { assert Empty(db.slots, i); }
  }

  // --------------------------------------------------------------------- CREATE

  /** The document CREATE inserts. */
  function Created(c: Command, env: Env): Qualification
    requires c.Create?
  {
    Qualification(env.incarnation, 0, c.displayName,
                  QualificationState(c.validFrom, c.validUntil, NotEntered, None, None, None, None, None),
                  env.qrLookupDigest, env.now, env.now)
  }

  /** The store before CREATE binds the face. */
  function Inserted(db: Database, c: Command, env: Env): (after: Database)
    requires c.Create?
    ensures after.slots == db.slots
  {
    BumpQr(db.(qualifications := db.qualifications[env.qualificationId := Created(c, env)]))
  }

  /** The new document with the given name and window; a given face bound to it; the
      raised guards; and nothing else changed. */
  ghost predicate CreateDone(db: Database, after: Database, c: Command, env: Env)
    requires c.Create?
  {
    && env.qualificationId !in db.qualifications
    && after.qualifications == db.qualifications[env.qualificationId := Created(c, env)]
    && after.events == db.events && after.sources == db.sources
    && after.metadata == db.metadata.(
         qrGuard := db.metadata.qrGuard + 1,
         faceGuard := db.metadata.faceGuard + (if c.face.Some? then 1 else 0),
         slotCount := |after.slots|)
    && match c.face
       case None => after.slots == db.slots
       case Some(face) =>
         exists i :: Gains(db.slots, after.slots, i, Owner(env.qualificationId, env.incarnation), face, env)
  }

  lemma CreateLeaves(db: Database, c: Command, env: Env)
    requires c.Create? && Run(db, c, env).Ok?
    ensures Run(db, c, env).value.1 == Changed
    ensures c.displayName != "" && c.validFrom < c.validUntil && c.receivedAt < c.validUntil
    ensures CreateDone(db, Run(db, c, env).value.0, c, env)
  {
    CreateStepLeaves(db, c, env);
  }

  lemma CreateStepLeaves(db: Database, c: Command, env: Env)
    requires c.Create? && CreateStep(db, CreatePlan(c.displayName, c.validFrom, c.validUntil, c.face), env).Ok?
    ensures CreateDone(db, CreateStep(db, CreatePlan(c.displayName, c.validFrom, c.validUntil, c.face), env).value, c,
                       env)
  {
    if c.face.Some? {
      var i := BindIsGains(Inserted(db, c, env), Owner(env.qualificationId, env.incarnation), c.face.value, env);
    }
  }

  // --------------------------------------------------------------------- UPDATE

  /** The document UPDATE writes: the given fields, or else the old ones. */
  function Updated(q: Qualification, c: Command, now: int): Qualification
    requires c.Update?
  {
    q.(displayName := if c.name.Some? then c.name.value else q.displayName,
       state := q.state.(validFrom := if c.from.Some? then c.from.value else q.state.validFrom,
                         validUntil := if c.until.Some? then c.until.value else q.state.validUntil),
       version := q.version + 1,
       updatedAt := now)
  }

  lemma RebindLeaves(db: Database, p: Provenance, field: FaceField, env: Env)
    requires SlotsUnique(db.slots) && Rewrites(db.slots, p.qualificationId, field)
    requires forall i :: OwnedBy(db.slots, i, p.qualificationId) ==>
                           db.slots[i].owner.value.incarnation == p.incarnation
    requires RebindStep(db, p, ModeOf(field), env).Ok?
    ensures Remapped(db.slots, RebindStep(db, p, ModeOf(field), env).value.slots,
                     Owner(p.qualificationId, p.incarnation), field, env)
  {
    ReleaseIsFrees(db.slots, p.qualificationId, p.incarnation);
    var freed := ReleaseFace(db.slots, p.qualificationId, p.incarnation).value;
    if field.FaceGiven? {
      var i := BindIsGains(db.(slots := freed), Owner(p.qualificationId, p.incarnation), field.face, env);
    }
  }

  /** What UPDATE wrote, apart from the slots. */
  ghost predicate UpdateWrote(db: Database, after: Database, plan: ManagementPlan, env: Env)
    requires plan.UpdatePlan?
  {
    var id := plan.expected.qualificationId;
    && id in db.qualifications
    && after.qualifications == db.qualifications[id := db.qualifications[id].(
         displayName := plan.displayName,
         state := db.qualifications[id].state.(validFrom := plan.validFrom, validUntil := plan.validUntil),
         version := db.qualifications[id].version + 1,
         updatedAt := env.now)]
    && after.events == db.events && after.sources == db.sources
    && after.metadata == db.metadata.(
         faceGuard := db.metadata.faceGuard + (if MappingChanges(db.slots, id, plan.mode) then 1 else 0),
         slotCount := |after.slots|)
  }

  lemma UpdateStepWrites(db: Database, plan: ManagementPlan, env: Env)
    requires plan.UpdatePlan? && UpdateStep(db, plan, env).Ok?
    ensures Current(db, plan.expected).Ok? && UpdateWrote(db, UpdateStep(db, plan, env).value, plan, env)
  {
  }

  lemma UpdateStepSlots(db: Database, plan: ManagementPlan, env: Env)
    requires plan.UpdatePlan? && UpdateStep(db, plan, env).Ok?
    ensures if MappingChanges(db.slots, plan.expected.qualificationId, plan.mode)
            then RebindStep(db, plan.expected, plan.mode, env).Ok?
                 && UpdateStep(db, plan, env).value.slots == RebindStep(db, plan.expected, plan.mode, env).value.slots
            else UpdateStep(db, plan, env).value.slots == db.slots
  {
  }

  /** The document, the mapping, the guard and the frame of an UPDATE that succeeds. */
  ghost predicate UpdateDone(db: Database, after: Database, c: Command, env: Env)
    requires c.Update? && c.id in db.qualifications
  {
    var q := db.qualifications[c.id];
    && after.qualifications == db.qualifications[c.id := Updated(q, c, env.now)]
    && after.events == db.events && after.sources == db.sources
    && Remapped(db.slots, after.slots, Owner(c.id, q.incarnation), c.faceField, env)
    && after.metadata == db.metadata.(
         faceGuard := db.metadata.faceGuard + (if Rewrites(db.slots, c.id, c.faceField) then 1 else 0),
         slotCount := |after.slots|)
  }

  lemma RewritesIff(slots: Slots, id: Uuid, field: FaceField)
    ensures MappingChanges(slots, id, ModeOf(field)) <==> Rewrites(slots, id, field)
  {
  }

  lemma WroteIsDone(db: Database, after: Database, c: Command, env: Env)
    requires c.Update? && c.id in db.qualifications
    requires UpdateWrote(db, after, PlanOf(c, db.qualifications[c.id]), env)
    requires Remapped(db.slots, after.slots, Owner(c.id, db.qualifications[c.id].incarnation), c.faceField, env)
    ensures UpdateDone(db, after, c, env)
  {
    RewritesIff(db.slots, c.id, c.faceField);
  }

  lemma UpdateStepRemaps(db: Database, c: Command, env: Env)
    requires SlotsValid(db) && c.Update? && c.id in db.qualifications
    requires UpdateStep(db, PlanOf(c, db.qualifications[c.id]), env).Ok?
    ensures Remapped(db.slots, UpdateStep(db, PlanOf(c, db.qualifications[c.id]), env).value.slots,
                     Owner(c.id, db.qualifications[c.id].incarnation), c.faceField, env)
  {
    var q := db.qualifications[c.id];
    UpdateStepSlots(db, PlanOf(c, q), env);
    RewritesIff(db.slots, c.id, c.faceField);
    if Rewrites(db.slots, c.id, c.faceField) { RebindLeaves(db, ProvenanceOf(c.id, q), c.faceField, env); }
  }

  /** An UPDATE answered "changed" wrote the given fields and kept the others; the
      face was left, removed or bound as asked, and nothing else changed. */
  lemma UpdateLeaves(db: Database, c: Command, env: Env)
    requires Valid(db) && c.Update? && Run(db, c, env).Ok? && Run(db, c, env).value.1 == Changed
    ensures c.id in db.qualifications
    ensures UpdateDone(db, Run(db, c, env).value.0, c, env)
  {
    CommittedPlan(db, c, env);
    UpdateStepWrites(db, PlanOf(c, db.qualifications[c.id]), env);
    UpdateStepRemaps(db, c, env);
    WroteIsDone(db, Run(db, c, env).value.0, c, env);
  }

  /** ... so the face ends bound as asked: left, removed, or bound to exactly this
      qualification. */
  lemma UpdateBinds(db: Database, c: Command, env: Env)
    requires Valid(db) && c.Update? && Run(db, c, env).Ok? && Run(db, c, env).value.1 == Changed
    ensures OwnsAsAsked(db.slots, Run(db, c, env).value.0.slots, c.id, c.faceField)
  {
    UpdateLeaves(db, c, env);
    RemappedOwns(db.slots, Run(db, c, env).value.0.slots, Owner(c.id, db.qualifications[c.id].incarnation), c.faceField,
                 env);
  }

  // --------------------------------------------------------------------- REVOKE

  /** The document REVOKE writes. */
  function Revoked(q: Qualification, c: Command, now: int): Qualification
    requires c.Revoke?
  {
    q.(state := q.state.(revokedAt := Some(c.receivedAt), revocationReason := Some(c.reason)),
       version := q.version + 1, updatedAt := now)
  }

  ghost predicate RevokeDone(db: Database, after: Database, c: Command, env: Env)
    requires c.Revoke? && c.id in db.qualifications
  {
    && after.qualifications == db.qualifications[c.id := Revoked(db.qualifications[c.id], c, env.now)]
    && Frees(db.slots, after.slots, c.id)
    && after.events == db.events && after.sources == db.sources
    && after.metadata == db.metadata.(faceGuard := db.metadata.faceGuard + 1)
  }

  /** A REVOKE answered "changed" recorded time and reason and freed the face. */
  lemma RevokeLeaves(db: Database, c: Command, env: Env)
    requires Valid(db) && c.Revoke? && Run(db, c, env).Ok? && Run(db, c, env).value.1 == Changed
    ensures c.id in db.qualifications
    ensures RevokeDone(db, Run(db, c, env).value.0, c, env)
  {
    CommittedPlan(db, c, env);
    RevokeStepLeaves(db, c, env);
  }

  lemma RevokeStepLeaves(db: Database, c: Command, env: Env)
    requires SlotsValid(db) && c.Revoke? && c.id in db.qualifications
    requires RevokeStep(db, ProvenanceOf(c.id, db.qualifications[c.id]), c.reason, c.receivedAt, env).Ok?
    ensures RevokeDone(db, RevokeStep(db, ProvenanceOf(c.id, db.qualifications[c.id]), c.reason, c.receivedAt,
                                      env).value,
                       c, env)
  {
    ReleaseIsFrees(db.slots, c.id, db.qualifications[c.id].incarnation);
  }

  // --------------------------------------------------------------------- EXPIRE

  /** The document the expiry of an overdue qualification writes. */
  function Expired(q: Qualification, t: int, now: int): Qualification {
    q.(state := q.state.(expiredTerminalAt := Some(t)), version := q.version + 1, updatedAt := now)
  }

  /** A change answered "expired" recorded the expiry at its own receive time, freed the
      face, and changed nothing else; the qualification was overdue. */
  lemma ExpireLeaves(db: Database, c: Command, env: Env)
    requires Valid(db) && (c.Update? || c.Revoke?)
    requires Run(db, c, env).Ok? && Run(db, c, env).value.1 == ExpiredTerminalPersisted
    ensures c.id in db.qualifications && NeedsTerminalExpiry(db.qualifications[c.id].state, c.receivedAt)
    ensures var after := Run(db, c, env).value.0;
            && after.qualifications ==
               db.qualifications[c.id := Expired(db.qualifications[c.id], c.receivedAt, env.now)]
            && Frees(db.slots, after.slots, c.id)
            && after.events == db.events && after.sources == db.sources
            && after.metadata == db.metadata.(faceGuard := db.metadata.faceGuard + 1)
  {
    CommittedPlan(db, c, env);
    ExpireStepLeaves(db, c, env);
  }

  lemma ExpireStepLeaves(db: Database, c: Command, env: Env)
    requires SlotsValid(db) && (c.Update? || c.Revoke?) && c.id in db.qualifications
    requires ExpireStep(db, ProvenanceOf(c.id, db.qualifications[c.id]), c.receivedAt, env).Ok?
    ensures NeedsTerminalExpiry(db.qualifications[c.id].state, c.receivedAt)
    ensures var after := ExpireStep(db, ProvenanceOf(c.id, db.qualifications[c.id]), c.receivedAt, env).value;
            && after.qualifications ==
               db.qualifications[c.id := Expired(db.qualifications[c.id], c.receivedAt, env.now)]
            && Frees(db.slots, after.slots, c.id)
            && after.events == db.events && after.sources == db.sources
            && after.metadata == db.metadata.(faceGuard := db.metadata.faceGuard + 1)
  {
    ReleaseIsFrees(db.slots, c.id, db.qualifications[c.id].incarnation);
  }

  /** Once revoked, a qualification is never accepted again, in any later run. */
  lemma RevokedForGood(db: Database, c: Command, env: Env, steps: seq<Step>)
    requires Valid(db) && c.Revoke? && Run(db, c, env).Ok? && Run(db, c, env).value.1 == Changed
    ensures var later := RunAll(Run(db, c, env).value.0, steps);
            && c.id in db.qualifications && c.id in later.qualifications
            && later.qualifications[c.id].state == Revoked(db.qualifications[c.id], c, env.now).state
            && AcceptedOf(later.events, c.id) == []
            && forall i :: !OwnedBy(later.slots, i, c.id)
  {
    RevokeLeaves(db, c, env);
    var after := Run(db, c, env).value.0;
    StepKeepsValid(db, Step(c, env));
    assert QualificationSound(after.qualifications[c.id]);
    TerminalIsFinal(after, steps, c.id);
    RunKeepsValid(after, steps);
  }

  // ------------------------------------------------------- when management succeeds

  /** The scope's epoch is the store's, its clock works and its new ids are unused. */
  ghost predicate Ready(db: Database, env: Env) {
    && env.epoch == db.metadata.datasetEpoch && IsInstant(env.now) && IsInstant(env.recordedAt)
    && env.qualificationId !in db.qualifications && env.slotId !in db.slots
    && (forall id :: id in db.qualifications ==> db.qualifications[id].qrLookupDigest != env.qrLookupDigest)
    && (forall e :: e in db.events ==> e.eventId != env.eventId)
  }

  /** The face can be bound to a qualification: nobody else has it, and the
      qualification has a slot, some slot is empty, or one can still be added. */
  ghost predicate Bindable(slots: Slots, id: Uuid, face: Face) {
    && (forall i :: BoundFace(slots, i, face) ==> OwnedBy(slots, i, id))
    && ((exists i :: OwnedBy(slots, i, id)) || (exists i :: Empty(slots, i)) || |slots| < FACE_SLOT_CAPACITY)
  }

  /** On a valid store a CREATE succeeds exactly if it has a name and a window that has
      not ended, and its face, if any, can be bound. */
  lemma CreateAnswers(db: Database, c: Command, env: Env)
    requires Valid(db) && Ready(db, env) && c.Create?
    requires IsInstant(c.validFrom) && IsInstant(c.validUntil) && IsInstant(c.receivedAt)
    ensures Run(db, c, env).Ok? <==>
              && c.displayName != "" && c.validFrom < c.validUntil && c.receivedAt < c.validUntil
              && (c.face.Some? ==> Bindable(db.slots, env.qualificationId, c.face.value))
  {
    assert forall i :: !OwnedBy(db.slots, i, env.qualificationId);
    CreateStepAnswers(db, c, env);
  }

  lemma CreateStepAnswers(db: Database, c: Command, env: Env)
    requires SlotsValid(db) && Ready(db, env) && c.Create?
    requires forall i :: !OwnedBy(db.slots, i, env.qualificationId)
    ensures CreateStep(db, CreatePlan(c.displayName, c.validFrom, c.validUntil, c.face), env).Ok? <==>
              c.displayName != "" && (c.face.Some? ==> Bindable(db.slots, env.qualificationId, c.face.value))
  {
    if c.face.Some? && c.displayName != "" {
      CreateStepBinds(db, c, env);
      BindOutcome(Inserted(db, c, env), Owner(env.qualificationId, env.incarnation), c.face.value, env);
    }
  }

  /** A REVOKE is answered "changed" exactly if the qualification exists, was never used,
      is neither revoked nor expired nor overdue, and a reason is given. */
  lemma RevokeAnswers(db: Database, c: Command, env: Env)
    requires Valid(db) && Ready(db, env) && c.Revoke? && IsInstant(c.receivedAt)
    ensures Run(db, c, env).Ok? && Run(db, c, env).value.1 == Changed <==>
              && c.id in db.qualifications && c.reason != ""
              && var s := db.qualifications[c.id].state;
                 s.presence.NotEntered? && !s.Terminal() && c.receivedAt < s.validUntil
  {
    if c.id in db.qualifications {
      var q := db.qualifications[c.id];
      assert QualificationSound(q);
      RevokeRunsIff(db, c, env);
      MutableReasons(q.state, c.receivedAt);
      ManagementReasons(q.state, 0, 0, c.reason, c.receivedAt);
      if c.reason != "" { RevokeCommits(db, c, env); }
    }
  }

  lemma RevokeRunsIff(db: Database, c: Command, env: Env)
    requires c.Revoke? && c.id in db.qualifications && db.qualifications[c.id].state.Valid()
    ensures Run(db, c, env).Ok? && Run(db, c, env).value.1 == Changed <==>
              && DecideRevocation(db.qualifications[c.id].state, c.receivedAt, c.reason) == Ok(Allowed)
              && ApplyManagement(db, RevokePlan(ProvenanceOf(c.id, db.qualifications[c.id]), c.reason), c.receivedAt,
                                 env).Ok?
  {
  }

  lemma RevokeCommits(db: Database, c: Command, env: Env)
    requires SlotsValid(db) && c.Revoke? && c.id in db.qualifications && c.reason != ""
    requires IsInstant(c.receivedAt) && IsInstant(env.now) && env.epoch == db.metadata.datasetEpoch
    ensures ApplyManagement(db, RevokePlan(ProvenanceOf(c.id, db.qualifications[c.id]), c.reason), c.receivedAt,
                            env).Ok?
  {
    var q := db.qualifications[c.id];
    var r := Revoked(q, c, env.now);
    ReleaseStepKeeps(db, ProvenanceOf(c.id, q), r, db.(qualifications := db.qualifications[c.id := r]), env);
  }

  /** An UPDATE is answered "changed" exactly if it gives a field, the qualification
      exists, was never used and is neither revoked nor expired nor overdue, the window
      that results has not ended, the name that results is not empty, and a face it
      gives is bound already or can be. */
  lemma UpdateAnswers(db: Database, c: Command, env: Env)
    requires Valid(db) && Ready(db, env) && c.Update? && IsInstant(c.receivedAt)
    requires IsNullableInstant(c.from) && IsNullableInstant(c.until)
    ensures Run(db, c, env).Ok? && Run(db, c, env).value.1 == Changed <==>
              && (c.name.Some? || c.from.Some? || c.until.Some? || !c.faceField.FaceOmitted?)
              && c.id in db.qualifications
              && var s, u := db.qualifications[c.id].state, Updated(db.qualifications[c.id], c, env.now);
                 && s.presence.NotEntered? && !s.Terminal() && c.receivedAt < s.validUntil
                 && u.state.validFrom < u.state.validUntil && c.receivedAt < u.state.validUntil && u.displayName != ""
                 && (c.faceField.FaceGiven? && Rewrites(db.slots, c.id, c.faceField) ==>
                       Bindable(db.slots, c.id, c.faceField.face))
  {
    if c.id in db.qualifications {
      var q := db.qualifications[c.id];
      assert QualificationSound(q);
      UpdateRunsIff(db, c, env);
      MutableReasons(q.state, c.receivedAt);
      ManagementReasons(q.state, OrElse(c.from, q.state.validFrom), OrElse(c.until, q.state.validUntil), "",
                        c.receivedAt);
      if !q.state.Terminal() { UpdateCommits(db, c, env); }
    }
  }

  lemma UpdateRunsIff(db: Database, c: Command, env: Env)
    requires SlotsValid(db) && c.Update? && c.id in db.qualifications && db.qualifications[c.id].state.Valid()
    requires IsInstant(env.now) && IsInstant(c.receivedAt)
    ensures var q := db.qualifications[c.id];
            Run(db, c, env).Ok? && Run(db, c, env).value.1 == Changed <==>
              && (c.name.Some? || c.from.Some? || c.until.Some? || !c.faceField.FaceOmitted?)
              && DecideUpdate(q.state, OrElse(c.from, q.state.validFrom), OrElse(c.until, q.state.validUntil),
                              c.receivedAt) == Ok(Allowed)
              && UpdateStep(db, PlanOf(c, q), env).Ok?
  {
    CurrentSlotFinds(db.slots, c.id);
  }

  lemma UpdateCommits(db: Database, c: Command, env: Env)
    requires Valid(db) && Ready(db, env) && c.Update? && c.id in db.qualifications
    requires !db.qualifications[c.id].state.Terminal()
    ensures var q := db.qualifications[c.id];
            UpdateStep(db, PlanOf(c, q), env).Ok? <==>
              && Updated(q, c, env.now).displayName != ""
              && (c.faceField.FaceGiven? && Rewrites(db.slots, c.id, c.faceField) ==>
                    Bindable(db.slots, c.id, c.faceField.face))
  {
    var q := db.qualifications[c.id];
    CurrentSlotFinds(db.slots, c.id);
    RewritesIff(db.slots, c.id, c.faceField);
    if Rewrites(db.slots, c.id, c.faceField) {
      RebindAnswers(db, ProvenanceOf(c.id, q), c.faceField, env);
      RebindKeeps(db, ProvenanceOf(c.id, q), ModeOf(c.faceField), env);
    }
  }

  lemma RebindAnswers(db: Database, p: Provenance, field: FaceField, env: Env)
    requires SlotsValid(db) && Current(db, p).Ok? && Ready(db, env) && Rewrites(db.slots, p.qualificationId, field)
    ensures RebindStep(db, p, ModeOf(field), env).Ok? <==>
              (field.FaceGiven? ==> Bindable(db.slots, p.qualificationId, field.face))
  {
    ReleaseFrees(db.slots, p.qualificationId, p.incarnation);
    if field.FaceGiven? {
      if exists i :: OwnedBy(db.slots, i, p.qualificationId) {
        ReplacingNeverExhausts(db, p, field.face, env);
      } else {
        FirstBinding(db, p, field.face, env);
      }
    }
  }

  lemma FirstBinding(db: Database, p: Provenance, face: Face, env: Env)
    requires SlotsValid(db) && Ready(db, env) && forall i :: !OwnedBy(db.slots, i, p.qualificationId)
    ensures RebindStep(db, p, SetMapping(face), env).Ok? <==> Bindable(db.slots, p.qualificationId, face)
  {
    CurrentSlotFinds(db.slots, p.qualificationId);
    BindOutcome(db, Owner(p.qualificationId, p.incarnation), face, env);
  }

  // ------------------------------------------------------ why management is refused

  /** Somebody else holds the face. */
  ghost predicate HeldElsewhere(slots: Slots, id: Uuid, face: Face) {
    exists i :: BoundFace(slots, i, face) && !OwnedBy(slots, i, id)
  }

  /** The refusals of a CREATE: the window's reason; then a missing name; then a face
      that is held; then a full slot collection. */
  lemma CreateRefuses(db: Database, c: Command, env: Env)
    requires Valid(db) && Ready(db, env) && c.Create?
    requires IsInstant(c.validFrom) && IsInstant(c.validUntil) && IsInstant(c.receivedAt)
    ensures Run(db, c, env) == Err(Refusal(UntilNotAfterFrom)) <==> c.validUntil <= c.validFrom
    ensures Run(db, c, env) == Err(Refusal(UntilNotAfterReceived)) <==> c.validFrom < c.validUntil <= c.receivedAt
    ensures c.validFrom < c.validUntil && c.receivedAt < c.validUntil ==>
              && (Run(db, c, env) == Err(FieldMissing) <==> c.displayName == "")
              && (Run(db, c, env) == Err(FaceSubjectAlreadyBound) <==>
                    && c.displayName != "" && c.face.Some?
                    && HeldElsewhere(db.slots, env.qualificationId, c.face.value))
              && (Run(db, c, env) == Err(FaceSlotCapacityExhausted) <==>
                    && c.displayName != "" && c.face.Some?
                    && !HeldElsewhere(db.slots, env.qualificationId, c.face.value)
                    && !Bindable(db.slots, env.qualificationId, c.face.value))
  {
    assert forall i :: !OwnedBy(db.slots, i, env.qualificationId);
    CreateStepRefuses(db, c, env);
  }

  lemma CreateStepRefuses(db: Database, c: Command, env: Env)
    requires SlotsValid(db) && Ready(db, env) && c.Create?
    requires forall i :: !OwnedBy(db.slots, i, env.qualificationId)
    ensures var r := CreateStep(db, CreatePlan(c.displayName, c.validFrom, c.validUntil, c.face), env);
            && (r == Err(FieldMissing) <==> c.displayName == "")
            && (r == Err(FaceSubjectAlreadyBound) <==>
                  && c.displayName != "" && c.face.Some?
                  && HeldElsewhere(db.slots, env.qualificationId, c.face.value))
            && (r == Err(FaceSlotCapacityExhausted) <==>
                  && c.displayName != "" && c.face.Some?
                  && !HeldElsewhere(db.slots, env.qualificationId, c.face.value)
                  && !Bindable(db.slots, env.qualificationId, c.face.value))
            && (r.Err? ==> !r.error.Refusal?)
  {
    if c.face.Some? && c.displayName != "" {
      CreateStepBinds(db, c, env);
      BindOutcome(Inserted(db, c, env), Owner(env.qualificationId, env.incarnation), c.face.value, env);
    }
  }

  lemma CreateStepBinds(db: Database, c: Command, env: Env)
    requires SlotsValid(db) && Ready(db, env) && c.Create? && c.face.Some? && c.displayName != ""
    requires forall i :: !OwnedBy(db.slots, i, env.qualificationId)
    ensures var bound := BindFace(Inserted(db, c, env), Owner(env.qualificationId, env.incarnation), c.face.value, env);
            var r := CreateStep(db, CreatePlan(c.displayName, c.validFrom, c.validUntil, c.face), env);
            && (bound.Ok? ==> r.Ok?) && (bound.Err? ==> r == Err(bound.error))
  {
    var owner := Owner(env.qualificationId, env.incarnation);
    if BindFace(Inserted(db, c, env), owner, c.face.value, env).Ok? {
      var i := BindKeeps(Inserted(db, c, env), owner, c.face.value, env);
    }
  }

  /** The refusals of a REVOKE: unknown qualification; or the rule's reason, unless that
      is the expiry of an overdue one, which is committed instead. */
  lemma RevokeRefuses(db: Database, c: Command, env: Env)
    requires Valid(db) && Ready(db, env) && c.Revoke? && IsInstant(c.receivedAt)
    ensures Run(db, c, env) == Err(QualificationNotFound) <==> c.id !in db.qualifications
    ensures c.id in db.qualifications ==>
              forall reason ::
                (Run(db, c, env) == Err(Refusal(reason)) <==>
                   DecideRevocation(db.qualifications[c.id].state, c.receivedAt, c.reason) == Ok(Refused(reason))
                   && !NeedsTerminalExpiry(db.qualifications[c.id].state, c.receivedAt))
  {
    if c.id in db.qualifications {
      var q := db.qualifications[c.id];
      assert QualificationSound(q);
      if c.reason != "" { RevokeCommits(db, c, env); }
      if NeedsTerminalExpiry(q.state, c.receivedAt) { ExpireNeverTrips(db, c.id, c.receivedAt, env); }
    }
  }

  /** The refusals of an UPDATE: no field given, unknown qualification, or the rule's
      reason as above. */
  lemma UpdateRefuses(db: Database, c: Command, env: Env)
    requires Valid(db) && Ready(db, env) && c.Update? && IsInstant(c.receivedAt)
    requires IsNullableInstant(c.from) && IsNullableInstant(c.until)
    ensures Run(db, c, env) == Err(UpdateFieldRequired) <==>
              c.name.None? && c.from.None? && c.until.None? && c.faceField.FaceOmitted?
    ensures c.name.Some? || c.from.Some? || c.until.Some? || !c.faceField.FaceOmitted? ==>
              && (Run(db, c, env) == Err(QualificationNotFound) <==> c.id !in db.qualifications)
              && (c.id in db.qualifications ==>
                    var s := db.qualifications[c.id].state;
                    forall reason ::
                      (Run(db, c, env) == Err(Refusal(reason)) <==>
                         DecideUpdate(s, OrElse(c.from, s.validFrom), OrElse(c.until, s.validUntil), c.receivedAt)
                           == Ok(Refused(reason))
                         && !NeedsTerminalExpiry(s, c.receivedAt)))
  {
    if c.id in db.qualifications {
      var q := db.qualifications[c.id];
      assert QualificationSound(q);
      UpdateRunsBy(db, c, env);
      UpdateErrors(db, c, env);
      if NeedsTerminalExpiry(q.state, c.receivedAt) { ExpireNeverTrips(db, c.id, c.receivedAt, env); }
    }
  }

  /** An UPDATE of a known qualification goes by the rule's verdict. */
  lemma UpdateRunsBy(db: Database, c: Command, env: Env)
    requires SlotsValid(db) && c.Update? && c.id in db.qualifications && db.qualifications[c.id].state.Valid()
    requires IsInstant(env.now) && IsInstant(c.receivedAt) && IsNullableInstant(c.from) && IsNullableInstant(c.until)
    ensures var q := db.qualifications[c.id];
            var verdict := DecideUpdate(q.state, OrElse(c.from, q.state.validFrom), OrElse(c.until, q.state.validUntil),
                                        c.receivedAt);
            if c.name.None? && c.from.None? && c.until.None? && c.faceField.FaceOmitted?
            then Run(db, c, env) == Err(UpdateFieldRequired)
            else
              && verdict.Ok?
              && (verdict.value.Refused? ==>
                    Run(db, c, env) == RefuseOrExpire(db, c.id, q, verdict.value.reason, c.receivedAt, env))
              && (verdict.value.Allowed? ==>
                    Run(db, c, env).Err? ==> UpdateStep(db, PlanOf(c, q), env) == Err(Run(db, c, env).error))
  {
    CurrentSlotFinds(db.slots, c.id);
  }

  /** A staged UPDATE fails on its name or its face only. */
  lemma UpdateErrors(db: Database, c: Command, env: Env)
    requires SlotsValid(db) && Ready(db, env) && c.Update? && c.id in db.qualifications
    ensures var r := UpdateStep(db, PlanOf(c, db.qualifications[c.id]), env);
            r.Err? ==> Staged(r.error)
  {
    RebindErrors(db, ProvenanceOf(c.id, db.qualifications[c.id]), ModeOf(c.faceField), env);
  }

  /** A failure of staging, not of the rules before it. */
  predicate Staged(f: Failure) {
    !f.Refusal? && !f.QualificationNotFound? && !f.UpdateFieldRequired?
  }

  lemma RebindErrors(db: Database, p: Provenance, mode: MappingMode, env: Env)
    ensures var r := RebindStep(db, p, mode, env); r.Err? ==> Staged(r.error)
  {
  }

  /** A staged UPDATE fails on a missing name, or else on a given face that is held or
      for which there is no slot. */
  lemma UpdateFails(db: Database, c: Command, env: Env)
    requires Valid(db) && Ready(db, env) && c.Update? && c.id in db.qualifications
    requires !db.qualifications[c.id].state.Terminal()
    ensures var q := db.qualifications[c.id];
            var r := UpdateStep(db, PlanOf(c, q), env);
            var named := Updated(q, c, env.now).displayName != "";
            var binds := c.faceField.FaceGiven? && Rewrites(db.slots, c.id, c.faceField);
            && (r == Err(FieldMissing) <==> !named)
            && (r == Err(FaceSubjectAlreadyBound) <==>
                  named && binds && HeldElsewhere(db.slots, c.id, c.faceField.face))
            && (r == Err(FaceSlotCapacityExhausted) <==>
                  named && binds && !HeldElsewhere(db.slots, c.id, c.faceField.face)
                  && !Bindable(db.slots, c.id, c.faceField.face))
  {
    var q := db.qualifications[c.id];
    CurrentSlotFinds(db.slots, c.id);
    RewritesIff(db.slots, c.id, c.faceField);
    if Rewrites(db.slots, c.id, c.faceField) {
      RebindFails(db, ProvenanceOf(c.id, q), c.faceField, env);
      RebindKeeps(db, ProvenanceOf(c.id, q), ModeOf(c.faceField), env);
    }
  }

  lemma RebindFails(db: Database, p: Provenance, field: FaceField, env: Env)
    requires SlotsValid(db) && Current(db, p).Ok? && Ready(db, env) && Rewrites(db.slots, p.qualificationId, field)
    ensures var r := RebindStep(db, p, ModeOf(field), env);
            && r != Err(FieldMissing)
            && (r == Err(FaceSubjectAlreadyBound) <==>
                  field.FaceGiven? && HeldElsewhere(db.slots, p.qualificationId, field.face))
            && (r == Err(FaceSlotCapacityExhausted) <==>
                  field.FaceGiven? && !HeldElsewhere(db.slots, p.qualificationId, field.face)
                  && !Bindable(db.slots, p.qualificationId, field.face))
  {
    ReleaseFrees(db.slots, p.qualificationId, p.incarnation);
    if field.FaceGiven? {
      if exists i :: OwnedBy(db.slots, i, p.qualificationId) {
        ReplacingNeverExhausts(db, p, field.face, env);
      } else {
        FirstBindingFails(db, p, field.face, env);
      }
    }
  }

  lemma FirstBindingFails(db: Database, p: Provenance, face: Face, env: Env)
    requires SlotsValid(db) && Ready(db, env) && forall i :: !OwnedBy(db.slots, i, p.qualificationId)
    ensures var r := RebindStep(db, p, SetMapping(face), env);
            && r != Err(FieldMissing)
            && (r == Err(FaceSubjectAlreadyBound) <==> HeldElsewhere(db.slots, p.qualificationId, face))
            && (r == Err(FaceSlotCapacityExhausted) <==>
                  && !HeldElsewhere(db.slots, p.qualificationId, face)
                  && !Bindable(db.slots, p.qualificationId, face))
  {
    CurrentSlotFinds(db.slots, p.qualificationId);
    BindOutcome(db, Owner(p.qualificationId, p.incarnation), face, env);
  }

  // ---------------------------------------------------------------- recognition

  /** The qualification an attempt at an active source is about: the one that carries
      the scanned digest, or the one that holds the matched face. */
  ghost predicate Identifies(db: Database, c: Command, id: Uuid)
    requires c.Recognize?
  {
    && id in db.qualifications
    && match c.input
       case QrScanned(digest) => db.qualifications[id].qrLookupDigest == digest
       case MatchedFace(face) => HolderOf(db, face, id)
       case UnknownFace => false
  }

  ghost predicate ActiveSource(db: Database, c: Command)
    requires c.Recognize?
  {
    c.key.sourceId in db.sources && db.sources[c.key.sourceId].active
  }

  lemma ClaimsIdentify(db: Database, c: Command)
    requires Valid(db) && c.Recognize? && IsInstant(c.receivedAt) && ActiveSource(db, c)
    ensures Decide(db, c).Ok?
    ensures var p := Decide(db, c).value.0.claims.qualification;
            && (p.Some? ==> Identifies(db, c, p.value.qualificationId))
            && (forall id :: Identifies(db, c, id) ==> p.Some? && p.value.qualificationId == id)
  {
    DecideSucceeds(db, c);
    match c.input
    case QrScanned(digest) => QrIdentifies(db, digest);
    case MatchedFace(face) => FaceIdentifies(db, face);
    case UnknownFace =>
  }

  lemma QrIdentifies(db: Database, digest: Uuid)
    requires Valid(db) && ResolveQr(db, digest).Ok?
    ensures var p := ResolveQr(db, digest).value.qualification;
            && (p.Some? ==> p.value.qualificationId in db.qualifications
                            && db.qualifications[p.value.qualificationId].qrLookupDigest == digest)
            && (forall id :: id in db.qualifications && db.qualifications[id].qrLookupDigest == digest ==>
                               p.Some? && p.value.qualificationId == id)
  {
  }

  lemma FaceIdentifies(db: Database, face: Face)
    requires Valid(db) && ResolveFace(db, face).Ok?
    ensures var p := ResolveFace(db, face).value.qualification;
            && (p.Some? ==> HolderOf(db, face, p.value.qualificationId))
            && (forall id :: HolderOf(db, face, id) ==> p.Some? && p.value.qualificationId == id)
  {
    if exists i :: BoundFace(db.slots, i, face) {
      var i :| BoundFace(db.slots, i, face);
      assert OwnedBy(db.slots, i, db.slots[i].owner.value.qualificationId);
    }
  }

  /** What an attempt does to the qualification it is about, by the recorded reason. */
  function Moved(s: QualificationState, reason: Reason, t: int): QualificationState {
    match reason
    case EntryGranted => s.(presence := Inside, enteredAt := Some(t))
    case ExitRecorded => s.(presence := Exited, exitedAt := Some(t))
    case QualificationExpired => if s.Terminal() then s else s.(expiredTerminalAt := Some(t))
    case _ => s
  }

  /** Leaving, and being found overdue, gives the face back. */
  predicate GivesFaceBack(s: QualificationState, reason: Reason) {
    reason.ExitRecorded? || (reason.QualificationExpired? && !s.Terminal())
  }

  lemma DecisionMoves(s: QualificationState, direction: Direction, t: int)
    requires s.Valid()
    ensures var d := DecisionOn(s, direction, t);
            && ArrivalState(s, d, t) == Moved(s, d.reason, t)
            && (d.faceEffect.Release? <==> GivesFaceBack(s, d.reason))
  {
  }

  /** The event an attempt records, the source's version and the raised guard. */
  ghost predicate AttemptLogged(db: Database, after: Database, c: Command, env: Env, e: Event)
    requires c.Recognize? && c.key.sourceId in db.sources
  {
    var source := db.sources[c.key.sourceId];
    && e.eventId == env.eventId && e.key == c.key && e.kind == MediaOf(c.input) && e.direction == source.direction
    && e.receivedAt == c.receivedAt && e.recordedAt == env.recordedAt && e.artifact == c.artifact
    && after.events == db.events + [e]
    && after.sources == db.sources[c.key.sourceId := source.(version := source.version + 1)]
    && after.metadata == if c.input.QrScanned? then db.metadata.(qrGuard := db.metadata.qrGuard + 1)
                         else db.metadata.(faceGuard := db.metadata.faceGuard + 1)
  }

  /** Everything a recorded attempt changed. */
  ghost predicate AttemptDone(db: Database, after: Database, c: Command, env: Env, e: Event)
    requires c.Recognize? && c.key.sourceId in db.sources
  {
    && AttemptLogged(db, after, c, env, e)
    && (e.qualificationId.None? ==>
          && e.outcome.Rejected? && e.transition.None?
          && after.qualifications == db.qualifications && after.slots == db.slots)
    && (e.qualificationId.Some? ==> VisitorMoved(db, after, c, env, e, e.qualificationId.value))
  }

  lemma AttemptIsLogged(db: Database, moved: Database, after: Database, c: Command, env: Env, plan: RecognitionPlan)
    requires c.Recognize? && c.key.sourceId in db.sources && plan.claims.media == MediaOf(c.input)
    requires moved == Guard(db, c.key.sourceId).(qualifications := moved.qualifications, slots := moved.slots)
    requires var e := NewEvent(plan, Envelope(c.key, db.sources[c.key.sourceId].direction, c.receivedAt, c.artifact),
                               env);
             && after == moved.(metadata := after.metadata, events := moved.events + [e])
             && after.metadata == (if plan.claims.media.Qr? then BumpQr(moved) else BumpFace(moved)).metadata
    ensures var envelope := Envelope(c.key, db.sources[c.key.sourceId].direction, c.receivedAt, c.artifact);
            AttemptLogged(db, after, c, env, NewEvent(plan, envelope, env))
    ensures after.qualifications == moved.qualifications && after.slots == moved.slots
  {
  }

  /** The decision on the stored state, and what it made of that qualification. */
  ghost predicate VisitorMoved(db: Database, after: Database, c: Command, env: Env, e: Event, id: Uuid)
    requires c.Recognize?
  {
    && id in db.qualifications
    && var q := db.qualifications[id];
       var d := DecisionOn(q.state, e.direction, c.receivedAt);
       && e.outcome == d.outcome && e.reason == d.reason && e.transition == d.transition
       && after.qualifications == db.qualifications[id := q.(state := Moved(q.state, e.reason, c.receivedAt),
                                                             version := q.version + 1, updatedAt := env.now)]
       && if GivesFaceBack(q.state, e.reason) then Frees(db.slots, after.slots, id) else after.slots == db.slots
  }

  /** Who the recorded attempt is about, and why it is rejected if it is about nobody. */
  ghost predicate AttemptAbout(db: Database, c: Command, e: Event)
    requires c.Recognize? && c.key.sourceId in db.sources
  {
    if !db.sources[c.key.sourceId].active then e.qualificationId.None? && e.reason.SourceInactive?
    else
      && (forall id :: Identifies(db, c, id) <==> e.qualificationId == Some(id))
      && (e.qualificationId.None? ==>
            e.reason == match c.input
                        case QrScanned(_) => InvalidQrCredential
                        case MatchedFace(_) => FaceSubjectNotMapped
                        case UnknownFace => FaceIsUnknown)
  }

  lemma AttemptIsAbout(db: Database, c: Command, env: Env)
    requires Valid(db) && c.Recognize? && Decide(db, c).Ok?
    ensures c.key.sourceId in db.sources
    ensures var (plan, envelope) := Decide(db, c).value;
            AttemptAbout(db, c, NewEvent(plan, envelope, env))
  {
    DecideFits(db, c);
    if ActiveSource(db, c) { ClaimsIdentify(db, c); }
  }

  lemma AttemptRecords(db: Database, plan: RecognitionPlan, c: Command, env: Env)
    requires Valid(db) && c.Recognize? && c.key.sourceId in db.sources && IsInstant(c.receivedAt)
    requires plan.claims.media == MediaOf(c.input)
    requires PlanFits(db, plan, db.sources[c.key.sourceId].direction, c.receivedAt)
    requires var envelope := Envelope(c.key, db.sources[c.key.sourceId].direction, c.receivedAt, c.artifact);
             RecordStep(db, plan, envelope, env).Ok?
    ensures var envelope := Envelope(c.key, db.sources[c.key.sourceId].direction, c.receivedAt, c.artifact);
            AttemptDone(db, RecordStep(db, plan, envelope, env).value.0, c, env, NewEvent(plan, envelope, env))
  {
    var envelope := Envelope(c.key, db.sources[c.key.sourceId].direction, c.receivedAt, c.artifact);
    RecordShape(db, plan, envelope, env);
    if plan.claims.qualification.Some? { VisitorIsMoved(db, plan, c, env); }
    AttemptIsLogged(db, QualificationStep(Guard(db, c.key.sourceId), plan, c.receivedAt, env).value,
                    RecordStep(db, plan, envelope, env).value.0, c, env, plan);
  }

  lemma VisitorIsMoved(db: Database, plan: RecognitionPlan, c: Command, env: Env)
    requires Valid(db) && c.Recognize? && c.key.sourceId in db.sources && IsInstant(c.receivedAt)
    requires plan.claims.qualification.Some?
    requires PlanFits(db, plan, db.sources[c.key.sourceId].direction, c.receivedAt)
    requires QualificationStep(Guard(db, c.key.sourceId), plan, c.receivedAt, env).Ok?
    ensures var envelope := Envelope(c.key, db.sources[c.key.sourceId].direction, c.receivedAt, c.artifact);
            var moved := QualificationStep(Guard(db, c.key.sourceId), plan, c.receivedAt, env).value;
            && moved == Guard(db, c.key.sourceId).(qualifications := moved.qualifications, slots := moved.slots)
            && VisitorMoved(db, moved, c, env, NewEvent(plan, envelope, env),
                            plan.claims.qualification.value.qualificationId)
  {
    var p, direction := plan.claims.qualification.value, db.sources[c.key.sourceId].direction;
    assert QualificationSound(db.qualifications[p.qualificationId]);
    GuardKeepsPlan(db, c.key.sourceId, plan, direction, c.receivedAt);
    QualificationStepLeaves(Guard(db, c.key.sourceId), plan, direction, c.receivedAt, env);
    VisitorByDecision(db, QualificationStep(Guard(db, c.key.sourceId), plan, c.receivedAt, env).value, c, env,
                      NewEvent(plan, Envelope(c.key, direction, c.receivedAt, c.artifact), env),
                      p.qualificationId, plan.decision);
  }

  lemma GuardKeepsPlan(db: Database, sourceId: Uuid, plan: RecognitionPlan, direction: Direction, t: int)
    requires SlotsValid(db) && sourceId in db.sources && PlanFits(db, plan, direction, t)
    ensures SlotsValid(Guard(db, sourceId)) && PlanFits(Guard(db, sourceId), plan, direction, t)
    ensures Guard(db, sourceId).slots == db.slots && Guard(db, sourceId).qualifications == db.qualifications
  {
  }

  lemma QualificationStepLeaves(db: Database, plan: RecognitionPlan, direction: Direction, t: int, env: Env)
    requires SlotsValid(db) && PlanFits(db, plan, direction, t) && plan.claims.qualification.Some? && IsInstant(t)
    requires QualificationSound(db.qualifications[plan.claims.qualification.value.qualificationId])
    requires QualificationStep(db, plan, t, env).Ok?
    ensures var id, moved := plan.claims.qualification.value.qualificationId, QualificationStep(db, plan, t, env).value;
            var q := db.qualifications[id];
            && moved == db.(qualifications := moved.qualifications, slots := moved.slots)
            && moved.qualifications == db.qualifications[id := q.(state := ArrivalState(q.state, plan.decision, t),
                                                                  version := q.version + 1, updatedAt := env.now)]
            && if plan.decision.faceEffect.Release? then Frees(db.slots, moved.slots, id) else moved.slots == db.slots
  {
    var p := plan.claims.qualification.value;
    ReleaseIsFrees(db.slots, p.qualificationId, p.incarnation);
    QualificationStepShape(db, plan, direction, t, env);
  }

  lemma VisitorByDecision(db: Database, after: Database, c: Command, env: Env, e: Event, id: Uuid, d: AccessDecision)
    requires c.Recognize? && id in db.qualifications && db.qualifications[id].state.Valid()
    requires d == DecisionOn(db.qualifications[id].state, e.direction, c.receivedAt)
    requires e.outcome == d.outcome && e.reason == d.reason && e.transition == d.transition
    requires var q := db.qualifications[id];
             after.qualifications == db.qualifications[id := q.(state := ArrivalState(q.state, d, c.receivedAt),
                                                                version := q.version + 1, updatedAt := env.now)]
    requires if d.faceEffect.Release? then Frees(db.slots, after.slots, id) else after.slots == db.slots
    ensures VisitorMoved(db, after, c, env, e, id)
  {
    DecisionMoves(db.qualifications[id].state, e.direction, c.receivedAt);
  }

  /** An attempt that is recorded leaves exactly that behind. */
  lemma RecognizeLeaves(db: Database, c: Command, env: Env)
    requires Valid(db) && c.Recognize? && Run(db, c, env).Ok? && Run(db, c, env).value.1.result.Committed?
    ensures c.key.sourceId in db.sources
    ensures var (after, reply) := Run(db, c, env).value;
            AttemptDone(db, after, c, env, reply.result.event) && AttemptAbout(db, c, reply.result.event)
  {
    DecideFits(db, c);
    AttemptIsAbout(db, c, env);
    AttemptRecords(db, Decide(db, c).value.0, c, env);
  }

  /** An attempt is answered exactly if its source exists and, unless its key is stored
      already, it carries the store's comparison reference. A stored key decides alone;
      a new one is recorded. */
  lemma RecognizeAnswers(db: Database, c: Command, env: Env)
    requires Valid(db) && Ready(db, env) && c.Recognize? && IsInstant(c.receivedAt)
    ensures Run(db, c, env).Ok? <==>
              && c.key.sourceId in db.sources
              && ((exists e :: e in db.events && e.key == c.key)
                  || c.artifact.comparisonReferenceId == db.metadata.comparisonReferenceId)
    ensures Run(db, c, env).Ok? ==>
              var (after, reply) := Run(db, c, env).value;
              && (reply.result.Committed? <==> forall e :: e in db.events ==> e.key != c.key)
              && (!reply.result.Committed? ==> after == db)
              && (reply.result.Replayed? ==>
                    var e := reply.result.event; e in db.events && e.key == c.key && e.artifact == c.artifact)
              && (reply.result.IdempotencyConflict? ==>
                    exists e :: e in db.events && e.key == c.key && e.artifact != c.artifact)
  {
    if c.key.sourceId in db.sources {
      DecideSucceeds(db, c);
      DecideFits(db, c);
      var (plan, envelope) := Decide(db, c).value;
      RecordsIff(db, plan, envelope, env);
    }
  }

  lemma RecordsIff(db: Database, plan: RecognitionPlan, envelope: Envelope, env: Env)
    requires SlotsValid(db) && QualificationsSound(db.qualifications) && Ready(db, env)
             && IsInstant(envelope.receivedAt)
    requires PlanFits(db, plan, envelope.direction, envelope.receivedAt)
    requires envelope.key.sourceId in db.sources && envelope.direction == db.sources[envelope.key.sourceId].direction
    ensures RecordStep(db, plan, envelope, env).Ok? <==>
              envelope.artifact.comparisonReferenceId == db.metadata.comparisonReferenceId
    ensures RecordStep(db, plan, envelope, env).Ok? ==> RecordStep(db, plan, envelope, env).value.1.Committed?
  {
    var guarded := Guard(db, envelope.key.sourceId);
    GuardAnswers(db, envelope, env);
    QualificationStepSlots(guarded, plan, envelope, env);
    StepAnswers(guarded, plan, envelope, env);
    var moved := QualificationStep(guarded, plan, envelope.receivedAt, env).value;
    LogAnswers(moved, plan, envelope, env);
  }

  lemma GuardAnswers(db: Database, envelope: Envelope, env: Env)
    requires env.epoch == db.metadata.datasetEpoch && envelope.key.sourceId in db.sources
    requires envelope.direction == db.sources[envelope.key.sourceId].direction
    ensures GuardStep(db, envelope, env) ==
              if envelope.artifact.comparisonReferenceId == db.metadata.comparisonReferenceId
              then Ok(Guard(db, envelope.key.sourceId)) else Err(ReferenceMismatch)
  {
  }

  lemma StepAnswers(db: Database, plan: RecognitionPlan, envelope: Envelope, env: Env)
    requires SlotsValid(db) && QualificationsSound(db.qualifications) && IsInstant(env.now)
    requires IsInstant(envelope.receivedAt) && PlanFits(db, plan, envelope.direction, envelope.receivedAt)
    ensures QualificationStep(db, plan, envelope.receivedAt, env).Ok?
  {
    if plan.claims.qualification.Some? {
      var p := plan.claims.qualification.value;
      assert QualificationSound(db.qualifications[p.qualificationId]);
      ReleaseIsFrees(db.slots, p.qualificationId, p.incarnation);
      QualificationStepShape(db, plan, envelope.direction, envelope.receivedAt, env);
    }
  }

  lemma LogAnswers(db: Database, plan: RecognitionPlan, envelope: Envelope, env: Env)
    requires |db.slots| == db.metadata.slotCount && env.epoch == db.metadata.datasetEpoch && IsInstant(env.recordedAt)
    requires forall e :: e in db.events ==> e.eventId != env.eventId
    ensures LogStep(db, plan, envelope, env).Ok?
  {
  }

  /** A scan of a revoked qualification's credential, at any later time, is recorded as
      rejected: "revoked" at an entrance, "not inside" at an exit. */
  lemma RevokedIsRefused(db: Database, c: Command, env: Env, steps: seq<Step>, scan: Command, scanEnv: Env)
    requires Valid(db) && c.Revoke? && Run(db, c, env).Ok? && Run(db, c, env).value.1 == Changed
    requires c.id in db.qualifications
    requires var later := RunAll(Run(db, c, env).value.0, steps);
             && scan.Recognize? && scan.input == QrScanned(db.qualifications[c.id].qrLookupDigest)
             && ActiveSource(later, scan)
             && Run(later, scan, scanEnv).Ok? && Run(later, scan, scanEnv).value.1.result.Committed?
    ensures var later := RunAll(Run(db, c, env).value.0, steps);
            var e := Run(later, scan, scanEnv).value.1.result.event;
            && e.outcome.Rejected? && e.qualificationId == Some(c.id)
            && e.reason == if later.sources[scan.key.sourceId].direction.Entry? then QualificationRevoked else NotInside
  {
    var after := Run(db, c, env).value.0;
    var later := RunAll(after, steps);
    RevokedForGood(db, c, env, steps);
    RevokeLeaves(db, c, env);
    StepKeepsValid(db, Step(c, env));
    RunGrows(after, steps);
    RunKeepsValid(after, steps);
    RecognizeLeaves(later, scan, scanEnv);
    assert Identifies(later, scan, c.id);
  }
}
