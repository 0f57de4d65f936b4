/** What a committed use case may and may not have changed. */
module Effects {
  import opened Base
  import opened Domain
  import opened Store
  import opened UseCases
  import opened StoreInvariants
  import opened Reachable

  // ---------------------------------------------------------------- frame pieces

  /** No slot disappears, and those bound to any other qualification are exactly as before. */
  ghost predicate OtherSlotsKept(before: Slots, after: Slots, target: Uuid) {
    && before.Keys <= after.Keys
    && (forall i, k :: k != target && OwnedBy(before, i, k) ==> i in after && after[i] == before[i])
    && (forall i, k :: k != target && OwnedBy(after, i, k) ==> OwnedBy(before, i, k))
  }

  /** Guards only grow, and a metadata document that changed has a larger guard. */
  predicate GuardsGrow(before: Metadata, after: Metadata) {
    && after.datasetEpoch == before.datasetEpoch
    && after.comparisonReferenceId == before.comparisonReferenceId
    && before.qrGuard <= after.qrGuard
    && before.faceGuard <= after.faceGuard
    && (after == before || before.qrGuard + before.faceGuard < after.qrGuard + after.faceGuard)
  }

  /** A rewritten qualification keeps its identity and gains exactly one version. */
  predicate Rewritten(before: Qualification, after: Qualification) {
    && after.incarnation == before.incarnation
    && after.qrLookupDigest == before.qrLookupDigest
    && after.createdAt == before.createdAt
    && after.version == before.version + 1
    && (before.state.Terminal() ==> after.state == before.state)
  }

  /** One commit's effect on everything but the log and the sources: at most the
      target qualification moved, or was created. */
  ghost predicate Effect(before: Database, after: Database, target: Option<Uuid>) {
    && GuardsGrow(before.metadata, after.metadata)
    && before.events <= after.events
    && before.sources.Keys == after.sources.Keys
    && match target
       case None => after.qualifications == before.qualifications && after.slots == before.slots
       case Some(id) =>
         && id in after.qualifications
         && after.qualifications == before.qualifications[id := after.qualifications[id]]
         && (id in before.qualifications ==> Rewritten(before.qualifications[id], after.qualifications[id]))
         && OtherSlotsKept(before.slots, after.slots, id)
  }

  // ---------------------------------------------------------------- management

  lemma ReleaseFrame(slots: Slots, id: Uuid, incarnation: Uuid)
    requires ReleaseFace(slots, id, incarnation).Ok?
    ensures OtherSlotsKept(slots, ReleaseFace(slots, id, incarnation).value, id)
  {
  }

  lemma BindFrame(db: Database, owner: Owner, face: Face, env: Env)
    requires BindFace(db, owner, face, env).Ok?
    ensures OtherSlotsKept(db.slots, BindFace(db, owner, face, env).value.slots, owner.qualificationId)
  {
    var claimed := EmptySlotFor(db.slots, face, env.pick);
    assert claimed.Some? ==> Empty(db.slots, claimed.value);
  }

  lemma RebindFrame(db: Database, p: Provenance, mode: MappingMode, env: Env)
    requires RebindStep(db, p, mode, env).Ok?
    ensures OtherSlotsKept(db.slots, RebindStep(db, p, mode, env).value.slots, p.qualificationId)
  {
    ReleaseFrame(db.slots, p.qualificationId, p.incarnation);
    var slots := ReleaseFace(db.slots, p.qualificationId, p.incarnation).value;
    if mode.SetMapping? {
      BindFrame(db.(slots := slots), Owner(p.qualificationId, p.incarnation), mode.face, env);
    }
  }

  function Target(plan: ManagementPlan, env: Env): Uuid {
    match plan
    case CreatePlan(_, _, _, _) => env.qualificationId
    case UpdatePlan(p, _, _, _, _) => p.qualificationId
    case RevokePlan(p, _) => p.qualificationId
    case ExpirePlan(p) => p.qualificationId
  }

  /** The use case stages a plan only for a qualification that is not terminal. */
  ghost predicate PlanLive(db: Database, plan: ManagementPlan) {
    match plan
    case CreatePlan(_, _, _, _) => true
    case UpdatePlan(p, _, _, _, _) => Current(db, p).Ok? && !Current(db, p).value.state.Terminal()
    case RevokePlan(p, _) => Current(db, p).Ok? && !Current(db, p).value.state.Terminal()
    case ExpirePlan(p) => Current(db, p).Ok? && !Current(db, p).value.state.Terminal()
  }

  lemma CreateEffect(db: Database, plan: ManagementPlan, env: Env)
    requires plan.CreatePlan? && CreateStep(db, plan, env).Ok?
    requires forall i :: !OwnedBy(db.slots, i, env.qualificationId)
    ensures Effect(db, CreateStep(db, plan, env).value, Some(env.qualificationId))
    ensures CreateStep(db, plan, env).value.metadata != db.metadata
  {
    if plan.face.Some? {
      var state := QualificationState(plan.validFrom, plan.validUntil, NotEntered, None, None, None, None, None);
      var q := Qualification(env.incarnation, 0, plan.displayName, state, env.qrLookupDigest, env.now, env.now);
      BindFrame(BumpQr(db.(qualifications := db.qualifications[env.qualificationId := q])),
                Owner(env.qualificationId, env.incarnation), plan.face.value, env);
    }
  }

  lemma UpdateEffect(db: Database, plan: ManagementPlan, env: Env)
    requires plan.UpdatePlan? && UpdateStep(db, plan, env).Ok? && PlanLive(db, plan)
    ensures Effect(db, UpdateStep(db, plan, env).value, Some(plan.expected.qualificationId))
    ensures UpdateStep(db, plan, env).value.events == db.events && UpdateStep(db, plan, env).value.sources == db.sources
    ensures UpdateStep(db, plan, env).value.metadata == db.metadata <==>
              !MappingChanges(db.slots, plan.expected.qualificationId, plan.mode)
    ensures !MappingChanges(db.slots, plan.expected.qualificationId, plan.mode) ==>
              UpdateStep(db, plan, env).value.slots == db.slots
  {
    if MappingChanges(db.slots, plan.expected.qualificationId, plan.mode) {
      RebindFrame(db, plan.expected, plan.mode, env);
    }
  }

  lemma ReleaseStepEffect(db: Database, p: Provenance, q: Qualification, env: Env)
    requires Current(db, p).Ok? && Rewritten(db.qualifications[p.qualificationId], q)
    requires ReleaseStep(db.(qualifications := db.qualifications[p.qualificationId := q]), p, env).Ok?
    ensures var after := ReleaseStep(db.(qualifications := db.qualifications[p.qualificationId := q]), p, env).value;
            Effect(db, after, Some(p.qualificationId)) && after.metadata != db.metadata
            && after.events == db.events && after.sources == db.sources
  {
    ReleaseFrame(db.slots, p.qualificationId, p.incarnation);
  }

  /** Everything a committed management plan may have changed. Only an UPDATE that
      leaves the mapping alone commits without touching the metadata. */
  lemma ManagementEffect(db: Database, plan: ManagementPlan, receivedAt: int, env: Env)
    requires ApplyManagement(db, plan, receivedAt, env).Ok? && PlanLive(db, plan)
    requires OwnersLive(db.slots, db.qualifications)
    ensures var after := ApplyManagement(db, plan, receivedAt, env).value;
            && Effect(db, after, Some(Target(plan, env)))
            && after.events == db.events
            && after.sources == db.sources
            && (plan.CreatePlan? <==> Target(plan, env) !in db.qualifications)
            && (after.metadata == db.metadata <==>
                  plan.UpdatePlan? && !MappingChanges(db.slots, Target(plan, env), plan.mode))
            && (after.metadata == db.metadata ==> after.slots == db.slots)
  {
    match plan
    case CreatePlan(_, _, _, _) => CreateEffect(db, plan, env);
    case UpdatePlan(_, _, _, _, _) => UpdateEffect(db, plan, env);
    case RevokePlan(p, reason) =>
      var q := db.qualifications[p.qualificationId];
      ReleaseStepEffect(db, p, q.(state := q.state.(revokedAt := Some(receivedAt), revocationReason := Some(reason)),
                                  version := q.version + 1, updatedAt := env.now), env);
    case ExpirePlan(p) =>
      var q := db.qualifications[p.qualificationId];
      ReleaseStepEffect(db, p, q.(state := q.state.(expiredTerminalAt := Some(receivedAt)),
                                  version := q.version + 1, updatedAt := env.now), env);
  }

  /** The plan, if any, that a management command stages on this store. */
  ghost function StagedPlan(db: Database, c: Command): Option<ManagementPlan> {
    match c
    case Create(name, from, until, face, _) => Some(CreatePlan(name, from, until, face))
    case Update(id, _, _, _, _, t) =>
      if id !in db.qualifications then None
      else
        var q := db.qualifications[id];
        if NeedsTerminalExpiry(q.state, t) then Some(ExpirePlan(ProvenanceOf(id, q))) else Some(PlanOf(c, q))
    case Revoke(id, reason, t) =>
      if id !in db.qualifications then None
      else
        var q := db.qualifications[id];
        if NeedsTerminalExpiry(q.state, t) then Some(ExpirePlan(ProvenanceOf(id, q)))
        else Some(RevokePlan(ProvenanceOf(id, q), reason))
    case Recognize(_, _, _, _) => None
  }

  /** A committed management command applied exactly its staged plan. */
  lemma CommittedPlan(db: Database, c: Command, env: Env)
    requires !c.Recognize? && Run(db, c, env).Ok?
    ensures var plan := StagedPlan(db, c);
            && plan.Some?
            && PlanLive(db, plan.value)
            && ApplyManagement(db, plan.value, c.receivedAt, env) == Ok(Run(db, c, env).value.0)
            && Run(db, c, env).value.1 == (if plan.value.ExpirePlan? then ExpiredTerminalPersisted else Changed)
  {
  }

  // --------------------------------------------------------------- recognition

  function PlanTarget(plan: RecognitionPlan): Option<Uuid> {
    match plan.claims.qualification
    case None => None
    case Some(p) => Some(p.qualificationId)
  }

  lemma QualificationStepEffect(db: Database, plan: RecognitionPlan, direction: Direction, receivedAt: int, env: Env)
    requires QualificationsSound(db.qualifications) && IsInstant(receivedAt)
    requires PlanFits(db, plan, direction, receivedAt)
    requires QualificationStep(db, plan, receivedAt, env).Ok?
    ensures Effect(db, QualificationStep(db, plan, receivedAt, env).value, PlanTarget(plan))
    ensures QualificationStep(db, plan, receivedAt, env).value.(qualifications := db.qualifications,
                                                                slots := db.slots) == db
  {
    if plan.claims.qualification.Some? {
      var p := plan.claims.qualification.value;
      assert QualificationSound(db.qualifications[p.qualificationId]);
      if plan.decision.faceEffect.Release? {
        ReleaseFrame(db.slots, p.qualificationId, p.incarnation);
      }
    }
  }

  lemma RecordEffect(db: Database, plan: RecognitionPlan, envelope: Envelope, env: Env)
    requires QualificationsSound(db.qualifications) && IsInstant(envelope.receivedAt)
    requires PlanFits(db, plan, envelope.direction, envelope.receivedAt)
    requires FindEvent(db.events, envelope.key).None?
    requires RecordStep(db, plan, envelope, env).Ok?
    ensures var after := RecordStep(db, plan, envelope, env).value.0;
            && Effect(db, after, PlanTarget(plan))
            && after.metadata != db.metadata
            && after.events == db.events + [NewEvent(plan, envelope, env)]
            && RecordStep(db, plan, envelope, env).value.1 == Committed(NewEvent(plan, envelope, env))
  {
    RecordShape(db, plan, envelope, env);
    QualificationStepEffect(Guard(db, envelope.key.sourceId), plan, envelope.direction, envelope.receivedAt, env);
  }

  // ------------------------------------------------------------------- one step

  /** Along any commit: the log and the set of sources only grow, identities
      stay, and a terminal qualification's state never changes again. */
  ghost predicate Grows(before: Database, after: Database) {
    && before.events <= after.events
    && before.slots.Keys <= after.slots.Keys
    && before.sources.Keys == after.sources.Keys
    && before.metadata.datasetEpoch == after.metadata.datasetEpoch
    && before.metadata.comparisonReferenceId == after.metadata.comparisonReferenceId
    && forall id :: id in before.qualifications ==>
         && id in after.qualifications
         && before.qualifications[id].incarnation == after.qualifications[id].incarnation
         && before.qualifications[id].qrLookupDigest == after.qualifications[id].qrLookupDigest
         && before.qualifications[id].createdAt == after.qualifications[id].createdAt
         && (before.qualifications[id].state.Terminal() ==>
               after.qualifications[id].state == before.qualifications[id].state)
  }

  lemma RecognitionGrows(db: Database, c: Command, env: Env) returns (target: Option<Uuid>)
    requires SlotsValid(db) && QualificationsSound(db.qualifications) && c.Recognize? && Run(db, c, env).Ok?
    ensures Run(db, c, env).value.0 == db || Effect(db, Run(db, c, env).value.0, target)
  {
    DecideFits(db, c);
    var (plan, envelope) := Decide(db, c).value;
    target := PlanTarget(plan);
    if FindEvent(db.events, envelope.key).None? {
      RecordEffect(db, plan, envelope, env);
    }
  }

  lemma EffectGrows(before: Database, after: Database, target: Option<Uuid>)
    requires Effect(before, after, target)
    ensures Grows(before, after)
  {
  }

  /** The effect of one step: nothing, or one of the effects above. */
  lemma StepEffect(db: Database, step: Step) returns (target: Option<Uuid>)
    requires Valid(db)
    ensures After(db, step) != db ==> Effect(db, After(db, step), target)
    ensures Grows(db, After(db, step))
  {
    var c, env := step.command, step.env;
    target := None;
    if Run(db, c, env).Ok? {
      if c.Recognize? {
        target := RecognitionGrows(db, c, env);
      } else {
        CommittedPlan(db, c, env);
        var plan := StagedPlan(db, c).value;
        target := Some(Target(plan, env));
        ManagementEffect(db, plan, c.receivedAt, env);
      }
      if After(db, step) != db {
        EffectGrows(db, After(db, step), target);
      }
    }
  }

  lemma {:induction false} RunGrows(db: Database, steps: seq<Step>)
    requires Valid(db)
    ensures Grows(db, RunAll(db, steps))
  {
    if steps != [] {
      var mid := RunAll(db, steps[..|steps| - 1]);
      RunGrows(db, steps[..|steps| - 1]);
      RunKeepsValid(db, steps[..|steps| - 1]);
      var target := StepEffect(mid, steps[|steps| - 1]);
    }
  }
}
