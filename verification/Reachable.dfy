/** Recognition keeps the store valid, and the theorems over whole runs. */
module Reachable {
  import opened Base
  import opened Domain
  import opened Store
  import opened UseCases
  import opened StoreInvariants
  import opened StoreSafety

  // --------------------------------------------------------------- recognition

  predicate UnqualifiedReason(r: Reason) {
    r.SourceInactive? || r.InvalidQrCredential? || r.FaceIsUnknown? || r.FaceSubjectNotMapped?
  }

  /** A plan fits a store when it was decided on the qualification stored there:
      without a qualification it is an effect-free rejection, with one it is the
      decision of the source's direction on the current document. */
  ghost predicate PlanFits(db: Database, plan: RecognitionPlan, direction: Direction, receivedAt: int) {
    match plan.claims.qualification
    case None => UnqualifiedReason(plan.decision.reason) && plan.decision == Reject(plan.decision.reason)
    case Some(p) =>
      && Current(db, p).Ok?
      && var state := Current(db, p).value.state;
         plan.decision == DecisionOn(state, direction, receivedAt)
  }

  lemma ResolveClaims(db: Database, active: bool, input: RecognitionInput)
    requires SlotsValid(db) && QualificationsSound(db.qualifications)
    ensures var r := Resolve(db, active, input);
            && (r.Err? ==> !Internal(r.error))
            && (r.Ok? ==>
                  && r.value.media == MediaOf(input)
                  && (!active || input.UnknownFace? ==> r.value.qualification.None?)
                  && (r.value.qualification.None? ==> r.value.mapping.None?)
                  && (r.value.qualification.Some? ==>
                        var p := r.value.qualification.value;
                        && Current(db, p).Ok?
                        && CurrentMapping(db.slots, p.qualificationId, None) == Ok(r.value.mapping)))
  {
    if active {
      match input
      case QrScanned(digest) =>
        if exists id :: id in db.qualifications && db.qualifications[id].qrLookupDigest == digest {
          var id :| id in db.qualifications && db.qualifications[id].qrLookupDigest == digest;
          CurrentSlotFinds(db.slots, id);
        }
      case MatchedFace(face) =>
        if exists i :: BoundFace(db.slots, i, face) {
          var i :| BoundFace(db.slots, i, face);
          var id := db.slots[i].owner.value.qualificationId;
          assert OwnedBy(db.slots, i, id);
          CurrentSlotFinds(db.slots, id);
        }
      case UnknownFace =>
    }
  }

  /** The scope's handle checks never fire inside one snapshot, and what they let
      through is a plan decided on the stored qualification. */
  lemma DecideFits(db: Database, c: Command)
    requires SlotsValid(db) && QualificationsSound(db.qualifications) && c.Recognize?
    ensures Decide(db, c).Err? ==> !Internal(Decide(db, c).error)
    ensures Decide(db, c).Ok? ==>
              var (plan, envelope) := Decide(db, c).value;
              && c.key.sourceId in db.sources
              && envelope == Envelope(c.key, db.sources[c.key.sourceId].direction, c.receivedAt, c.artifact)
              && IsInstant(c.receivedAt)
              && plan.claims.media == MediaOf(c.input)
              && PlanFits(db, plan, envelope.direction, c.receivedAt)
              && CheckHandle(db, plan).Ok?
  {
    if IsInstant(c.receivedAt) && c.key.sourceId in db.sources {
      ResolveClaims(db, db.sources[c.key.sourceId].active, c.input);
    }
  }

  /** Deciding never fails on a valid store whose source exists. */
  lemma DecideSucceeds(db: Database, c: Command)
    requires SlotsValid(db) && QualificationsSound(db.qualifications)
    requires c.Recognize? && IsInstant(c.receivedAt) && c.key.sourceId in db.sources
    ensures Decide(db, c).Ok? && CheckHandle(db, Decide(db, c).value.0).Ok?
  {
    ResolveClaims(db, db.sources[c.key.sourceId].active, c.input);
    DecideFits(db, c);
    if c.input.QrScanned? {
      var digest := c.input.lookupDigest;
      if exists id :: id in db.qualifications && db.qualifications[id].qrLookupDigest == digest {
        var id :| id in db.qualifications && db.qualifications[id].qrLookupDigest == digest;
        CurrentSlotFinds(db.slots, id);
      }
    }
  }

  lemma OwnersSurviveSameState(slots: Slots, qs: map<Uuid, Qualification>, id: Uuid, q: Qualification)
    requires OwnersLive(slots, qs)
    requires id in qs && qs[id].incarnation == q.incarnation && qs[id].state == q.state
    ensures OwnersLive(slots, qs[id := q])
  {
  }

  function DecisionOn(state: QualificationState, direction: Direction, receivedAt: int): AccessDecision {
    if direction.Entry? then DecideEntry(state, receivedAt) else DecideExit(state)
  }

  /** Applying a decision to the state it was made on keeps the state sound,
      extends its history by exactly the accepted event, and ends it unless the
      slot is kept. */
  lemma ArrivalSound(before: Qualification, after: Qualification, direction: Direction, receivedAt: int)
    requires QualificationSound(before) && IsInstant(receivedAt)
    requires after.state == ArrivalState(before.state, DecisionOn(before.state, direction, receivedAt), receivedAt)
    ensures QualificationSound(after)
    ensures var d := DecisionOn(before.state, direction, receivedAt);
            && HistoryOf(after.state) == HistoryOf(before.state)
               + (if d.outcome.Accepted? then [(d.reason, receivedAt)] else [])
            && (d.faceEffect.Keep? ==> after.state == before.state || !after.state.Terminal())
            && (d.transition.Some? ==> d.transition.value.from == before.state.presence)
  {
  }

  lemma PlannedEventSound(db: Database, plan: RecognitionPlan, envelope: Envelope, env: Env)
    requires PlanFits(db, plan, envelope.direction, envelope.receivedAt)
    ensures EventSound(NewEvent(plan, envelope, env))
  {
  }

  lemma OwnMove(qs: map<Uuid, Qualification>, id: Uuid, q: Qualification, e: Event)
    requires id in qs && e.qualificationId == Some(id)
    requires qs[id].state.Valid() && QualificationSound(q) && q.qrLookupDigest == qs[id].qrLookupDigest
    requires HistoryOf(q.state) == HistoryOf(qs[id].state)
             + (if e.outcome.Accepted? then [(e.reason, e.receivedAt)] else [])
    ensures MovedBy(qs, qs[id := q], e)
  {
  }

  /** The slots after the optional release, next to the rewritten qualification. */
  lemma SlotsAfterArrival(db: Database, p: Provenance, q: Qualification, effect: FaceEffect)
    requires SlotsValid(db) && Current(db, p).Ok? && q.incarnation == p.incarnation
    requires effect.Keep? ==> q.state == db.qualifications[p.qualificationId].state || !q.state.Terminal()
    ensures ReleaseFace(db.slots, p.qualificationId, p.incarnation).Ok?
    ensures var slots := if effect.Release? then ReleaseFace(db.slots, p.qualificationId, p.incarnation).value
            else db.slots;
            SlotsValid(db.(slots := slots, qualifications := db.qualifications[p.qualificationId := q]))
  {
    OwnersSurviveRelease(db.slots, db.qualifications, p.qualificationId, q);
    if effect.Keep? {
      if q.state == db.qualifications[p.qualificationId].state {
        OwnersSurviveSameState(db.slots, db.qualifications, p.qualificationId, q);
      } else {
        OwnersSurviveLiveWrite(db.slots, db.qualifications, p.qualificationId, q);
      }
    }
  }

  /** What QualificationStep does with a plan that fits. */
  lemma QualificationStepShape(db: Database, plan: RecognitionPlan, direction: Direction, receivedAt: int, env: Env)
    requires PlanFits(db, plan, direction, receivedAt) && plan.claims.qualification.Some?
    requires var p := plan.claims.qualification.value;
             && QualificationSound(db.qualifications[p.qualificationId]) && IsInstant(receivedAt)
             && ReleaseFace(db.slots, p.qualificationId, p.incarnation).Ok?
    ensures var p := plan.claims.qualification.value;
            var before := db.qualifications[p.qualificationId];
            var q := before.(state := ArrivalState(before.state, plan.decision, receivedAt),
                             version := before.version + 1, updatedAt := env.now);
            var slots := if plan.decision.faceEffect.Release?
                         then ReleaseFace(db.slots, p.qualificationId, p.incarnation).value else db.slots;
            QualificationStep(db, plan, receivedAt, env) ==
              if IsInstant(env.now)
              then Ok(db.(qualifications := db.qualifications[p.qualificationId := q], slots := slots))
              else Err(ClockInvalid)
  {
  }

  lemma QualificationStepMoves(db: Database, plan: RecognitionPlan, envelope: Envelope, env: Env)
    requires SlotsValid(db) && QualificationsSound(db.qualifications)
    requires PlanFits(db, plan, envelope.direction, envelope.receivedAt) && IsInstant(envelope.receivedAt)
    requires QualificationStep(db, plan, envelope.receivedAt, env).Ok?
    ensures MovedBy(db.qualifications, QualificationStep(db, plan, envelope.receivedAt, env).value.qualifications,
                    NewEvent(plan, envelope, env))
  {
    if plan.claims.qualification.Some? {
      var id := plan.claims.qualification.value.qualificationId;
      var before := db.qualifications[id];
      assert QualificationSound(before);
      var q := before.(state := ArrivalState(before.state, plan.decision, envelope.receivedAt),
                       version := before.version + 1, updatedAt := env.now);
      ArrivalSound(before, q, envelope.direction, envelope.receivedAt);
      OwnMove(db.qualifications, id, q, NewEvent(plan, envelope, env));
      QualificationStepShape(db, plan, envelope.direction, envelope.receivedAt, env);
    }
  }

  lemma QualificationStepSlots(db: Database, plan: RecognitionPlan, envelope: Envelope, env: Env)
    requires SlotsValid(db) && QualificationsSound(db.qualifications)
    requires PlanFits(db, plan, envelope.direction, envelope.receivedAt) && IsInstant(envelope.receivedAt)
    ensures var r := QualificationStep(db, plan, envelope.receivedAt, env);
            && (r.Err? ==> !Internal(r.error))
            && (r.Ok? ==>
                  && SlotsValid(r.value)
                  && r.value == db.(qualifications := r.value.qualifications, slots := r.value.slots))
  {
    if plan.claims.qualification.Some? {
      var p := plan.claims.qualification.value;
      var before := db.qualifications[p.qualificationId];
      assert QualificationSound(before);
      var q := before.(state := ArrivalState(before.state, plan.decision, envelope.receivedAt),
                       version := before.version + 1, updatedAt := env.now);
      ArrivalSound(before, q, envelope.direction, envelope.receivedAt);
      SlotsAfterArrival(db, p, q, plan.decision.faceEffect);
      QualificationStepShape(db, plan, envelope.direction, envelope.receivedAt, env);
    }
  }

  /** Applying a fitting plan moves its qualification by exactly what will be
      logged, and leaves the slots valid. */
  lemma QualificationStepKeeps(db: Database, plan: RecognitionPlan, envelope: Envelope, env: Env)
    requires SlotsValid(db) && QualificationsSound(db.qualifications)
    requires PlanFits(db, plan, envelope.direction, envelope.receivedAt) && IsInstant(envelope.receivedAt)
    ensures var r := QualificationStep(db, plan, envelope.receivedAt, env);
            && (r.Err? ==> !Internal(r.error))
            && (r.Ok? ==>
                  && SlotsValid(r.value)
                  && r.value == db.(qualifications := r.value.qualifications, slots := r.value.slots)
                  && MovedBy(db.qualifications, r.value.qualifications, NewEvent(plan, envelope, env)))
  {
    QualificationStepSlots(db, plan, envelope, env);
    if QualificationStep(db, plan, envelope.receivedAt, env).Ok? { QualificationStepMoves(db, plan, envelope, env); }
  }

  /** Bumping a source version changes nothing the invariant speaks about. */
  function Guard(db: Database, sourceId: Uuid): Database
    requires sourceId in db.sources
  {
    var source := db.sources[sourceId];
    db.(sources := db.sources[sourceId := source.(version := source.version + 1)])
  }

  lemma GuardShape(db: Database, envelope: Envelope, env: Env)
    ensures var r := GuardStep(db, envelope, env);
            && (r.Err? ==> !Internal(r.error))
            && (r.Ok? ==> envelope.key.sourceId in db.sources && r.value == Guard(db, envelope.key.sourceId))
  {
  }

  lemma LogShape(db: Database, plan: RecognitionPlan, envelope: Envelope, env: Env)
    ensures var r := LogStep(db, plan, envelope, env);
            && (r.Err? && Internal(r.error) ==> |db.slots| != db.metadata.slotCount)
            && (r.Ok? ==>
                  && r.value == db.(metadata := r.value.metadata, events := db.events + [NewEvent(plan, envelope, env)])
                  && r.value.metadata == (if plan.claims.media.Qr? then BumpQr(db) else BumpFace(db)).metadata
                  && forall e :: e in db.events ==> e.eventId != env.eventId)
  {
  }

  lemma RecordErrors(db: Database, plan: RecognitionPlan, envelope: Envelope, env: Env)
    requires RecordStep(db, plan, envelope, env).Err? && Internal(RecordStep(db, plan, envelope, env).error)
    ensures envelope.key.sourceId in db.sources
    ensures var moved := QualificationStep(Guard(db, envelope.key.sourceId), plan, envelope.receivedAt, env);
            (moved.Err? && Internal(moved.error))
              || (moved.Ok? && |moved.value.slots| != moved.value.metadata.slotCount)
  {
    GuardShape(db, envelope, env);
    var moved := QualificationStep(Guard(db, envelope.key.sourceId), plan, envelope.receivedAt, env);
    if moved.Ok? {
      LogShape(moved.value, plan, envelope, env);
    }
  }

  lemma RecordFailures(db: Database, plan: RecognitionPlan, envelope: Envelope, env: Env)
    requires SlotsValid(db) && QualificationsSound(db.qualifications) && IsInstant(envelope.receivedAt)
    requires PlanFits(db, plan, envelope.direction, envelope.receivedAt)
    ensures RecordStep(db, plan, envelope, env).Err? ==> !Internal(RecordStep(db, plan, envelope, env).error)
  {
    var r := RecordStep(db, plan, envelope, env);
    if r.Err? && Internal(r.error) {
      RecordErrors(db, plan, envelope, env);
      QualificationStepKeeps(Guard(db, envelope.key.sourceId), plan, envelope, env);
    }
  }

  /** The transaction-wide part of recording: source, guard and event. */
  lemma RecordShape(db: Database, plan: RecognitionPlan, envelope: Envelope, env: Env)
    requires RecordStep(db, plan, envelope, env).Ok?
    ensures envelope.key.sourceId in db.sources
    ensures QualificationStep(Guard(db, envelope.key.sourceId), plan, envelope.receivedAt, env).Ok?
    ensures var moved := QualificationStep(Guard(db, envelope.key.sourceId), plan, envelope.receivedAt, env).value;
            var (after, result) := RecordStep(db, plan, envelope, env).value;
            && result == Committed(NewEvent(plan, envelope, env))
            && after == moved.(metadata := after.metadata, events := moved.events + [NewEvent(plan, envelope, env)])
            && after.metadata == (if plan.claims.media.Qr? then BumpQr(moved) else BumpFace(moved)).metadata
            && forall e :: e in moved.events ==> e.eventId != env.eventId
  {
    GuardShape(db, envelope, env);
    var moved := QualificationStep(Guard(db, envelope.key.sourceId), plan, envelope.receivedAt, env);
    LogShape(moved.value, plan, envelope, env);
  }

  lemma UnknownKey(events: seq<Event>, key: EventKey)
    requires FindEvent(events, key).None?
    ensures forall k :: 0 <= k < |events| ==> events[k].key != key
  {
  }

  lemma LoggedKeepsValid(db: Database, moved: Database, after: Database, e: Event)
    requires Valid(db) && SlotsValid(moved) && MovedBy(db.qualifications, moved.qualifications, e)
    requires after == moved.(metadata := after.metadata, events := db.events + [e])
    requires after.metadata.slotCount == moved.metadata.slotCount
    requires EventSound(e) && NewKey(db, e)
    requires e.qualificationId.Some? ==> e.qualificationId.value in db.qualifications
    ensures Valid(after)
  {
    assert SlotsValid(after);
    LogKeepsValid(db, after, e);
  }

  lemma RecordKeeps(db: Database, plan: RecognitionPlan, envelope: Envelope, env: Env)
    requires Valid(db) && IsInstant(envelope.receivedAt)
    requires PlanFits(db, plan, envelope.direction, envelope.receivedAt)
    requires FindEvent(db.events, envelope.key).None?
    requires RecordStep(db, plan, envelope, env).Ok?
    ensures Valid(RecordStep(db, plan, envelope, env).value.0)
  {
    RecordShape(db, plan, envelope, env);
    var guarded := Guard(db, envelope.key.sourceId);
    var moved := QualificationStep(guarded, plan, envelope.receivedAt, env).value;
    QualificationStepKeeps(guarded, plan, envelope, env);
    PlannedEventSound(db, plan, envelope, env);
    UnknownKey(db.events, envelope.key);
    LoggedKeepsValid(db, moved, RecordStep(db, plan, envelope, env).value.0, NewEvent(plan, envelope, env));
  }

  lemma ApplyRecognitionKeeps(db: Database, plan: RecognitionPlan, envelope: Envelope, env: Env)
    requires Valid(db) && IsInstant(envelope.receivedAt)
    requires PlanFits(db, plan, envelope.direction, envelope.receivedAt)
    ensures var r := ApplyRecognition(db, plan, envelope, env);
            && (r.Err? ==> !Internal(r.error))
            && (r.Ok? ==> Valid(r.value.0))
  {
    if FindEvent(db.events, envelope.key).None? {
      RecordFailures(db, plan, envelope, env);
      if RecordStep(db, plan, envelope, env).Ok? {
        RecordKeeps(db, plan, envelope, env);
      }
    }
  }

  // ------------------------------------------------------------------- one step

  lemma RunCreateKeeps(db: Database, c: Command, env: Env)
    requires Valid(db) && c.Create? && RunCreate(db, c, env).Ok?
    ensures Valid(RunCreate(db, c, env).value.0)
  {
    CreateKeepsValid(db, CreatePlan(c.displayName, c.validFrom, c.validUntil, c.face), env);
  }

  /** The plan an allowed update stages. */
  function PlanOf(c: Command, q: Qualification): ManagementPlan
    requires c.Update?
  {
    UpdatePlan(ProvenanceOf(c.id, q), OrElse(c.name, q.displayName), OrElse(c.from, q.state.validFrom),
               OrElse(c.until, q.state.validUntil), ModeOf(c.faceField))
  }

  /** A committed update either applied its plan or expired its qualification. */
  lemma UpdateOutcome(db: Database, c: Command, env: Env)
    requires c.Update? && RunUpdate(db, c, env).Ok?
    ensures c.id in db.qualifications && IsInstant(c.receivedAt)
    ensures var q := db.qualifications[c.id];
            var after := RunUpdate(db, c, env).value.0;
            || (&& DecideUpdate(q.state, OrElse(c.from, q.state.validFrom), OrElse(c.until, q.state.validUntil),
                                c.receivedAt) == Ok(Allowed)
                && UpdateStep(db, PlanOf(c, q), env) == Ok(after))
            || ExpireStep(db, ProvenanceOf(c.id, q), c.receivedAt, env) == Ok(after)
  {
  }

  lemma RunUpdateKeeps(db: Database, c: Command, env: Env)
    requires Valid(db) && c.Update? && RunUpdate(db, c, env).Ok?
    ensures Valid(RunUpdate(db, c, env).value.0)
  {
    UpdateOutcome(db, c, env);
    var q := db.qualifications[c.id];
    var after := RunUpdate(db, c, env).value.0;
    if ExpireStep(db, ProvenanceOf(c.id, q), c.receivedAt, env) == Ok(after) {
      ExpireKeepsValid(db, ProvenanceOf(c.id, q), c.receivedAt, env);
    } else {
      UpdateKeepsValid(db, PlanOf(c, q), c.receivedAt, env);
    }
  }

  lemma RunRevokeKeeps(db: Database, c: Command, env: Env)
    requires Valid(db) && c.Revoke? && RunRevoke(db, c, env).Ok?
    ensures Valid(RunRevoke(db, c, env).value.0)
  {
    var p := ProvenanceOf(c.id, db.qualifications[c.id]);
    if DecideRevocation(db.qualifications[c.id].state, c.receivedAt, c.reason) == Ok(Allowed) {
      RevokeKeepsValid(db, p, c.reason, c.receivedAt, env);
    } else {
      ExpireKeepsValid(db, p, c.receivedAt, env);
    }
  }

  lemma RunRecognizeKeeps(db: Database, c: Command, env: Env)
    requires Valid(db) && c.Recognize? && RunRecognize(db, c, env).Ok?
    ensures Valid(RunRecognize(db, c, env).value.0)
  {
    DecideFits(db, c);
    var (plan, envelope) := Decide(db, c).value;
    ApplyRecognitionKeeps(db, plan, envelope, env);
  }

  /** Every use case on every valid store commits a valid store or nothing. */
  lemma StepKeepsValid(db: Database, step: Step)
    requires Valid(db)
    ensures Valid(After(db, step))
  {
    var c, env := step.command, step.env;
    if Run(db, c, env).Ok? {
      match c
      case Create(_, _, _, _, _) => RunCreateKeeps(db, c, env);
      case Update(_, _, _, _, _, _) => RunUpdateKeeps(db, c, env);
      case Revoke(_, _, _) => RunRevokeKeeps(db, c, env);
      case Recognize(_, _, _, _) => RunRecognizeKeeps(db, c, env);
    }
  }

  /** Every store of every run from a valid store is valid. */
  lemma {:induction false} RunKeepsValid(db: Database, steps: seq<Step>)
    requires Valid(db)
    ensures Valid(RunAll(db, steps))
  {
    if steps != [] {
      RunKeepsValid(db, steps[..|steps| - 1]);
      StepKeepsValid(RunAll(db, steps[..|steps| - 1]), steps[|steps| - 1]);
    }
  }

  // -------------------------------------------------- no internal check ever fires

  lemma ExpireNeverTrips(db: Database, id: Uuid, receivedAt: int, env: Env)
    requires SlotsValid(db) && id in db.qualifications
    requires NeedsTerminalExpiry(db.qualifications[id].state, receivedAt)
    ensures var r := ApplyManagement(db, ExpirePlan(ProvenanceOf(id, db.qualifications[id])), receivedAt, env);
            && (r.Err? ==> !Internal(r.error))
            && (IsInstant(env.now) && IsInstant(receivedAt) && db.metadata.datasetEpoch == env.epoch ==> r.Ok?)
  {
    var before := db.qualifications[id];
    var q := Touch(db, id, before.(state := before.state.(expiredTerminalAt := Some(receivedAt))),
                   env.now).qualifications[id];
    ReleaseStepKeeps(db, ProvenanceOf(id, before), q, db.(qualifications := db.qualifications[id := q]), env);
  }

  lemma RevokeNeverTrips(db: Database, id: Uuid, reason: string, receivedAt: int, env: Env)
    requires SlotsValid(db) && id in db.qualifications
    ensures var r := ApplyManagement(db, RevokePlan(ProvenanceOf(id, db.qualifications[id]), reason), receivedAt, env);
            r.Err? ==> !Internal(r.error)
  {
    var before := db.qualifications[id];
    var q := Touch(db, id, before.(state := before.state.(revokedAt := Some(receivedAt),
                                                          revocationReason := Some(reason))), env.now)
             .qualifications[id];
    ReleaseStepKeeps(db, ProvenanceOf(id, before), q, db.(qualifications := db.qualifications[id := q]), env);
  }

  lemma UpdateNeverTrips(db: Database, plan: ManagementPlan, env: Env)
    requires SlotsValid(db) && plan.UpdatePlan? && Current(db, plan.expected).Ok?
    requires !Current(db, plan.expected).value.state.Terminal()
    ensures UpdateStep(db, plan, env).Err? ==> !Internal(UpdateStep(db, plan, env).error)
  {
    CurrentSlotFinds(db.slots, plan.expected.qualificationId);
    RebindKeeps(db, plan.expected, plan.mode, env);
  }

  lemma CreateNeverTrips(db: Database, plan: ManagementPlan, env: Env)
    requires SlotsValid(db) && plan.CreatePlan?
    ensures CreateStep(db, plan, env).Err? ==> !Internal(CreateStep(db, plan, env).error)
  {
    var id := env.qualificationId;
    if plan.face.Some? && id !in db.qualifications {
      var state := QualificationState(plan.validFrom, plan.validUntil, NotEntered, None, None, None, None, None);
      var q := Qualification(env.incarnation, 0, plan.displayName, state, env.qrLookupDigest, env.now, env.now);
      var inserted := BumpQr(db.(qualifications := db.qualifications[id := q]));
      OwnersSurviveLiveWrite(db.slots, db.qualifications, id, q);
      OwnersSurviveBind(inserted, inserted.qualifications, Owner(id, env.incarnation), plan.face.value, env);
    }
  }

  lemma RefuseOrExpireNeverTrips(db: Database, id: Uuid, reason: ManagementRejection, receivedAt: int, env: Env)
    requires SlotsValid(db) && id in db.qualifications
    ensures var r := RefuseOrExpire(db, id, db.qualifications[id], reason, receivedAt, env);
            r.Err? ==> !Internal(r.error)
  {
    if NeedsTerminalExpiry(db.qualifications[id].state, receivedAt) {
      ExpireNeverTrips(db, id, receivedAt, env);
    }
  }

  lemma RunUpdateNeverTrips(db: Database, c: Command, env: Env)
    requires SlotsValid(db) && c.Update?
    ensures RunUpdate(db, c, env).Err? ==> !Internal(RunUpdate(db, c, env).error)
  {
    if c.id in db.qualifications {
      var q := db.qualifications[c.id];
      CurrentSlotFinds(db.slots, c.id);
      var verdict := DecideUpdate(q.state, OrElse(c.from, q.state.validFrom), OrElse(c.until, q.state.validUntil),
                                  c.receivedAt);
      if verdict == Ok(Allowed) {
        UpdateNeverTrips(db, PlanOf(c, q), env);
      } else if verdict.Ok? {
        RefuseOrExpireNeverTrips(db, c.id, verdict.value.reason, c.receivedAt, env);
      }
    }
  }

  lemma RunRevokeNeverTrips(db: Database, c: Command, env: Env)
    requires SlotsValid(db) && c.Revoke?
    ensures RunRevoke(db, c, env).Err? ==> !Internal(RunRevoke(db, c, env).error)
  {
    if c.id in db.qualifications {
      var verdict := DecideRevocation(db.qualifications[c.id].state, c.receivedAt, c.reason);
      if verdict == Ok(Allowed) {
        RevokeNeverTrips(db, c.id, c.reason, c.receivedAt, env);
      } else if verdict.Ok? {
        RefuseOrExpireNeverTrips(db, c.id, verdict.value.reason, c.receivedAt, env);
      }
    }
  }

  lemma RunRecognizeNeverTrips(db: Database, c: Command, env: Env)
    requires Valid(db) && c.Recognize?
    ensures RunRecognize(db, c, env).Err? ==> !Internal(RunRecognize(db, c, env).error)
  {
    DecideFits(db, c);
    if Decide(db, c).Ok? {
      var (plan, envelope) := Decide(db, c).value;
      ApplyRecognitionKeeps(db, plan, envelope, env);
    }
  }

  /** On a valid store no use case fails on an internal consistency check: stale
      provenance, expiry and presence guards, multiple or stale mappings, handle
      mismatch and the slot recount are all unreachable. */
  lemma NoInternalFailure(db: Database, c: Command, env: Env)
    requires Valid(db)
    ensures Run(db, c, env).Err? ==> !Internal(Run(db, c, env).error)
  {
    match c
    case Create(name, from, until, face, _) => CreateNeverTrips(db, CreatePlan(name, from, until, face), env);
    case Update(_, _, _, _, _, _) => RunUpdateNeverTrips(db, c, env);
    case Revoke(_, _, _) => RunRevokeNeverTrips(db, c, env);
    case Recognize(_, _, _, _) => RunRecognizeNeverTrips(db, c, env);
  }
}
