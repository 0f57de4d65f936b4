/** The persisted documents and what one transaction's commands do to them. */
module Store {
  import opened Base
  import opened Domain

  const FACE_SLOT_CAPACITY := 4096

  // ----------------------------------------------------------------- documents

  datatype Qualification = Qualification(
    incarnation: Uuid,
    version: nat,
    displayName: string,
    state: QualificationState,
    qrLookupDigest: Uuid,
    createdAt: int,
    updatedAt: int)

  datatype Owner = Owner(qualificationId: Uuid, incarnation: Uuid)

  datatype Face = Face(provider: string, subject: string)

  /** A slot keeps its (provider, subject) after release; only the owner clears. */
  datatype Slot = Slot(face: Face, owner: Option<Owner>, slotIncarnation: Uuid, version: nat)

  datatype Source = Source(direction: Direction, active: bool, incarnation: Uuid, version: nat)

  datatype Artifact = Artifact(inputHmac: Uuid, comparisonReferenceId: Uuid)

  datatype Media = Qr | FaceMatched | FaceUnknown

  datatype EventKey = EventKey(sourceId: Uuid, externalEventId: string)

  datatype Event = Event(
    eventId: Uuid,
    key: EventKey,
    kind: Media,
    direction: Direction,
    outcome: Outcome,
    reason: Reason,
    receivedAt: int,
    recordedAt: int,
    qualificationId: Option<Uuid>,
    transition: Option<Transition>,
    artifact: Artifact)

  datatype Metadata = Metadata(
    datasetEpoch: Uuid,
    comparisonReferenceId: Uuid,
    qrGuard: nat,
    faceGuard: nat,
    slotCount: nat)

  /** All documents; events are kept in the order their transactions committed. */
  datatype Database = Database(
    qualifications: map<Uuid, Qualification>,
    slots: map<Uuid, Slot>,
    events: seq<Event>,
    sources: map<Uuid, Source>,
    metadata: Metadata)

  datatype Failure =
    // answers a caller can receive
    | DomainInvariant
    | Refusal(reason: ManagementRejection)
    | UpdateFieldRequired
    | QualificationNotFound
    | FieldMissing
    | FaceSubjectAlreadyBound
    | FaceSlotCapacityExhausted
    | DuplicateKey
    | SourceMissing
    | DirectionMismatch
    | ReferenceMismatch
    | EpochMismatch
    | ClockInvalid
    // internal consistency checks
    | ProvenanceStale
    | ExpiryGuard
    | PresenceGuard
    | MultipleMappings
    | MappingStale
    | SlotCountMismatch
    | HandleMismatch
    | PlanMismatch
    | ForeignHandle
    | ScopeClosed
    | SourceFactsRequired

  /** The checks no valid store can trip. */
  predicate Internal(f: Failure) {
    || f.ProvenanceStale?
    || f.ExpiryGuard?
    || f.PresenceGuard?
    || f.MultipleMappings?
    || f.MappingStale?
    || f.SlotCountMismatch?
    || f.HandleMismatch?
    || f.PlanMismatch?
    || f.ForeignHandle?
    || f.ScopeClosed?
    || f.SourceFactsRequired?
  }

  /** Everything a transaction takes from outside the store: its scope's epoch,
      the clock readings, the freshly generated ids, and the empty slot findOne
      happens to return. */
  datatype Env = Env(
    epoch: Uuid,
    now: int,
    recordedAt: int,
    qualificationId: Uuid,
    incarnation: Uuid,
    qrLookupDigest: Uuid,
    slotId: Uuid,
    slotIncarnation: Uuid,
    eventId: Uuid,
    pick: Uuid)

  // ---------------------------------------------------------------- face slots

  type Slots = map<Uuid, Slot>

  predicate Empty(slots: Slots, i: Uuid) {
    i in slots && slots[i].owner.None?
  }

  predicate OwnedBy(slots: Slots, i: Uuid, qualificationId: Uuid) {
    i in slots && slots[i].owner.Some? && slots[i].owner.value.qualificationId == qualificationId
  }

  predicate BoundFace(slots: Slots, i: Uuid, face: Face) {
    i in slots && slots[i].owner.Some? && slots[i].face == face
  }

  /** find({ qualificationId }).limit(2): more than one match is an error. */
  ghost function CurrentSlot(slots: Slots, qualificationId: Uuid): Result<Option<Uuid>, Failure> {
    if exists i, j :: i != j && OwnedBy(slots, i, qualificationId) && OwnedBy(slots, j, qualificationId) then
      Err(MultipleMappings)
    else if exists i :: OwnedBy(slots, i, qualificationId) then
      var i :| OwnedBy(slots, i, qualificationId);
      Ok(Some(i))
    else
      Ok(None)
  }

  datatype Mapping = Mapping(slotIncarnation: Uuid, version: nat)

  /** mappingFromSlots: the redacted current mapping of one qualification. */
  ghost function CurrentMapping(slots: Slots, qualificationId: Uuid, expected: Option<Uuid>):
    Result<Option<Mapping>, Failure> {
    var found :- CurrentSlot(slots, qualificationId);
    match found
    case None => Ok(None)
    case Some(i) =>
      if expected.Some? && slots[i].owner.value.incarnation != expected.value then Err(MappingStale)
      else Ok(Some(Mapping(slots[i].slotIncarnation, slots[i].version)))
  }

  ghost function ReleaseFace(slots: Slots, qualificationId: Uuid, incarnation: Uuid): Result<Slots, Failure> {
    var found :- CurrentSlot(slots, qualificationId);
    match found
    case None => Ok(slots)
    case Some(i) =>
      if slots[i].owner.value.incarnation != incarnation then Err(MappingStale)
      else Ok(slots[i := slots[i].(owner := None, version := slots[i].version + 1)])
  }

  /** The empty slot bindNewFace claims: one that already carries the subject if
      there is one, otherwise whichever empty slot the query returns. */
  ghost function EmptySlotFor(slots: Slots, face: Face, pick: Uuid): Option<Uuid> {
    if exists i :: Empty(slots, i) && slots[i].face == face then
      var i :| Empty(slots, i) && slots[i].face == face;
      Some(i)
    else if Empty(slots, pick) then Some(pick)
    else if exists i :: Empty(slots, i) then
      var i :| Empty(slots, i);
      Some(i)
    else None
  }

  /** The two unique indexes of the slot collection, checked for document i. */
  ghost predicate SubjectTakenElsewhere(slots: Slots, i: Uuid, face: Face) {
    exists j :: j in slots && j != i && slots[j].face == face
  }

  ghost predicate QualificationBoundElsewhere(slots: Slots, i: Uuid, qualificationId: Uuid) {
    exists j :: j != i && OwnedBy(slots, j, qualificationId)
  }

  datatype Binding = Binding(slots: Slots, slotCount: nat)

  ghost function BindFace(db: Database, owner: Owner, face: Face, env: Env): Result<Binding, Failure> {
    var slots, count := db.slots, db.metadata.slotCount;
    match EmptySlotFor(slots, face, env.pick)
    case None =>
      if db.metadata.datasetEpoch != env.epoch then Err(EpochMismatch)
      else if count >= FACE_SLOT_CAPACITY then
        if exists i :: BoundFace(slots, i, face) then Err(FaceSubjectAlreadyBound)
        else Err(FaceSlotCapacityExhausted)
      else if env.slotId in slots then Err(DuplicateKey)
      else if SubjectTakenElsewhere(slots, env.slotId, face) then Err(FaceSubjectAlreadyBound)
      else if QualificationBoundElsewhere(slots, env.slotId, owner.qualificationId) then Err(DuplicateKey)
      else Ok(Binding(slots[env.slotId := Slot(face, Some(owner), env.slotIncarnation, 0)], count + 1))
    case Some(i) =>
      if SubjectTakenElsewhere(slots, i, face) then Err(FaceSubjectAlreadyBound)
      else if QualificationBoundElsewhere(slots, i, owner.qualificationId) then Err(DuplicateKey)
      else Ok(Binding(
        slots[i := slots[i].(face := face, owner := Some(owner), version := slots[i].version + 1)],
        count))
  }

  /** ensureSlotCount: the metadata counter must equal the number of documents. */
  function EnsureSlotCount(db: Database, epoch: Uuid): Result<Database, Failure> {
    if db.metadata.datasetEpoch != epoch then Err(EpochMismatch)
    else if |db.slots| != db.metadata.slotCount then Err(SlotCountMismatch)
    else Ok(db)
  }

  function BumpQr(db: Database): Database {
    db.(metadata := db.metadata.(qrGuard := db.metadata.qrGuard + 1))
  }

  function BumpFace(db: Database): Database {
    db.(metadata := db.metadata.(faceGuard := db.metadata.faceGuard + 1))
  }

  // ---------------------------------------------------------------- management

  /** The qualification identity a plan was decided on. */
  datatype Provenance = Provenance(qualificationId: Uuid, incarnation: Uuid, version: nat)

  datatype MappingMode = KeepMapping | RemoveMapping | SetMapping(face: Face)

  datatype ManagementPlan =
    | CreatePlan(displayName: string, validFrom: int, validUntil: int, face: Option<Face>)
    | UpdatePlan(expected: Provenance, displayName: string, validFrom: int, validUntil: int, mode: MappingMode)
    | RevokePlan(expected: Provenance, reason: string)
    | ExpirePlan(expected: Provenance)

  function Current(db: Database, p: Provenance): Result<Qualification, Failure> {
    if p.qualificationId in db.qualifications
       && db.qualifications[p.qualificationId].incarnation == p.incarnation
       && db.qualifications[p.qualificationId].version == p.version
    then Ok(db.qualifications[p.qualificationId])
    else Err(ProvenanceStale)
  }

  /** Replaces the qualification's state, bumping version and updatedAt. */
  function Touch(db: Database, id: Uuid, q: Qualification, now: int): Database {
    db.(qualifications := db.qualifications[id := q.(version := q.version + 1, updatedAt := now)])
  }

  ghost function CreateStep(db: Database, plan: ManagementPlan, env: Env): Result<Database, Failure>
    requires plan.CreatePlan?
  {
    if plan.displayName == "" then Err(FieldMissing)
    else if env.qualificationId in db.qualifications
         || (exists id :: id in db.qualifications && db.qualifications[id].qrLookupDigest == env.qrLookupDigest)
    then Err(DuplicateKey)
    else
      var state := QualificationState(plan.validFrom, plan.validUntil, NotEntered, None, None, None, None, None);
      var q := Qualification(env.incarnation, 0, plan.displayName, state, env.qrLookupDigest, env.now, env.now);
      var inserted := BumpQr(db.(qualifications := db.qualifications[env.qualificationId := q]));
      match plan.face
      case None => EnsureSlotCount(inserted, env.epoch)
      case Some(face) =>
        var bound :- BindFace(inserted, Owner(env.qualificationId, env.incarnation), face, env);
        EnsureSlotCount(BumpFace(WithBinding(inserted, bound)), env.epoch)
  }

  function WithBinding(db: Database, b: Binding): Database {
    db.(slots := b.slots, metadata := db.metadata.(slotCount := b.slotCount))
  }

  /** The shared tail of REVOKE and EXPIRE: release, bump the face guard, recount. */
  ghost function ReleaseStep(db: Database, p: Provenance, env: Env): Result<Database, Failure> {
    var slots :- ReleaseFace(db.slots, p.qualificationId, p.incarnation);
    EnsureSlotCount(BumpFace(db.(slots := slots)), env.epoch)
  }

  ghost function ExpireStep(db: Database, p: Provenance, receivedAt: int, env: Env): Result<Database, Failure> {
    var q :- Current(db, p);
    if !NeedsTerminalExpiry(q.state, receivedAt) then Err(ExpiryGuard)
    else
      var expired := q.(state := q.state.(expiredTerminalAt := Some(receivedAt)));
      ReleaseStep(Touch(db, p.qualificationId, expired, env.now), p, env)
  }

  ghost function RevokeStep(db: Database, p: Provenance, reason: string, receivedAt: int, env: Env):
    Result<Database, Failure> {
    var q :- Current(db, p);
    if reason == "" then Err(FieldMissing)
    else
      var revoked := q.(state := q.state.(revokedAt := Some(receivedAt), revocationReason := Some(reason)));
      ReleaseStep(Touch(db, p.qualificationId, revoked, env.now), p, env)
  }

  /** Whether an UPDATE rewrites the mapping: every mode but KEEP, except a SET of
      the face already bound. REMOVE counts even when nothing is bound. */
  ghost predicate MappingChanges(slots: Slots, qualificationId: Uuid, mode: MappingMode) {
    match mode
    case KeepMapping => false
    case RemoveMapping => true
    case SetMapping(face) => !exists i :: OwnedBy(slots, i, qualificationId) && slots[i].face == face
  }

  ghost function RebindStep(db: Database, p: Provenance, mode: MappingMode, env: Env): Result<Binding, Failure> {
    var slots :- ReleaseFace(db.slots, p.qualificationId, p.incarnation);
    match mode
    case SetMapping(face) =>
      BindFace(db.(slots := slots), Owner(p.qualificationId, p.incarnation), face, env)
    case _ => Ok(Binding(slots, db.metadata.slotCount))
  }

  ghost function UpdateStep(db: Database, plan: ManagementPlan, env: Env): Result<Database, Failure>
    requires plan.UpdatePlan?
  {
    var p := plan.expected;
    var q :- Current(db, p);
    if plan.displayName == "" then Err(FieldMissing)
    else
      var mapping :- CurrentMapping(db.slots, p.qualificationId, Some(p.incarnation));
      var updated := q.(displayName := plan.displayName,
                        state := q.state.(validFrom := plan.validFrom, validUntil := plan.validUntil));
      if !MappingChanges(db.slots, p.qualificationId, plan.mode) then
        EnsureSlotCount(Touch(db, p.qualificationId, updated, env.now), env.epoch)
      else
        var bound :- RebindStep(db, p, plan.mode, env);
        EnsureSlotCount(BumpFace(Touch(WithBinding(db, bound), p.qualificationId, updated, env.now)), env.epoch)
  }

  /** applyManagementChange. */
  ghost function ApplyManagement(db: Database, plan: ManagementPlan, receivedAt: int, env: Env):
    Result<Database, Failure> {
    if !IsInstant(env.now) then Err(ClockInvalid)
    else if !IsInstant(receivedAt) then Err(FieldMissing)
    else match plan
      case CreatePlan(_, _, _, _) => CreateStep(db, plan, env)
      case UpdatePlan(_, _, _, _, _) => UpdateStep(db, plan, env)
      case RevokePlan(p, reason) => RevokeStep(db, p, reason, receivedAt, env)
      case ExpirePlan(p) => ExpireStep(db, p, receivedAt, env)
  }

  // --------------------------------------------------------------- recognition

  datatype Resolution = ResolvedKind | InvalidQrKind | FaceUnknownKind | NotMappedKind | SourceInactiveKind

  /** What a resolution handle claims about the snapshot it was resolved on. */
  datatype Claims = Claims(
    media: Media,
    resolution: Resolution,
    qualification: Option<Provenance>,
    mapping: Option<Mapping>)

  datatype RecognitionPlan = RecognitionPlan(claims: Claims, decision: AccessDecision)

  datatype Envelope = Envelope(key: EventKey, direction: Direction, receivedAt: int, artifact: Artifact)

  datatype RecognitionResult =
    | Committed(event: Event)
    | Replayed(event: Event)
    | IdempotencyConflict

  ghost function FindEvent(events: seq<Event>, key: EventKey): Option<Event> {
    if exists e :: e in events && e.key == key then
      var e :| e in events && e.key == key;
      Some(e)
    else None
  }

  function ArrivalState(state: QualificationState, decision: AccessDecision, receivedAt: int): QualificationState {
    var moved :=
      match decision.transition
      case None => state
      case Some(t) =>
        match t.to
        case NotEntered => state.(presence := NotEntered)
        case Inside => state.(presence := Inside, enteredAt := Some(receivedAt))
        case Exited => state.(presence := Exited, exitedAt := Some(receivedAt));
    if decision.qualificationEffect.ExpireNotEntered? then moved.(expiredTerminalAt := Some(receivedAt)) else moved
  }

  /** applyQualificationEffect followed by the optional release. */
  ghost function QualificationStep(db: Database, plan: RecognitionPlan, receivedAt: int, env: Env):
    Result<Database, Failure> {
    match plan.claims.qualification
    case None => Ok(db)
    case Some(p) =>
      var q :- Current(db, p);
      if !IsInstant(env.now) then Err(ClockInvalid)
      else if plan.decision.transition.Some? && plan.decision.transition.value.from != q.state.presence then
        Err(PresenceGuard)
      else
        var touched := Touch(db, p.qualificationId,
                             q.(state := ArrivalState(q.state, plan.decision, receivedAt)), env.now);
        if plan.decision.faceEffect.Release? then
          var slots :- ReleaseFace(touched.slots, p.qualificationId, p.incarnation);
          Ok(touched.(slots := slots))
        else Ok(touched)
  }

  function NewEvent(plan: RecognitionPlan, envelope: Envelope, env: Env): Event {
    Event(env.eventId, envelope.key, plan.claims.media, envelope.direction,
          plan.decision.outcome, plan.decision.reason, envelope.receivedAt, env.recordedAt,
          (match plan.claims.qualification case None => None case Some(p) => Some(p.qualificationId)),
          plan.decision.transition, envelope.artifact)
  }

  /** applyRecognitionResult: an existing event decides alone; otherwise the
      source is re-guarded, the qualification moved, one guard bumped and the
      event inserted. */
  ghost function ApplyRecognition(db: Database, plan: RecognitionPlan, envelope: Envelope, env: Env)
    : Result<(Database, RecognitionResult), Failure>
  {
    if !IsInstant(envelope.receivedAt) then Err(FieldMissing)
    else match FindEvent(db.events, envelope.key)
      case Some(existing) =>
        Ok((db, if existing.artifact == envelope.artifact then Replayed(existing) else IdempotencyConflict))
      case None => RecordStep(db, plan, envelope, env)
  }

  /** The attempt's source must exist, have the direction decided on and belong to
      this dataset and comparison reference; it gains a version. */
  function GuardStep(db: Database, envelope: Envelope, env: Env): Result<Database, Failure> {
    var sourceId := envelope.key.sourceId;
    if sourceId !in db.sources then Err(SourceMissing)
    else if envelope.direction != db.sources[sourceId].direction then Err(DirectionMismatch)
    else if db.metadata.datasetEpoch != env.epoch then Err(EpochMismatch)
    else if envelope.artifact.comparisonReferenceId != db.metadata.comparisonReferenceId then Err(ReferenceMismatch)
    else
      var source := db.sources[sourceId];
      Ok(db.(sources := db.sources[sourceId := source.(version := source.version + 1)]))
  }

  /** Bumps the medium's guard, inserts the event and recounts the slots. */
  function LogStep(db: Database, plan: RecognitionPlan, envelope: Envelope, env: Env): Result<Database, Failure> {
    var bumped := if plan.claims.media.Qr? then BumpQr(db) else BumpFace(db);
    if !IsInstant(env.recordedAt) then Err(ClockInvalid)
    else if exists e :: e in bumped.events && e.eventId == env.eventId then Err(DuplicateKey)
    else EnsureSlotCount(bumped.(events := bumped.events + [NewEvent(plan, envelope, env)]), env.epoch)
  }

  ghost function RecordStep(db: Database, plan: RecognitionPlan, envelope: Envelope, env: Env)
    : Result<(Database, RecognitionResult), Failure>
  {
    var guarded :- GuardStep(db, envelope, env);
    var moved :- QualificationStep(guarded, plan, envelope.receivedAt, env);
    var logged :- LogStep(moved, plan, envelope, env);
    Ok((logged, Committed(NewEvent(plan, envelope, env))))
  }
}
