/** One use-case invocation as a function of the snapshot it reads: resolve,
    decide, plan, check the plan against the handle, apply. */
module UseCases {
  import opened Base
  import opened Domain
  import opened Store

  // ------------------------------------------------------------------ commands

  datatype FaceField = FaceOmitted | FaceNull | FaceGiven(face: Face)

  datatype RecognitionInput =
    | QrScanned(lookupDigest: Uuid)
    | MatchedFace(face: Face)
    | UnknownFace

  datatype Command =
    | Create(displayName: string, validFrom: int, validUntil: int, face: Option<Face>, receivedAt: int)
    | Update(id: Uuid, name: Option<string>, from: Option<int>, until: Option<int>, faceField: FaceField,
             receivedAt: int)
    | Revoke(id: Uuid, reason: string, receivedAt: int)
    | Recognize(key: EventKey, input: RecognitionInput, artifact: Artifact, receivedAt: int)

  datatype Reply =
    | Changed
    | ExpiredTerminalPersisted          // refused, but the terminal expiry was committed
    | Recognition(result: RecognitionResult)

  function FromDomain<T>(r: Result<T, DomainError>): Result<T, Failure> {
    match r
    case Ok(v) => Ok(v)
    case Err(_) => Err(DomainInvariant)
  }

  /** toQualificationSnapshot asserts the state of every qualification it reads. */
  function Snapshot(db: Database, id: Uuid): Result<Option<Qualification>, Failure> {
    if id !in db.qualifications then Ok(None)
    else if !db.qualifications[id].state.Valid() then Err(DomainInvariant)
    else Ok(Some(db.qualifications[id]))
  }

  function ProvenanceOf(id: Uuid, q: Qualification): Provenance {
    Provenance(id, q.incarnation, q.version)
  }

  // ---------------------------------------------------------------- management

  ghost function RunCreate(db: Database, c: Command, env: Env): Result<(Database, Reply), Failure>
    requires c.Create?
  {
    var window :- FromDomain(DecideWindow(c.validFrom, c.validUntil, c.receivedAt));
    if window.Refused? then Err(Refusal(window.reason))
    else
      var after :- ApplyManagement(db, CreatePlan(c.displayName, c.validFrom, c.validUntil, c.face), c.receivedAt, env);
      Ok((after, Changed))
  }

  /** A refused change: an overdue qualification is expired first, in the same scope. */
  ghost function RefuseOrExpire(db: Database, id: Uuid, q: Qualification, reason: ManagementRejection, receivedAt: int,
                                env: Env)
    : Result<(Database, Reply), Failure>
  {
    if reason.AlreadyExpired? && NeedsTerminalExpiry(q.state, receivedAt) then
      var after :- ApplyManagement(db, ExpirePlan(ProvenanceOf(id, q)), receivedAt, env);
      Ok((after, ExpiredTerminalPersisted))
    else Err(Refusal(reason))
  }

  function OrElse<T>(given: Option<T>, current: T): T {
    match given
    case Some(v) => v
    case None => current
  }

  function ModeOf(face: FaceField): MappingMode {
    match face
    case FaceOmitted => KeepMapping
    case FaceNull => RemoveMapping
    case FaceGiven(f) => SetMapping(f)
  }

  ghost function RunUpdate(db: Database, c: Command, env: Env): Result<(Database, Reply), Failure>
    requires c.Update?
  {
    if c.name.None? && c.from.None? && c.until.None? && c.faceField.FaceOmitted? then Err(UpdateFieldRequired)
    else
      var found :- Snapshot(db, c.id);
      if found.None? then Err(QualificationNotFound)
      else
        var q := found.value;
        var mapping :- CurrentMapping(db.slots, c.id, Some(q.incarnation));
        var from, until := OrElse(c.from, q.state.validFrom), OrElse(c.until, q.state.validUntil);
        var verdict :- FromDomain(DecideUpdate(q.state, from, until, c.receivedAt));
        if verdict.Refused? then RefuseOrExpire(db, c.id, q, verdict.reason, c.receivedAt, env)
        else
          var plan := UpdatePlan(ProvenanceOf(c.id, q), OrElse(c.name, q.displayName), from, until,
                                 ModeOf(c.faceField));
          var after :- ApplyManagement(db, plan, c.receivedAt, env);
          Ok((after, Changed))
  }

  ghost function RunRevoke(db: Database, c: Command, env: Env): Result<(Database, Reply), Failure>
    requires c.Revoke?
  {
    var found :- Snapshot(db, c.id);
    if found.None? then Err(QualificationNotFound)
    else
      var q := found.value;
      var verdict :- FromDomain(DecideRevocation(q.state, c.receivedAt, c.reason));
      if verdict.Refused? then RefuseOrExpire(db, c.id, q, verdict.reason, c.receivedAt, env)
      else
        var after :- ApplyManagement(db, RevokePlan(ProvenanceOf(c.id, q), c.reason), c.receivedAt, env);
        Ok((after, Changed))
  }

  // --------------------------------------------------------------- recognition

  function MediaOf(input: RecognitionInput): Media {
    match input
    case QrScanned(_) => Qr
    case MatchedFace(_) => FaceMatched
    case UnknownFace => FaceUnknown
  }

  /** snapshotToHandleClaims, after makeHandle's normalisation. */
  function ClaimsOf(media: Media, qualification: Option<(Uuid, Qualification)>, mapping: Option<Mapping>): Claims {
    match qualification
    case Some(q) => Claims(media, ResolvedKind, Some(ProvenanceOf(q.0, q.1)), mapping)
    case None =>
      Claims(media,
             (match media
              case Qr => InvalidQrKind
              case FaceUnknown => FaceUnknownKind
              case FaceMatched => NotMappedKind),
             None, None)
  }

  ghost function ResolveQr(db: Database, digest: Uuid): Result<Claims, Failure> {
    if exists id :: id in db.qualifications && db.qualifications[id].qrLookupDigest == digest then
      var id :| id in db.qualifications && db.qualifications[id].qrLookupDigest == digest;
      var q := db.qualifications[id];
      var mapping :- CurrentMapping(db.slots, id, Some(q.incarnation));
      if !q.state.Valid() then Err(DomainInvariant)
      else Ok(ClaimsOf(Qr, Some((id, q)), mapping))
    else Ok(ClaimsOf(Qr, None, None))
  }

  ghost function ResolveFace(db: Database, face: Face): Result<Claims, Failure> {
    if exists i, j :: i != j && BoundFace(db.slots, i, face) && BoundFace(db.slots, j, face) then Err(MultipleMappings)
    else if exists i :: BoundFace(db.slots, i, face) then
      var i :| BoundFace(db.slots, i, face);
      var slot := db.slots[i];
      var owner := slot.owner.value;
      if owner.qualificationId !in db.qualifications
         || db.qualifications[owner.qualificationId].incarnation != owner.incarnation then Err(MappingStale)
      else
        var q := db.qualifications[owner.qualificationId];
        if !q.state.Valid() then Err(DomainInvariant)
        else Ok(ClaimsOf(FaceMatched, Some((owner.qualificationId, q)),
                         Some(Mapping(slot.slotIncarnation, slot.version))))
    else Ok(ClaimsOf(FaceMatched, None, None))
  }

  ghost function Resolve(db: Database, active: bool, input: RecognitionInput): Result<Claims, Failure> {
    if !active then Ok(Claims(MediaOf(input), SourceInactiveKind, None, None))
    else match input
      case QrScanned(digest) => ResolveQr(db, digest)
      case MatchedFace(face) => ResolveFace(db, face)
      case UnknownFace => Ok(ClaimsOf(FaceUnknown, None, None))
  }

  /** The scope re-reads the handle's qualification and compares its identity. */
  function ReadHandle(db: Database, claims: Claims): Result<Option<Qualification>, Failure> {
    match claims.qualification
    case None => Ok(None)
    case Some(p) =>
      var found :- Snapshot(db, p.qualificationId);
      if found.None? || ProvenanceOf(p.qualificationId, found.value) != p then Err(HandleMismatch)
      else Ok(found)
  }

  function IdentityOf(input: RecognitionInput, q: Option<Qualification>): IdentityResolution {
    match input
    case UnknownFace => NoFace
    case QrScanned(_) => if q.Some? then Resolved(q.value.state) else NoQrMatch
    case MatchedFace(_) => if q.Some? then Resolved(q.value.state) else NoMapping
  }

  /** stageRecognitionResult's own checks before persistence is asked to apply. */
  ghost function CheckHandle(db: Database, plan: RecognitionPlan): Result<(), Failure> {
    match plan.claims.qualification
    case None =>
      if plan.decision.transition.Some? || !plan.decision.qualificationEffect.NoEffect?
        || !plan.decision.faceEffect.Keep?
      then Err(PlanMismatch)
      else Ok(())
    case Some(p) =>
      var q :- ReadHandle(db, plan.claims);
      var mapping :- CurrentMapping(db.slots, p.qualificationId, None);
      if mapping != plan.claims.mapping then Err(HandleMismatch) else Ok(())
  }

  ghost function Decide(db: Database, c: Command): Result<(RecognitionPlan, Envelope), Failure>
    requires c.Recognize?
  {
    if !IsInstant(c.receivedAt) then Err(FieldMissing)
    else if c.key.sourceId !in db.sources then Err(SourceMissing)
    else
      var source := db.sources[c.key.sourceId];
      var claims :- Resolve(db, source.active, c.input);
      var q :- ReadHandle(db, claims);
      var decision :- FromDomain(DecideAccess(source.direction, source.active, IdentityOf(c.input, q), c.receivedAt));
      Ok((RecognitionPlan(claims, decision), Envelope(c.key, source.direction, c.receivedAt, c.artifact)))
  }

  ghost function RunRecognize(db: Database, c: Command, env: Env): Result<(Database, Reply), Failure>
    requires c.Recognize?
  {
    var staged :- Decide(db, c);
    var _ :- CheckHandle(db, staged.0);
    var applied :- ApplyRecognition(db, staged.0, staged.1, env);
    Ok((applied.0, Recognition(applied.1)))
  }

  // ------------------------------------------------------------------- run one

  ghost function Run(db: Database, c: Command, env: Env): Result<(Database, Reply), Failure> {
    match c
    case Create(_, _, _, _, _) => RunCreate(db, c, env)
    case Update(_, _, _, _, _, _) => RunUpdate(db, c, env)
    case Revoke(_, _, _) => RunRevoke(db, c, env)
    case Recognize(_, _, _, _) => RunRecognize(db, c, env)
  }

  datatype Step = Step(command: Command, env: Env)

  /** A failed invocation aborts its transaction and leaves the store as it was. */
  ghost function After(db: Database, step: Step): Database {
    match Run(db, step.command, step.env)
    case Ok(done) => done.0
    case Err(_) => db
  }

  /** The store after a whole serial run. */
  ghost function RunAll(db: Database, steps: seq<Step>): Database {
    if steps == [] then db else After(RunAll(db, steps[..|steps| - 1]), steps[|steps| - 1])
  }
}
