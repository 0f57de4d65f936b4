/** The access scopes and the use cases as the programs they are: a scope is
    opened on one transaction, read, decided on, staged and closed. Each use case
    is proved to do what the function Run says. */
module Scopes {
  import opened Base
  import opened Domain
  import opened Store
  import opened UseCases
  import opened StoreInvariants
  import opened Adapter

  /** What the collections' unique indexes guarantee. */
  ghost predicate UniqueIndexes(db: Database) {
    && SlotsUnique(db.slots)
    && (forall a, b | a in db.qualifications && b in db.qualifications ::
          db.qualifications[a].qrLookupDigest == db.qualifications[b].qrLookupDigest ==> a == b)
    && (forall j, k :: 0 <= j < k < |db.events| ==> db.events[j].key != db.events[k].key)
  }

  /** The transaction behind a scope: begun by the first use of persistence, ended by
      staging or by closing. */
  datatype Session = NotBegun | Begun | Committed | Aborted

  function Used(s: Session): Session {
    if s.NotBegun? then Begun else s
  }

  /** What a resolution hands out; it is only good in the scope that issued it. */
  datatype Handle = Handle(issuer: AccessScope, claims: Claims)

  class AccessScope {
    const persistence: Transaction
    var closed: bool
    var retired: bool               // its context can bind no further operation
    var session: Session
    var sourceActive: Option<bool>

    ghost predicate Open(db: Database)
      reads this, persistence
    {
      && !closed && !retired && !session.Committed?
      && persistence.Image() == db
      && persistence.Coherent()
      && persistence.Indexed()
    }

    constructor (db: Database, epoch: Uuid)
      requires UniqueIndexes(db)
      ensures Open(db) && sourceActive.None? && session.NotBegun? && persistence.epoch == epoch
      ensures fresh(persistence)
    {
      persistence := new Transaction(db, epoch);
      closed, retired := false, false;
      session := NotBegun;
      sourceActive := None;
    }

    /** closeAsync: refuses every later call, retires the context, and aborts a
        transaction that staging has not ended. */
    method Close()
      modifies `closed, `retired, `session
      ensures closed && retired && !session.Begun?
      ensures session == if old(session).Begun? then Aborted else old(session)
    {
      closed := true;
      retired := true;
      if session.Begun? { session := Aborted; }
    }

    method ReadSourceFacts(sourceId: Uuid) returns (r: Result<Source, Failure>)
      requires persistence.Coherent()
      modifies `sourceActive, `session, persistence`sourceGuards
      ensures persistence.Coherent()
      ensures r == if closed then Err(ScopeClosed)
                   else if sourceId in persistence.sources then Ok(persistence.sources[sourceId])
                     else Err(SourceMissing)
      ensures sourceActive == if r.Ok? then Some(r.value.active) else old(sourceActive)
      ensures session == if closed then old(session) else Used(old(session))
    {
      if closed { return Err(ScopeClosed); }
      session := Used(session);
      var facts :- persistence.ReadSourceFacts(sourceId);
      sourceActive := Some(facts.active);
      return Ok(facts);
    }

    method ResolveInput(input: RecognitionInput) returns (r: Result<Handle, Failure>)
      requires persistence.Coherent() && persistence.Indexed()
      modifies `session, persistence`readQualifications, persistence`readMappings
      ensures persistence.Coherent()
      ensures closed ==> r == Err(ScopeClosed)
      ensures !closed && sourceActive.None? ==> r == Err(SourceFactsRequired)
      ensures !closed && sourceActive.Some? ==>
                match Resolve(persistence.Image(), sourceActive.value, input)
                case Ok(claims) => r == Ok(Handle(this, claims))
                case Err(f) => r == Err(f)
      ensures session == if !closed && sourceActive == Some(true)
              && !input.UnknownFace? then Used(old(session)) else old(session)
    {
      if closed { return Err(ScopeClosed); }
      if sourceActive.None? { return Err(SourceFactsRequired); }
      if !sourceActive.value { return Ok(Handle(this, Claims(MediaOf(input), SourceInactiveKind, None, None))); }
      if input.UnknownFace? { return Ok(Handle(this, ClaimsOf(FaceUnknown, None, None))); }
      session := Used(session);
      var resolved: Result<Claims, Failure>;
      match input {
        case QrScanned(digest) => resolved := persistence.ResolveQr(digest);
        case MatchedFace(face) => resolved := persistence.ResolveFace(face);
      }
      if resolved.Err? { return Err(resolved.error); }
      return Ok(Handle(this, resolved.value));
    }

    /** assertHandle. */
    method AssertHandle(handle: Handle) returns (r: Result<Claims, Failure>)
      ensures r == if closed then Err(ScopeClosed) else if handle.issuer != this then Err(ForeignHandle)
              else Ok(handle.claims)
    {
      if closed { return Err(ScopeClosed); }
      if handle.issuer != this { return Err(ForeignHandle); }
      return Ok(handle.claims);
    }

    /** readQualification through a handle: same scope, same identity. */
    method ReadResolved(handle: Handle) returns (r: Result<Option<Qualification>, Failure>)
      requires persistence.Coherent()
      modifies `session, persistence`readQualifications
      ensures persistence.Coherent()
      ensures r == if closed then Err(ScopeClosed)
                   else if handle.issuer != this then Err(ForeignHandle)
                   else ReadHandle(persistence.Image(), handle.claims)
      ensures session == if !closed && handle.issuer == this
              && handle.claims.qualification.Some? then Used(old(session)) else old(session)
    {
      var claims :- AssertHandle(handle);
      if claims.qualification.None? { return Ok(None); }
      var p := claims.qualification.value;
      session := Used(session);
      var found :- persistence.ReadQualification(p.qualificationId);
      if found.None? || ProvenanceOf(p.qualificationId, found.value) != p { return Err(HandleMismatch); }
      return Ok(found);
    }

    /** The checks of stageRecognitionResult: the handle is this scope's, the plan is
        the handle's, an identity without a qualification has no effects, and what was
        resolved is still what the transaction sees. */
    method CheckPlan(handle: Handle, plan: RecognitionPlan) returns (r: Result<(), Failure>)
      requires persistence.Coherent()
      modifies `session, persistence`readQualifications, persistence`readMappings
      ensures persistence.Coherent()
      ensures r == if closed then Err(ScopeClosed)
                   else if handle.issuer != this then Err(ForeignHandle)
                   else if plan.claims != handle.claims then Err(PlanMismatch)
                   else CheckHandle(persistence.Image(), plan)
      ensures session == old(session) || session == Used(old(session))
    {
      var claims :- AssertHandle(handle);
      if plan.claims != claims { return Err(PlanMismatch); }
      var d := plan.decision;
      if claims.qualification.None? {
        if d.transition.Some? || !d.qualificationEffect.NoEffect? || !d.faceEffect.Keep? { return Err(PlanMismatch); }
        return Ok(());
      }
      var q :- ReadResolved(handle);
      var mapping :- persistence.ReadMapping(claims.qualification.value.qualificationId, None);
      if mapping != claims.mapping { return Err(HandleMismatch); }
      return Ok(());
    }

    method StageRecognition(handle: Handle, plan: RecognitionPlan, envelope: Envelope, env: Env)
      returns (r: Result<RecognitionResult, Failure>)
      requires persistence.Coherent() && persistence.Indexed() && env.epoch == persistence.epoch && !session.Committed?
      modifies `session, persistence
      ensures old(closed) ==> r == Err(ScopeClosed)
      ensures !old(closed) && handle.issuer != this ==> r == Err(ForeignHandle)
      ensures !old(closed) && handle.issuer == this && plan.claims != handle.claims ==> r == Err(PlanMismatch)
      ensures !old(closed) && handle.issuer == this && plan.claims == handle.claims ==>
                var checked := CheckHandle(old(persistence.Image()), plan);
                match ApplyRecognition(old(persistence.Image()), plan, envelope, env)
                case Ok(after) =>
                  if checked.Ok? then r == Ok(after.1) && persistence.Image() == after.0 else r == Err(checked.error)
                case Err(f) => r == Err(if checked.Ok? then f else checked.error)
      ensures session.Committed? <==> r.Ok?
    {
      var checked := CheckPlan(handle, plan);
      if checked.Err? { return checked.PropagateFailure(); }
      r := persistence.ApplyRecognitionResult(plan, envelope, env);
      session := if r.Ok? then Session.Committed else Aborted;
    }

    method ReadManaged(id: Uuid) returns (r: Result<Option<Qualification>, Failure>)
      requires persistence.Coherent()
      modifies `session, persistence`readQualifications
      ensures persistence.Coherent()
      ensures r == if closed then Err(ScopeClosed) else Snapshot(persistence.Image(), id)
      ensures session == if closed then old(session) else Used(old(session))
    {
      if closed { return Err(ScopeClosed); }
      session := Used(session);
      r := persistence.ReadQualification(id);
    }

    method ReadMapping(id: Uuid, incarnation: Uuid) returns (r: Result<Option<Mapping>, Failure>)
      requires persistence.Coherent()
      modifies `session, persistence`readMappings
      ensures persistence.Coherent()
      ensures r == if closed then Err(ScopeClosed) else CurrentMapping(persistence.slots, id, Some(incarnation))
      ensures session == if closed then old(session) else Used(old(session))
    {
      if closed { return Err(ScopeClosed); }
      session := Used(session);
      r := persistence.ReadMapping(id, Some(incarnation));
    }

    method StageManagement(plan: ManagementPlan, receivedAt: int, env: Env)
      returns (r: Result<(), Failure>, ghost pick: Uuid)
      requires persistence.Coherent() && persistence.Indexed() && env.epoch == persistence.epoch && !session.Committed?
      modifies `session, persistence
      ensures old(closed) ==> r == Err(ScopeClosed)
      ensures !old(closed) ==>
                match ApplyManagement(old(persistence.Image()), plan, receivedAt, env.(pick := pick))
                case Ok(after) => r.Ok? && persistence.Image() == after
                case Err(f) => r == Err(f)
      ensures session.Committed? <==> r.Ok?
    {
      pick := env.pick;
      if closed { return Err(ScopeClosed), pick; }
      r, pick := persistence.ApplyManagementChange(plan, receivedAt, env);
      session := if r.Ok? then Session.Committed else Aborted;
    }
  }

  /** The committed store and the use cases that change it. A use case that fails
      leaves it as it was; one that succeeds installs its transaction's image. */
  /** The scope a use case opened, if it got that far, is closed and retired; its
      transaction was committed if the use case succeeded and is not open otherwise. */
  ghost predicate Finished(used: Option<AccessScope>, succeeded: bool)
    reads if used.Some? then {used.value} else {}
  {
    && (succeeded ==> used.Some?)
    && (used.Some? ==>
          && used.value.closed && used.value.retired && !used.value.session.Begun?
          && (used.value.session.Committed? <==> succeeded))
  }

  class PassHub {
    var store: Database

    constructor (seed: Database)
      ensures store == seed
    {
      store := seed;
    }

    method Create(c: Command, env: Env)
      returns (r: Result<Reply, Failure>, ghost pick: Uuid, ghost used: Option<AccessScope>)
      requires c.Create? && UniqueIndexes(store)
      modifies this
      ensures Finished(used, r.Ok?)
      ensures match RunCreate(old(store), c, env.(pick := pick))
              case Ok(done) => r == Ok(done.1) && store == done.0
              case Err(f) => r == Err(f) && store == old(store)
    {
      pick := env.pick;
      var window := DecideWindow(c.validFrom, c.validUntil, c.receivedAt);
      if window.Err? { return Err(DomainInvariant), pick, None; }
      if window.value.Refused? { return Err(Refusal(window.value.reason)), pick, None; }
      var scope := new AccessScope(store, env.epoch);
      var staged: Result<(), Failure>;
      staged, pick := scope.StageManagement(CreatePlan(c.displayName, c.validFrom, c.validUntil, c.face), c.receivedAt,
                                            env);
      if staged.Ok? { store := scope.persistence.Image(); }
      scope.Close();
      used := Some(scope);
      r := if staged.Ok? then Ok(Changed) else Err(staged.error);
    }

    /** A refused change still expires an overdue qualification, in the same scope. */
    method RefuseOrExpireIn(scope: AccessScope, id: Uuid, q: Qualification, reason: ManagementRejection,
                            receivedAt: int, env: Env)
      returns (r: Result<Reply, Failure>, ghost pick: Uuid)
      requires scope.Open(store) && env.epoch == scope.persistence.epoch
      modifies this, scope`session, scope.persistence
      ensures scope.session.Committed? <==> r.Ok?
      ensures match RefuseOrExpire(old(store), id, q, reason, receivedAt, env.(pick := pick))
              case Ok(done) => r == Ok(done.1) && store == done.0
              case Err(f) => r == Err(f) && store == old(store)
    {
      pick := env.pick;
      if !(reason.AlreadyExpired? && NeedsTerminalExpiry(q.state, receivedAt)) { return Err(Refusal(reason)), pick; }
      var staged: Result<(), Failure>;
      staged, pick := scope.StageManagement(ExpirePlan(ProvenanceOf(id, q)), receivedAt, env);
      if staged.Err? { return Err(staged.error), pick; }
      store := scope.persistence.Image();
      return Ok(ExpiredTerminalPersisted), pick;
    }

    method Update(c: Command, env: Env)
      returns (r: Result<Reply, Failure>, ghost pick: Uuid, ghost used: Option<AccessScope>)
      requires c.Update? && UniqueIndexes(store)
      modifies this
      ensures Finished(used, r.Ok?)
      ensures match RunUpdate(old(store), c, env.(pick := pick))
              case Ok(done) => r == Ok(done.1) && store == done.0
              case Err(f) => r == Err(f) && store == old(store)
    {
      pick := env.pick;
      if c.name.None? && c.from.None? && c.until.None?
        && c.faceField.FaceOmitted? { return Err(UpdateFieldRequired), pick, None; }
      var scope := new AccessScope(store, env.epoch);
      r, pick := UpdateIn(scope, c, env);
      scope.Close();
      used := Some(scope);
    }

    method UpdateIn(scope: AccessScope, c: Command, env: Env) returns (r: Result<Reply, Failure>, ghost pick: Uuid)
      requires c.Update? && !(c.name.None? && c.from.None? && c.until.None? && c.faceField.FaceOmitted?)
      requires scope.Open(store) && env.epoch == scope.persistence.epoch
      modifies this, scope`session, scope.persistence
      ensures scope.session.Committed? <==> r.Ok?
      ensures match RunUpdate(old(store), c, env.(pick := pick))
              case Ok(done) => r == Ok(done.1) && store == done.0
              case Err(f) => r == Err(f) && store == old(store)
    {
      pick := env.pick;
      var found := scope.ReadManaged(c.id);
      if found.Err? { return Err(found.error), pick; }
      if found.value.None? { return Err(QualificationNotFound), pick; }
      var q := found.value.value;
      var mapping := scope.ReadMapping(c.id, q.incarnation);
      if mapping.Err? { return Err(mapping.error), pick; }
      var from, until := OrElse(c.from, q.state.validFrom), OrElse(c.until, q.state.validUntil);
      var verdict := DecideUpdate(q.state, from, until, c.receivedAt);
      if verdict.Err? { return Err(DomainInvariant), pick; }
      if verdict.value.Refused? {
        r, pick := RefuseOrExpireIn(scope, c.id, q, verdict.value.reason, c.receivedAt, env);
        return r, pick;
      }
      var staged: Result<(), Failure>;
      staged, pick := scope.StageManagement(
        UpdatePlan(ProvenanceOf(c.id, q), OrElse(c.name, q.displayName), from, until, ModeOf(c.faceField)),
          c.receivedAt, env);
      if staged.Err? { return Err(staged.error), pick; }
      store := scope.persistence.Image();
      return Ok(Changed), pick;
    }

    method Revoke(c: Command, env: Env)
      returns (r: Result<Reply, Failure>, ghost pick: Uuid, ghost used: Option<AccessScope>)
      requires c.Revoke? && UniqueIndexes(store)
      modifies this
      ensures Finished(used, r.Ok?)
      ensures match RunRevoke(old(store), c, env.(pick := pick))
              case Ok(done) => r == Ok(done.1) && store == done.0
              case Err(f) => r == Err(f) && store == old(store)
    {
      var scope := new AccessScope(store, env.epoch);
      r, pick := RevokeIn(scope, c, env);
      scope.Close();
      used := Some(scope);
    }

    method RevokeIn(scope: AccessScope, c: Command, env: Env) returns (r: Result<Reply, Failure>, ghost pick: Uuid)
      requires c.Revoke? && scope.Open(store) && env.epoch == scope.persistence.epoch
      modifies this, scope`session, scope.persistence
      ensures scope.session.Committed? <==> r.Ok?
      ensures match RunRevoke(old(store), c, env.(pick := pick))
              case Ok(done) => r == Ok(done.1) && store == done.0
              case Err(f) => r == Err(f) && store == old(store)
    {
      pick := env.pick;
      var found := scope.ReadManaged(c.id);
      if found.Err? { return Err(found.error), pick; }
      if found.value.None? { return Err(QualificationNotFound), pick; }
      var q := found.value.value;
      var verdict := DecideRevocation(q.state, c.receivedAt, c.reason);
      if verdict.Err? { return Err(DomainInvariant), pick; }
      if verdict.value.Refused? {
        r, pick := RefuseOrExpireIn(scope, c.id, q, verdict.value.reason, c.receivedAt, env);
        return r, pick;
      }
      var staged: Result<(), Failure>;
      staged, pick := scope.StageManagement(RevokePlan(ProvenanceOf(c.id, q), c.reason), c.receivedAt, env);
      if staged.Err? { return Err(staged.error), pick; }
      store := scope.persistence.Image();
      return Ok(Changed), pick;
    }

    /** Source facts, resolution, the resolved qualification, the decision. */
    method DecideIn(scope: AccessScope, c: Command)
      returns (r: Result<(RecognitionPlan, Envelope), Failure>, handle: Option<Handle>)
      requires c.Recognize? && IsInstant(c.receivedAt) && scope.Open(store)
      modifies scope`sourceActive, scope`session, scope.persistence`sourceGuards, scope.persistence`readQualifications,
               scope.persistence`readMappings
      ensures scope.Open(store)
      ensures r == Decide(store, c)
      ensures r.Ok? ==> handle == Some(Handle(scope, r.value.0.claims))
    {
      var facts := scope.ReadSourceFacts(c.key.sourceId);
      if facts.Err? { return Err(facts.error), None; }
      var resolved := scope.ResolveInput(c.input);
      if resolved.Err? { return Err(resolved.error), None; }
      var q := scope.ReadResolved(resolved.value);
      if q.Err? { return Err(q.error), None; }
      var source := facts.value;
      var decision := DecideAccess(source.direction, source.active, IdentityOf(c.input, q.value), c.receivedAt);
      if decision.Err? { return Err(DomainInvariant), None; }
      r := Ok((RecognitionPlan(resolved.value.claims, decision.value),
               Envelope(c.key, source.direction, c.receivedAt, c.artifact)));
      handle := Some(resolved.value);
    }

    method Recognize(c: Command, env: Env) returns (r: Result<Reply, Failure>, ghost used: Option<AccessScope>)
      requires c.Recognize? && UniqueIndexes(store)
      modifies this
      ensures Finished(used, r.Ok?)
      ensures match RunRecognize(old(store), c, env)
              case Ok(done) => r == Ok(done.1) && store == done.0
              case Err(f) => r == Err(f) && store == old(store)
    {
      if !IsInstant(c.receivedAt) { return Err(FieldMissing), None; }
      var scope := new AccessScope(store, env.epoch);
      r := RecognizeIn(scope, c, env);
      scope.Close();
      used := Some(scope);
    }

    method RecognizeIn(scope: AccessScope, c: Command, env: Env) returns (r: Result<Reply, Failure>)
      requires c.Recognize? && IsInstant(c.receivedAt) && scope.Open(store) && env.epoch == scope.persistence.epoch
      modifies this, scope`sourceActive, scope`session, scope.persistence
      ensures scope.session.Committed? <==> r.Ok?
      ensures match RunRecognize(old(store), c, env)
              case Ok(done) => r == Ok(done.1) && store == done.0
              case Err(f) => r == Err(f) && store == old(store)
    {
      var staged, handle := DecideIn(scope, c);
      if staged.Err? { return Err(staged.error); }
      var result := scope.StageRecognition(handle.value, staged.value.0, staged.value.1, env);
      if result.Err? { return Err(result.error); }
      store := scope.persistence.Image();
      return Ok(Recognition(result.value));
    }
  }
}
