/** The pure qualification rules: state validity, management decisions and the
    ENTRY/EXIT decision. A thrown DomainInvariantError is the result Err(Broken). */
module Domain {
  import opened Base

  const MAX_SAFE_INTEGER := 9_007_199_254_740_991

  predicate IsInstant(t: int) {
    -MAX_SAFE_INTEGER <= t <= MAX_SAFE_INTEGER
  }

  predicate IsNullableInstant(t: Option<int>) {
    t.Some? ==> IsInstant(t.value)
  }

  datatype Presence = NotEntered | Inside | Exited

  datatype QualificationState = QualificationState(
    validFrom: int,
    validUntil: int,
    presence: Presence,
    enteredAt: Option<int>,
    exitedAt: Option<int>,
    revokedAt: Option<int>,
    revocationReason: Option<string>,
    expiredTerminalAt: Option<int>)
  {
    /** True when assertQualificationState returns without throwing. */
    predicate Valid() {
      && IsInstant(validFrom)
      && IsInstant(validUntil)
      && IsNullableInstant(enteredAt)
      && IsNullableInstant(exitedAt)
      && IsNullableInstant(revokedAt)
      && IsNullableInstant(expiredTerminalAt)
      && validFrom < validUntil
      && (revokedAt.Some? <==> revocationReason.Some?)
      && (revocationReason.Some? ==> revocationReason.value != "")
      && match presence
         case NotEntered => enteredAt.None? && exitedAt.None? && !(revokedAt.Some? && expiredTerminalAt.Some?)
         case Inside => revokedAt.None? && expiredTerminalAt.None? && enteredAt.Some? && exitedAt.None?
         case Exited => revokedAt.None? && expiredTerminalAt.None? && enteredAt.Some? && exitedAt.Some?
    }

    /** No further admission is possible: used, revoked or explicitly expired. */
    predicate Terminal() {
      presence.Exited? || revokedAt.Some? || expiredTerminalAt.Some?
    }
  }

  datatype DomainError = Broken

  // ---------------------------------------------------------------- management

  datatype ManagementRejection =
    | AlreadyEntered
    | AlreadyUsed
    | AlreadyRevoked
    | AlreadyExpired
    | ReasonRequired
    | UntilNotAfterFrom
    | UntilNotAfterReceived

  datatype Verdict = Allowed | Refused(reason: ManagementRejection)

  function DecideWindow(validFrom: int, validUntil: int, receivedAt: int): Result<Verdict, DomainError> {
    if !IsInstant(validFrom) || !IsInstant(validUntil) || !IsInstant(receivedAt) then Err(Broken)
    else if validUntil <= validFrom then Ok(Refused(UntilNotAfterFrom))
    else if validUntil <= receivedAt then Ok(Refused(UntilNotAfterReceived))
    else Ok(Allowed)
  }

  function DecideMutable(q: QualificationState, receivedAt: int): Result<Verdict, DomainError> {
    if !q.Valid() || !IsInstant(receivedAt) then Err(Broken)
    else if q.presence.Inside? then Ok(Refused(AlreadyEntered))
    else if q.presence.Exited? then Ok(Refused(AlreadyUsed))
    else if q.revokedAt.Some? then Ok(Refused(AlreadyRevoked))
    else if q.expiredTerminalAt.Some? || receivedAt >= q.validUntil then Ok(Refused(AlreadyExpired))
    else Ok(Allowed)
  }

  function DecideUpdate(q: QualificationState, validFrom: int, validUntil: int, receivedAt: int):
    Result<Verdict, DomainError> {
    var mutable :- DecideMutable(q, receivedAt);
    if mutable.Refused? then Ok(mutable) else DecideWindow(validFrom, validUntil, receivedAt)
  }

  function DecideRevocation(q: QualificationState, receivedAt: int, reason: string): Result<Verdict, DomainError> {
    var mutable :- DecideMutable(q, receivedAt);
    if mutable.Refused? then Ok(mutable)
    else if reason == "" then Ok(Refused(ReasonRequired))
    else Ok(Allowed)
  }

  /** decideQualificationExpiration: whether the qualification must be terminalized now. */
  function DecideExpiration(q: QualificationState, receivedAt: int): Result<bool, DomainError> {
    if !q.Valid() || !IsInstant(receivedAt) then Err(Broken)
    else Ok(NeedsTerminalExpiry(q, receivedAt))
  }

  /** The use case's own test before it stages an EXPIRE plan. */
  predicate NeedsTerminalExpiry(q: QualificationState, receivedAt: int) {
    q.presence.NotEntered? && q.revokedAt.None? && q.expiredTerminalAt.None? && receivedAt >= q.validUntil
  }

  predicate CanRetainFaceMapping(q: QualificationState, at: int) {
    && !q.presence.Exited?
    && q.revokedAt.None?
    && q.expiredTerminalAt.None?
    && (q.presence.Inside? || at < q.validUntil)
  }

  // -------------------------------------------------------------------- access

  datatype Direction = Entry | Exit
  datatype Outcome = Accepted | Rejected
  datatype Reason =
    | SourceInactive
    | InvalidQrCredential
    | FaceIsUnknown
    | FaceSubjectNotMapped
    | QualificationRevoked
    | AlreadyInside
    | QualificationAlreadyUsed
    | QualificationNotYetValid
    | QualificationExpired
    | EntryGranted
    | NotInside
    | AlreadyExited
    | ExitRecorded

  datatype IdentityResolution =
    | Resolved(state: QualificationState)
    | NoQrMatch
    | NoFace
    | NoMapping

  datatype Transition = Transition(from: Presence, to: Presence)
  datatype QualificationEffect = NoEffect | ExpireNotEntered
  datatype FaceEffect = Keep | Release

  datatype AccessDecision = AccessDecision(
    outcome: Outcome,
    reason: Reason,
    transition: Option<Transition>,
    qualificationEffect: QualificationEffect,
    faceEffect: FaceEffect)

  function Reject(reason: Reason): AccessDecision {
    AccessDecision(Rejected, reason, None, NoEffect, Keep)
  }

  function DecideEntry(q: QualificationState, receivedAt: int): AccessDecision {
    if q.revokedAt.Some? then Reject(QualificationRevoked)
    else if q.presence.Inside? then Reject(AlreadyInside)
    else if q.presence.Exited? then Reject(QualificationAlreadyUsed)
    else if receivedAt < q.validFrom then Reject(QualificationNotYetValid)
    else if q.expiredTerminalAt.Some? then Reject(QualificationExpired)
    else if receivedAt >= q.validUntil then
      AccessDecision(Rejected, QualificationExpired, None, ExpireNotEntered, Release)
    else
      AccessDecision(Accepted, EntryGranted, Some(Transition(NotEntered, Inside)), NoEffect, Keep)
  }

  function DecideExit(q: QualificationState): AccessDecision {
    match q.presence
    case NotEntered => Reject(NotInside)
    case Exited => Reject(AlreadyExited)
    case Inside => AccessDecision(Accepted, ExitRecorded, Some(Transition(Inside, Exited)), NoEffect, Release)
  }

  function DecideAccess(direction: Direction, sourceActive: bool, resolution: IdentityResolution, receivedAt: int)
    : Result<AccessDecision, DomainError>
  {
    if !IsInstant(receivedAt) then Err(Broken)
    else if !sourceActive then Ok(Reject(SourceInactive))
    else match resolution
      case NoQrMatch => Ok(Reject(InvalidQrCredential))
      case NoFace => Ok(Reject(FaceIsUnknown))
      case NoMapping => Ok(Reject(FaceSubjectNotMapped))
      case Resolved(q) =>
        if !q.Valid() then Err(Broken)
        else if direction.Entry? then Ok(DecideEntry(q, receivedAt)) else Ok(DecideExit(q))
  }

  // ----------------------------------------------------------- what a state can be

  /** A valid state has at most one standing: inside, used, revoked or expired. Times and
      reason are there exactly with the standing they belong to. */
  lemma OneStanding(q: QualificationState)
    requires q.Valid()
    ensures q.revokedAt.Some? ==> q.presence.NotEntered? && q.expiredTerminalAt.None? && q.revocationReason.Some?
    ensures q.expiredTerminalAt.Some? ==> q.presence.NotEntered? && q.revokedAt.None? && q.revocationReason.None?
    ensures q.enteredAt.Some? <==> q.presence.Inside? || q.presence.Exited?
    ensures q.exitedAt.Some? <==> q.presence.Exited?
    ensures q.revocationReason.Some? <==> q.revokedAt.Some?
    ensures q.validFrom < q.validUntil
  {
  }

  // ------------------------------------------------------- cross-rule agreement

  /** ENTRY expires a qualification exactly when the expiration rule terminalizes
      it, and ENTRY admits exactly the unrevoked, unexpired, unused qualification
      inside its half-open window. */
  lemma EntryAgreesWithExpiration(q: QualificationState, t: int)
    requires q.Valid() && IsInstant(t)
    ensures DecideEntry(q, t).qualificationEffect.ExpireNotEntered? <==> DecideExpiration(q, t) == Ok(true)
    ensures DecideEntry(q, t).faceEffect.Release? <==> DecideExpiration(q, t) == Ok(true)
    ensures DecideEntry(q, t).outcome.Accepted? <==>
              q.presence.NotEntered? && !q.Terminal() && q.validFrom <= t < q.validUntil
  {
  }

  /** A management change is refused as expired on a not yet terminal
      qualification exactly when the expiration rule terminalizes it. */
  lemma RefusedAsExpiredIsTerminalizable(q: QualificationState, from: int, until: int, reason: string, t: int)
    requires q.Valid() && IsInstant(from) && IsInstant(until) && IsInstant(t)
    ensures NeedsTerminalExpiry(q, t) ==>
              DecideUpdate(q, from, until, t) == Ok(Refused(AlreadyExpired)) &&
              DecideRevocation(q, t, reason) == Ok(Refused(AlreadyExpired))
    ensures DecideUpdate(q, from, until, t) == Ok(Refused(AlreadyExpired)) ==>
              q.expiredTerminalAt.Some? || DecideExpiration(q, t) == Ok(true)
    ensures DecideRevocation(q, t, reason) == Ok(Refused(AlreadyExpired)) ==>
              q.expiredTerminalAt.Some? || DecideExpiration(q, t) == Ok(true)
  {
  }

  // ------------------------------------------------------------- exact reasons

  /** Which answer an ENTRY attempt gets, each condition on its own. A qualification
      expired before its window begins is reported as not yet valid. */
  lemma EntryReasons(q: QualificationState, t: int)
    requires q.Valid()
    ensures var reason := DecideEntry(q, t).reason;
            && (reason.QualificationRevoked? <==> q.revokedAt.Some?)
            && (reason.AlreadyInside? <==> q.presence.Inside?)
            && (reason.QualificationAlreadyUsed? <==> q.presence.Exited?)
            && (reason.QualificationNotYetValid? <==>
                  q.presence.NotEntered? && q.revokedAt.None? && t < q.validFrom)
            && (reason.QualificationExpired? <==>
                  q.presence.NotEntered? && q.revokedAt.None? && q.validFrom <= t
                  && (q.expiredTerminalAt.Some? || q.validUntil <= t))
            && (reason.EntryGranted? <==>
                  q.presence.NotEntered? && !q.Terminal() && q.validFrom <= t < q.validUntil)
    ensures DecideEntry(q, t).outcome.Accepted? <==> DecideEntry(q, t).reason.EntryGranted?
    ensures DecideEntry(q, t).transition ==
              if DecideEntry(q, t).reason.EntryGranted? then Some(Transition(NotEntered, Inside)) else None
  {
  }

  /** An EXIT attempt looks at the presence only. */
  lemma ExitReasons(q: QualificationState)
    ensures var d := DecideExit(q);
            && (d.reason.NotInside? <==> q.presence.NotEntered?)
            && (d.reason.AlreadyExited? <==> q.presence.Exited?)
            && (d.reason.ExitRecorded? <==> q.presence.Inside?)
            && (d.outcome.Accepted? <==> d.reason.ExitRecorded?)
            && (d.transition == if d.reason.ExitRecorded? then Some(Transition(Inside, Exited)) else None)
            && (d.faceEffect.Release? <==> d.reason.ExitRecorded?)
            && d.qualificationEffect.NoEffect?
  {
  }

  /** An attempt without a qualification, or at an inactive source, is rejected for
      that reason and has no effect. */
  lemma IdentityReasons(direction: Direction, sourceActive: bool, resolution: IdentityResolution, t: int)
    requires IsInstant(t) && (resolution.Resolved? ==> resolution.state.Valid())
    ensures DecideAccess(direction, sourceActive, resolution, t).Ok?
    ensures var d := DecideAccess(direction, sourceActive, resolution, t).value;
            && (d.reason.SourceInactive? <==> !sourceActive)
            && (d.reason.InvalidQrCredential? <==> sourceActive && resolution.NoQrMatch?)
            && (d.reason.FaceIsUnknown? <==> sourceActive && resolution.NoFace?)
            && (d.reason.FaceSubjectNotMapped? <==> sourceActive && resolution.NoMapping?)
            && (!sourceActive || !resolution.Resolved? ==>
                  d.outcome.Rejected? && d.transition.None? && d.qualificationEffect.NoEffect? && d.faceEffect.Keep?)
  {
  }

  /** A qualification can be changed iff it was never used, neither revoked nor
      expired, and its window has not ended; each refusal on its own. */
  lemma MutableReasons(q: QualificationState, t: int)
    requires q.Valid() && IsInstant(t)
    ensures DecideMutable(q, t).Ok?
    ensures var v := DecideMutable(q, t).value;
            && (v.Allowed? <==> q.presence.NotEntered? && !q.Terminal() && t < q.validUntil)
            && (v == Refused(AlreadyEntered) <==> q.presence.Inside?)
            && (v == Refused(AlreadyUsed) <==> q.presence.Exited?)
            && (v == Refused(AlreadyRevoked) <==> q.revokedAt.Some?)
            && (v == Refused(AlreadyExpired) <==>
                  q.presence.NotEntered? && q.revokedAt.None? && (q.expiredTerminalAt.Some? || q.validUntil <= t))
  {
  }

  /** A window is accepted iff it is not empty and has not ended; a management change
      checks the qualification before the window or the reason. */
  lemma ManagementReasons(q: QualificationState, from: int, until: int, reason: string, t: int)
    requires q.Valid() && IsInstant(from) && IsInstant(until) && IsInstant(t)
    ensures DecideWindow(from, until, t) == Ok(Allowed) <==> from < until && t < until
    ensures DecideWindow(from, until, t) == Ok(Refused(UntilNotAfterFrom)) <==> until <= from
    ensures DecideWindow(from, until, t) == Ok(Refused(UntilNotAfterReceived)) <==> from < until <= t
    ensures DecideUpdate(q, from, until, t) == Ok(Allowed) <==>
              DecideMutable(q, t) == Ok(Allowed) && from < until && t < until
    ensures DecideRevocation(q, t, reason) == Ok(Allowed) <==> DecideMutable(q, t) == Ok(Allowed) && reason != ""
    ensures DecideRevocation(q, t, reason) == Ok(Refused(ReasonRequired)) <==>
              DecideMutable(q, t) == Ok(Allowed) && reason == ""
    ensures DecideMutable(q, t).value.Refused? ==>
              DecideUpdate(q, from, until, t) == DecideMutable(q, t) == DecideRevocation(q, t, reason)
  {
  }
}
