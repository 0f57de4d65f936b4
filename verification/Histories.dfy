/** What the event log and the stored qualifications say about each other along
    every run, and what one attempt's answer is worth later. */
module Histories {
  import opened Base
  import opened Domain
  import opened Store
  import opened UseCases
  import opened StoreInvariants
  import opened StoreSafety
  import opened Reachable
  import opened Effects

  // ---------------------------------------------------- the log determines state

  /** Where a qualification stands, as far as accepted attempts go. */
  datatype Standing = Standing(presence: Presence, enteredAt: Option<int>, exitedAt: Option<int>)

  /** The standing obtained by replaying the recorded transitions in commit order. */
  function Replay(events: seq<Event>, id: Uuid): Standing {
    if events == [] then Standing(NotEntered, None, None)
    else
      var e := events[|events| - 1];
      var s := Replay(events[..|events| - 1], id);
      if e.outcome.Rejected? || e.qualificationId != Some(id) || e.transition.None? then s
      else match e.transition.value.to
        case NotEntered => s.(presence := NotEntered)
        case Inside => s.(presence := Inside, enteredAt := Some(e.receivedAt))
        case Exited => s.(presence := Exited, exitedAt := Some(e.receivedAt))
  }

  function StandingAfter(history: seq<(Reason, int)>): Standing {
    if history == [] then Standing(NotEntered, None, None)
    else
      var (reason, at) := history[|history| - 1];
      var s := StandingAfter(history[..|history| - 1]);
      if reason.EntryGranted? then s.(presence := Inside, enteredAt := Some(at))
      else s.(presence := Exited, exitedAt := Some(at))
  }

  lemma {:induction false} ReplayReadsAccepted(events: seq<Event>, id: Uuid)
    requires forall k :: 0 <= k < |events| ==> EventSound(events[k])
    ensures Replay(events, id) == StandingAfter(AcceptedOf(events, id))
  {
    if events != [] {
      var n := |events| - 1;
      ReplayReadsAccepted(events[..n], id);
      var e := events[n];
      if e.outcome.Accepted? && e.qualificationId == Some(id) {
        var before := AcceptedOf(events[..n], id);
        assert (before + [(e.reason, e.receivedAt)])[..|before|] == before;
      } else {
        assert AcceptedOf(events, id) == AcceptedOf(events[..n], id);
      }
    }
  }

  lemma StandingOfHistory(s: QualificationState)
    requires s.Valid()
    ensures StandingAfter(HistoryOf(s)) == Standing(s.presence, s.enteredAt, s.exitedAt)
  {
  }

  /** In every store of every run from a seed whose log already agrees with it,
      each qualification stands exactly where replaying the log puts it. */
  lemma LogReplaysToState(seed: Database, steps: seq<Step>, id: Uuid)
    requires Valid(seed) && id in RunAll(seed, steps).qualifications
    ensures var db := RunAll(seed, steps);
            var s := db.qualifications[id].state;
            Replay(db.events, id) == Standing(s.presence, s.enteredAt, s.exitedAt)
  {
    RunKeepsValid(seed, steps);
    var db := RunAll(seed, steps);
    assert QualificationSound(db.qualifications[id]);
    ReplayReadsAccepted(db.events, id);
    StandingOfHistory(db.qualifications[id].state);
  }

  /** The accepted history up to an event is a prefix of the whole one, and the
      event sits right behind it. */
  lemma {:induction false} AcceptedPosition(events: seq<Event>, id: Uuid, k: nat)
    requires k < |events| && events[k].outcome.Accepted? && events[k].qualificationId == Some(id)
    ensures var before := |AcceptedOf(events[..k], id)|;
            before < |AcceptedOf(events, id)|
              && AcceptedOf(events, id)[before] == (events[k].reason, events[k].receivedAt)
    ensures AcceptedOf(events[..k], id) <= AcceptedOf(events, id)
  {
    var n := |events| - 1;
    if k < n {
      AcceptedPosition(events[..n], id, k);
      assert events[..n][..k] == events[..k];
    }
  }

  predicate AcceptedFor(events: seq<Event>, k: int, id: Uuid) {
    0 <= k < |events| && events[k].outcome.Accepted? && events[k].qualificationId == Some(id)
  }

  /** With at most an entry then an exit in the whole history, an accepted event
      is the one or the other, by what was accepted before it. */
  lemma VisitShape(events: seq<Event>, id: Uuid, s: QualificationState, k: nat)
    requires s.Valid() && AcceptedOf(events, id) == HistoryOf(s) && AcceptedFor(events, k, id)
    ensures var e := events[k];
            if AcceptedOf(events[..k], id) == []
            then e.reason.EntryGranted? && !s.presence.NotEntered? && s.enteredAt == Some(e.receivedAt)
            else e.reason.ExitRecorded? && s.presence.Exited? && s.exitedAt == Some(e.receivedAt)
  {
    AcceptedPosition(events, id, k);
  }

  lemma EarlierAccepted(events: seq<Event>, id: Uuid, j: nat, k: nat)
    requires j < k < |events| && AcceptedFor(events, j, id)
    ensures AcceptedOf(events[..k], id) != []
  {
    assert events[..k][j] == events[j];
    AcceptedPosition(events[..k], id, j);
  }

  /** A qualification is accepted at most twice: first by one ENTRY_GRANTED inside
      the window now stored, then by one EXIT_RECORDED. */
  lemma AtMostOneVisit(db: Database, id: Uuid, k: nat)
    requires Valid(db) && AcceptedFor(db.events, k, id)
    ensures var s := db.qualifications[id].state;
            var e := db.events[k];
            if e.reason.EntryGranted?
            then !s.presence.NotEntered? && s.enteredAt == Some(e.receivedAt)
              && s.validFrom <= e.receivedAt < s.validUntil
            else e.reason.ExitRecorded? && s.presence.Exited? && s.exitedAt == Some(e.receivedAt)
    ensures forall j :: AcceptedFor(db.events, j, id) && j < k ==>
              db.events[j].reason.EntryGranted? && db.events[k].reason.ExitRecorded?
    ensures db.events[k].reason.ExitRecorded? ==>
              exists j :: AcceptedFor(db.events, j, id) && j < k && db.events[j].reason.EntryGranted?
  {
    var s := db.qualifications[id].state;
    assert QualificationSound(db.qualifications[id]);
    VisitShape(db.events, id, s, k);
    forall j | AcceptedFor(db.events, j, id) && j < k
      ensures db.events[j].reason.EntryGranted? && db.events[k].reason.ExitRecorded?
    {
      EarlierAccepted(db.events, id, j, k);
      VisitShape(db.events, id, s, j);
      if AcceptedOf(db.events[..j], id) != [] {
        TwoBeforeThird(db.events, id, s, j, k);
      }
    }
    if db.events[k].reason.ExitRecorded? {
      var j := FirstAccepted(db.events[..k], id);
      assert db.events[..k][j] == db.events[j];
      assert AcceptedFor(db.events, j, id) && j < k;
    }
  }

  /** There is no third accepted event. */
  lemma TwoBeforeThird(events: seq<Event>, id: Uuid, s: QualificationState, j: nat, k: nat)
    requires s.Valid() && AcceptedOf(events, id) == HistoryOf(s)
    requires j < k && AcceptedFor(events, j, id) && AcceptedFor(events, k, id)
    ensures AcceptedOf(events[..j], id) == []
  {
    assert events[..k][j] == events[j];
    AcceptedPosition(events, id, k);
    AcceptedPosition(events[..k], id, j);
    assert events[..k][..j] == events[..j];
  }

  lemma {:induction false} FirstAccepted(events: seq<Event>, id: Uuid) returns (j: nat)
    requires AcceptedOf(events, id) != []
    ensures AcceptedFor(events, j, id)
  {
    var n := |events| - 1;
    if AcceptedFor(events, n, id) {
      j := n;
    } else {
      j := FirstAccepted(events[..n], id);
    }
  }

  // ------------------------------------------------------------------- finality

  /** A revoked, expired or used qualification keeps its state and its accepted
      history for ever, whatever runs afterwards. */
  lemma TerminalIsFinal(db: Database, steps: seq<Step>, id: Uuid)
    requires Valid(db) && id in db.qualifications && db.qualifications[id].state.Terminal()
    ensures id in RunAll(db, steps).qualifications
    ensures RunAll(db, steps).qualifications[id].state == db.qualifications[id].state
    ensures AcceptedOf(RunAll(db, steps).events, id) == AcceptedOf(db.events, id)
  {
    RunGrows(db, steps);
    RunKeepsValid(db, steps);
    assert QualificationSound(db.qualifications[id]);
    assert RunAll(db, steps).qualifications[id].state == db.qualifications[id].state;
  }

  /** An update or revocation of an overdue, never used qualification is refused,
      yet commits the terminal expiry at its own receive time and frees the face. */
  lemma OverdueIsExpired(db: Database, c: Command, env: Env)
    requires Valid(db) && (c.Update? || c.Revoke?)
    requires IsInstant(c.receivedAt) && IsInstant(env.now) && db.metadata.datasetEpoch == env.epoch
    requires c.id in db.qualifications && NeedsTerminalExpiry(db.qualifications[c.id].state, c.receivedAt)
    requires c.Update? ==> c.name.Some? || c.from.Some? || c.until.Some? || !c.faceField.FaceOmitted?
    ensures Run(db, c, env).Ok? && Run(db, c, env).value.1 == ExpiredTerminalPersisted
    ensures var after := Run(db, c, env).value.0;
            && c.id in after.qualifications
            && after.qualifications[c.id].state ==
               db.qualifications[c.id].state.(expiredTerminalAt := Some(c.receivedAt))
            && (forall i :: !OwnedBy(after.slots, i, c.id))
            && after.events == db.events
  {
    var q := db.qualifications[c.id];
    assert QualificationSound(q);
    CurrentSlotFinds(db.slots, c.id);
    OverdueExpires(db, ProvenanceOf(c.id, q), c.receivedAt, env);
  }

  lemma OverdueExpires(db: Database, p: Provenance, receivedAt: int, env: Env)
    requires SlotsValid(db) && Current(db, p).Ok?
    requires IsInstant(receivedAt) && IsInstant(env.now) && db.metadata.datasetEpoch == env.epoch
    requires NeedsTerminalExpiry(db.qualifications[p.qualificationId].state, receivedAt)
    ensures var r := ApplyManagement(db, ExpirePlan(p), receivedAt, env);
            && r.Ok?
            && p.qualificationId in r.value.qualifications
            && r.value.qualifications[p.qualificationId].state ==
                 db.qualifications[p.qualificationId].state.(expiredTerminalAt := Some(receivedAt))
            && (forall i :: !OwnedBy(r.value.slots, i, p.qualificationId))
            && r.value.events == db.events
  {
    var q := db.qualifications[p.qualificationId];
    var expired := q.(state := q.state.(expiredTerminalAt := Some(receivedAt)), version := q.version + 1,
                      updatedAt := env.now);
    ReleaseStepKeeps(db, p, expired, db.(qualifications := db.qualifications[p.qualificationId := expired]), env);
  }

  // --------------------------------------------------------- idempotent replay

  lemma FindsIn(events: seq<Event>, e: Event)
    requires e in events
    requires forall j, k :: 0 <= j < k < |events| ==> events[j].key != events[k].key
    ensures FindEvent(events, e.key) == Some(e)
  {
  }

  /** Staging a stored key again, with whatever plan and after whatever run,
      returns the first event when the artifact matches and a conflict otherwise,
      and leaves the store untouched. */
  lemma RestagingReplays(db: Database, steps: seq<Step>, e: Event, plan: RecognitionPlan, envelope: Envelope, env: Env)
    requires Valid(db) && e in db.events
    requires envelope.key == e.key && IsInstant(envelope.receivedAt)
    ensures var later := RunAll(db, steps);
            ApplyRecognition(later, plan, envelope, env) ==
              Ok((later, if envelope.artifact == e.artifact then Replayed(e) else IdempotencyConflict))
  {
    RunGrows(db, steps);
    RunKeepsValid(db, steps);
    FindsIn(RunAll(db, steps).events, e);
  }

  /** What the adapter answers when its transaction lost a race on the unique
      event key (DUPLICATE_KEY or WRITE_CONFLICT): the stored event decides alone. */
  datatype Settlement = SettledReplay(event: Event) | SettledConflict | Unsettled

  ghost function SettleAfterConflict(current: Database, envelope: Envelope): Settlement {
    match FindEvent(current.events, envelope.key)
    case None => Unsettled
    case Some(e) => if e.artifact == envelope.artifact then SettledReplay(e) else SettledConflict
  }

  lemma CommittedIsLogged(db: Database, c: Command, env: Env, e: Event)
    requires SlotsValid(db) && QualificationsSound(db.qualifications) && c.Recognize?
    requires Run(db, c, env).Ok? && Run(db, c, env).value.1 == Recognition(Committed(e))
    ensures e in Run(db, c, env).value.0.events && e.key == c.key && e.artifact == c.artifact
  {
    DecideFits(db, c);
    var (plan, envelope) := Decide(db, c).value;
    RecordShape(db, plan, envelope, env);
    var after := Run(db, c, env).value.0;
    assert after.events[|after.events| - 1] == e;
  }

  lemma StoredEventSettles(db: Database, steps: seq<Step>, e: Event, rival: Envelope)
    requires Valid(db) && e in db.events && rival.key == e.key
    ensures SettleAfterConflict(RunAll(db, steps), rival) ==
              if rival.artifact == e.artifact then SettledReplay(e) else SettledConflict
  {
    RunGrows(db, steps);
    RunKeepsValid(db, steps);
    FindsIn(RunAll(db, steps).events, e);
  }

  /** Whoever loses the race to an attempt that committed is answered, at any
      later point, exactly like a late re-staging of that key. */
  lemma LoserAgreesWithRestaging(db: Database, c: Command, env: Env, e: Event, steps: seq<Step>, rival: Envelope)
    requires Valid(db) && c.Recognize? && rival.key == c.key
    requires Run(db, c, env).Ok? && Run(db, c, env).value.1 == Recognition(Committed(e))
    ensures SettleAfterConflict(RunAll(Run(db, c, env).value.0, steps), rival) ==
              if rival.artifact == c.artifact then SettledReplay(e) else SettledConflict
  {
    assert Run(db, c, env).value.0 == After(db, Step(c, env));
    StepKeepsValid(db, Step(c, env));
    CommittedIsLogged(db, c, env, e);
    StoredEventSettles(Run(db, c, env).value.0, steps, e, rival);
  }

  // ----------------------------------------------------- the event answers its request

  /** assertRecognitionEventInvariant: the request's own source, kind and receive
      time, and the persisted-event matrix. */
  predicate AnswersRequest(e: Event, sourceId: Uuid, input: RecognitionInput, receivedAt: int) {
    && EventSound(e)
    && e.key.sourceId == sourceId
    && e.kind == MediaOf(input)
    && e.receivedAt == receivedAt
  }

  /** An event this very request committed always passes; a replayed one passes
      iff the stored kind and receive time are the request's own, which a retry
      with a new receive time never satisfies. */
  lemma ReplyAnswersRequest(db: Database, c: Command, env: Env)
    requires Valid(db) && c.Recognize? && Run(db, c, env).Ok?
    ensures var result := Run(db, c, env).value.1.result;
            match result
            case Committed(e) => AnswersRequest(e, c.key.sourceId, c.input, c.receivedAt) && e.key == c.key
              && e.artifact == c.artifact
            case Replayed(e) =>
              && e in db.events && e.artifact == c.artifact
              && (AnswersRequest(e, c.key.sourceId, c.input, c.receivedAt) <==>
                    e.kind == MediaOf(c.input) && e.receivedAt == c.receivedAt)
            case IdempotencyConflict => exists e :: e in db.events && e.key == c.key && e.artifact != c.artifact
  {
    DecideFits(db, c);
    var (plan, envelope) := Decide(db, c).value;
    var found := FindEvent(db.events, c.key);
    if found.None? {
      RecordShape(db, plan, envelope, env);
      PlannedEventSound(db, plan, envelope, env);
    } else {
      assert found.value in db.events && found.value.key == c.key;
    }
  }

  // ------------------------------------------------------------ the query's view

  /** mapQualification's faceBound at observedAt. */
  ghost predicate FaceBoundView(db: Database, id: Uuid, observedAt: int)
    requires id in db.qualifications
  {
    && (exists i :: OwnedBy(db.slots, i, id)
                    && db.slots[i].owner.value.incarnation == db.qualifications[id].incarnation)
    && CanRetainFaceMapping(db.qualifications[id].state, observedAt)
  }

  /** Whom a face belongs to, if anyone. */
  ghost predicate HolderOf(db: Database, face: Face, id: Uuid) {
    && id in db.qualifications
    && exists i :: BoundFace(db.slots, i, face) && OwnedBy(db.slots, i, id)
  }

  /** A FACE_MATCHED attempt at t is accepted at an active source iff the face has
      a holder whose query view at t reports faceBound, and: at ENTRY it has not
      entered and its window has begun; at EXIT it is inside. */
  lemma FaceMatchedAcceptedIff(db: Database, c: Command)
    requires Valid(db) && c.Recognize? && c.input.MatchedFace? && IsInstant(c.receivedAt)
    requires c.key.sourceId in db.sources && db.sources[c.key.sourceId].active
    ensures Decide(db, c).Ok?
    ensures var d := Decide(db, c).value.0.decision;
            var direction := db.sources[c.key.sourceId].direction;
            && (d.outcome.Accepted? <==>
                  exists id :: HolderOf(db, c.input.face, id) && FaceBoundView(db, id, c.receivedAt)
                    && var s := db.qualifications[id].state;
                       if direction.Entry? then s.presence.NotEntered? && s.validFrom <= c.receivedAt
                       else s.presence.Inside?)
            && (d.outcome.Accepted? ==> d.reason == if direction.Entry? then EntryGranted else ExitRecorded)
            && (d.reason.FaceSubjectNotMapped? <==> !exists id :: HolderOf(db, c.input.face, id))
  {
    var face := c.input.face;
    var claims := ResolveFace(db, face);
    if exists i :: BoundFace(db.slots, i, face) {
      var i :| BoundFace(db.slots, i, face);
      var id := db.slots[i].owner.value.qualificationId;
      assert OwnedBy(db.slots, i, id);
      assert QualificationSound(db.qualifications[id]);
      assert HolderOf(db, face, id);
      assert forall k :: HolderOf(db, face, k) ==> k == id;
      assert claims.Ok? && claims.value.qualification == Some(ProvenanceOf(id, db.qualifications[id]));
    } else {
      assert forall k :: !HolderOf(db, face, k);
    }
  }

  // ----------------------------------------------------------------------- seed

  /** 2026-01-01T00:00:00Z in milliseconds. */
  const SEED_TIME := 1_767_225_600_000

  /** The fixed identities of the seed documents; only slot and source identities
      need to differ from each other. */
  datatype SeedIds = SeedIds(
    qualification: Uuid, incarnation: Uuid, digest: Uuid,
    boundSlot: Uuid, boundIncarnation: Uuid, emptySlot: Uuid, emptyIncarnation: Uuid,
    entry: Uuid, entryIncarnation: Uuid, exit: Uuid, exitIncarnation: Uuid,
    reference: Uuid)

  /** The data a reset installs: one unused qualification bound to one of two
      slots, an ENTRY and an EXIT source, no events. */
  function SeedDatabase(epoch: Uuid, ids: SeedIds): Database {
    var window := QualificationState(SEED_TIME - 60_000, SEED_TIME + 3_600_000, NotEntered, None, None, None, None,
                                     None);
    Database(
      map[ids.qualification :=
          Qualification(ids.incarnation, 0, "G04b fixture", window, ids.digest, SEED_TIME, SEED_TIME)],
      map[ids.boundSlot :=
          Slot(Face("DemoFace", "subject-1"), Some(Owner(ids.qualification, ids.incarnation)), ids.boundIncarnation, 0),
          ids.emptySlot := Slot(Face("DemoFace.empty", "empty-1"), None, ids.emptyIncarnation, 0)],
      [],
      map[ids.entry := Source(Entry, true, ids.entryIncarnation, 0),
          ids.exit := Source(Exit, true, ids.exitIncarnation, 0)],
      Metadata(epoch, ids.reference, 0, 0, 2))
  }

  /** The reset seed is valid, so every store of every run from it is. */
  lemma SeedRunsAreValid(epoch: Uuid, ids: SeedIds, steps: seq<Step>)
    requires ids.boundSlot != ids.emptySlot
    ensures Valid(RunAll(SeedDatabase(epoch, ids), steps))
  {
    var db := SeedDatabase(epoch, ids);
    var bound, spare := db.slots[ids.boundSlot], db.slots[ids.emptySlot];
    assert bound.face.provider != spare.face.provider by {
      assert |bound.face.provider| != |spare.face.provider|;
    }
    assert db.slots.Keys == {ids.boundSlot, ids.emptySlot};
    assert |db.slots| == |db.slots.Keys| == 2;
    assert Valid(db);
    RunKeepsValid(db, steps);
  }
}
