/** Exits are not compared with the clock: when a recorded exit lies before the entry
    it ends. */
module ExitTimes {
  import opened Base
  import opened Domain
  import opened Store
  import opened UseCases
  import opened StoreInvariants
  import opened Reachable
  import opened Effects
  import opened Histories

  /** The stored exit time lies before the stored entry time. */
  predicate ExitFirst(s: QualificationState) {
    s.presence.Exited? && s.enteredAt.Some? && s.exitedAt.Some? && s.exitedAt.value < s.enteredAt.value
  }

  // ---------------------------------------------------------------- one recorded exit

  lemma AcceptedMoves(db: Database, c: Command, env: Env, id: Uuid)
    requires Valid(db) && c.Recognize? && Run(db, c, env).Ok? && id in db.qualifications
    ensures var after := Run(db, c, env).value.0;
            && id in after.qualifications
            && (AcceptedOf(after.events, id) == AcceptedOf(db.events, id)
                || exists reason ::
                     AcceptedOf(after.events, id) == AcceptedOf(db.events, id) + [(reason, c.receivedAt)])
  {
    var after := Run(db, c, env).value.0;
    DecideFits(db, c);
    var (plan, envelope) := Decide(db, c).value;
    if FindEvent(db.events, envelope.key).None? {
      RecordEffect(db, plan, envelope, env);
      var e := NewEvent(plan, envelope, env);
      assert after.events[..|after.events| - 1] == db.events;
      if e.outcome.Accepted? && e.qualificationId == Some(id) {
        assert AcceptedOf(after.events, id) == AcceptedOf(db.events, id) + [(e.reason, c.receivedAt)];
      }
    }
    RecognitionGrowsFor(db, c, env);
  }

  lemma RecognitionGrowsFor(db: Database, c: Command, env: Env)
    requires Valid(db) && c.Recognize? && Run(db, c, env).Ok?
    ensures Grows(db, Run(db, c, env).value.0) && Valid(Run(db, c, env).value.0)
  {
    var step := Step(c, env);
    assert After(db, step) == Run(db, c, env).value.0;
    var _ := StepEffect(db, step);
    StepKeepsValid(db, step);
  }

  /** An attempt that ends the stay of an INSIDE qualification records an exit before
      its entry exactly if it was received before that entry. */
  lemma ExitFirstIff(db: Database, c: Command, env: Env, id: Uuid)
    requires Valid(db) && c.Recognize? && Run(db, c, env).Ok?
    requires id in db.qualifications && db.qualifications[id].state.presence.Inside?
    ensures id in Run(db, c, env).value.0.qualifications
    ensures Run(db, c, env).value.0.qualifications[id].state.presence.Exited? ==>
              (ExitFirst(Run(db, c, env).value.0.qualifications[id].state) <==>
                 c.receivedAt < db.qualifications[id].state.enteredAt.value)
  {
    AcceptedMoves(db, c, env, id);
    RecognitionGrowsFor(db, c, env);
    var after := Run(db, c, env).value.0;
    var s, t := db.qualifications[id].state, after.qualifications[id].state;
    assert QualificationSound(db.qualifications[id]) && QualificationSound(after.qualifications[id]);
    assert HistoryOf(s) == [(EntryGranted, s.enteredAt.value)];
    if t.presence.Exited? {
      assert HistoryOf(t) == [(EntryGranted, t.enteredAt.value), (ExitRecorded, t.exitedAt.value)];
      assert |HistoryOf(t)| == 2 && HistoryOf(t)[0] == HistoryOf(s)[0] && HistoryOf(t)[1].1 == c.receivedAt;
    }
  }

  // -------------------------------------------------------------------- over the log

  /** In the log of id, the exit was received before the entry. */
  ghost predicate ExitLoggedFirst(events: seq<Event>, id: Uuid) {
    exists j, k :: AcceptedFor(events, j, id) && AcceptedFor(events, k, id)
                   && events[j].reason.EntryGranted? && events[k].reason.ExitRecorded?
                      && events[k].receivedAt < events[j].receivedAt
  }

  /** In every store of every run, a stay is stored with its exit before its entry
      exactly if the log holds its exit with the earlier receive time. */
  lemma RunExitFirstIff(seed: Database, steps: seq<Step>, id: Uuid)
    requires Valid(seed) && id in RunAll(seed, steps).qualifications
    ensures var db := RunAll(seed, steps);
            ExitFirst(db.qualifications[id].state) <==> ExitLoggedFirst(db.events, id)
  {
    RunKeepsValid(seed, steps);
    LogExitFirstIff(RunAll(seed, steps), id);
  }

  lemma LogExitFirstIff(db: Database, id: Uuid)
    requires Valid(db) && id in db.qualifications
    ensures ExitFirst(db.qualifications[id].state) <==> ExitLoggedFirst(db.events, id)
  {
    var s := db.qualifications[id].state;
    assert QualificationSound(db.qualifications[id]);
    forall j | AcceptedFor(db.events, j, id)
      ensures if db.events[j].reason.EntryGranted? then s.enteredAt == Some(db.events[j].receivedAt)
              else s.presence.Exited? && s.exitedAt == Some(db.events[j].receivedAt)
    {
      AtMostOneVisit(db, id, j);
    }
    if s.presence.Exited? {
      assert HistoryOf(s) == [(EntryGranted, s.enteredAt.value), (ExitRecorded, s.exitedAt.value)];
      var k := LastAccepted(db.events, id);
      assert AcceptedOf(db.events, id)[1] == (db.events[k].reason, db.events[k].receivedAt);
      AtMostOneVisit(db, id, k);
      var j :| AcceptedFor(db.events, j, id) && j < k && db.events[j].reason.EntryGranted?;
      assert s.enteredAt == Some(db.events[j].receivedAt) && s.exitedAt == Some(db.events[k].receivedAt);
    }
  }

  lemma {:induction false} LastAccepted(events: seq<Event>, id: Uuid) returns (k: nat)
    requires AcceptedOf(events, id) != []
    ensures AcceptedFor(events, k, id)
            && AcceptedOf(events, id) == AcceptedOf(events[..k], id) + [(events[k].reason, events[k].receivedAt)]
  {
    var n := |events| - 1;
    if AcceptedFor(events, n, id) {
      k := n;
    } else {
      k := LastAccepted(events[..n], id);
      assert events[..n][..k] == events[..k];
    }
  }

  // ------------------------------------------------------------------ it does happen

  lemma ArrivalMoves(db: Database, plan: RecognitionPlan, envelope: Envelope, env: Env)
    requires SlotsValid(db) && QualificationsSound(db.qualifications) && IsInstant(envelope.receivedAt)
             && IsInstant(env.now)
    requires PlanFits(db, plan, envelope.direction, envelope.receivedAt) && plan.claims.qualification.Some?
    ensures var id := plan.claims.qualification.value.qualificationId;
            var r := QualificationStep(db, plan, envelope.receivedAt, env);
            && r.Ok?
            && r.value == db.(qualifications := r.value.qualifications, slots := r.value.slots)
            && id in r.value.qualifications
            && r.value.qualifications[id].state ==
               ArrivalState(db.qualifications[id].state, plan.decision, envelope.receivedAt)
            && |r.value.slots| == r.value.metadata.slotCount
  {
    var p := plan.claims.qualification.value;
    assert QualificationSound(db.qualifications[p.qualificationId]);
    ReleaseFrees(db.slots, p.qualificationId, p.incarnation);
    QualificationStepShape(db, plan, envelope.direction, envelope.receivedAt, env);
  }

  /** Recording a plan decided on a stored qualification succeeds at a source of its
      dataset, and writes the arrival state. */
  lemma RecordCommits(db: Database, plan: RecognitionPlan, envelope: Envelope, env: Env)
    requires SlotsValid(db) && QualificationsSound(db.qualifications) && IsInstant(envelope.receivedAt)
    requires PlanFits(db, plan, envelope.direction, envelope.receivedAt) && plan.claims.qualification.Some?
    requires GuardStep(db, envelope, env).Ok? && IsInstant(env.now) && IsInstant(env.recordedAt)
    requires env.epoch == db.metadata.datasetEpoch && forall e :: e in db.events ==> e.eventId != env.eventId
    ensures RecordStep(db, plan, envelope, env).Ok?
    ensures var id := plan.claims.qualification.value.qualificationId;
            var after := RecordStep(db, plan, envelope, env).value.0;
            && id in after.qualifications
            && after.qualifications[id].state ==
               ArrivalState(db.qualifications[id].state, plan.decision, envelope.receivedAt)
            && after.sources == Guard(db, envelope.key.sourceId).sources
  {
    GuardShape(db, envelope, env);
    var guarded := Guard(db, envelope.key.sourceId);
    ArrivalMoves(guarded, plan, envelope, env);
    LogShape(QualificationStep(guarded, plan, envelope.receivedAt, env).value, plan, envelope, env);
  }

  /** The one qualification that carries a digest is the one decided on. */
  lemma QrPlan(db: Database, c: Command, id: Uuid)
    requires Valid(db) && c.Recognize? && IsInstant(c.receivedAt)
    requires id in db.qualifications && c.input == QrScanned(db.qualifications[id].qrLookupDigest)
    requires c.key.sourceId in db.sources && db.sources[c.key.sourceId].active
    ensures Decide(db, c).Ok? && CheckHandle(db, Decide(db, c).value.0).Ok?
    ensures Decide(db, c).value.0.claims.qualification == Some(ProvenanceOf(id, db.qualifications[id]))
  {
    DecideSucceeds(db, c);
    CurrentSlotFinds(db.slots, id);
    assert QualificationSound(db.qualifications[id]);
  }

  /** An attempt with the QR credential of id at an active source of the dataset. */
  predicate Attempts(db: Database, step: Step, id: Uuid) {
    && step.command.Recognize? && step.command.key.sourceId in db.sources
       && db.sources[step.command.key.sourceId].active
    && IsInstant(step.command.receivedAt) && IsInstant(step.env.now) && IsInstant(step.env.recordedAt)
    && id in db.qualifications && step.command.input == QrScanned(db.qualifications[id].qrLookupDigest)
    && step.env.epoch == db.metadata.datasetEpoch
    && step.command.artifact.comparisonReferenceId == db.metadata.comparisonReferenceId
  }

  /** Its key and event identity are new. */
  ghost predicate IsNew(db: Database, step: Step) {
    step.command.Recognize? && FindEvent(db.events, step.command.key).None?
    && forall e :: e in db.events ==> e.eventId != step.env.eventId
  }

  /** A first attempt commits one event and moves id by the decision on its stored state. */
  lemma QrAttemptCommits(db: Database, step: Step, id: Uuid)
    requires Valid(db) && Attempts(db, step, id) && IsNew(db, step)
    ensures var after, c := After(db, step), step.command;
            && Valid(after) && Grows(db, after)
            && id in after.qualifications
            && after.qualifications[id].state ==
                 ArrivalState(db.qualifications[id].state,
                              DecisionOn(db.qualifications[id].state, db.sources[c.key.sourceId].direction,
                                         c.receivedAt), c.receivedAt)
            && (exists e :: after.events == db.events + [e] && e.key == c.key && e.eventId == step.env.eventId)
            && after.sources == Guard(db, c.key.sourceId).sources
  {
    var c, env := step.command, step.env;
    QrPlan(db, c, id);
    DecideFits(db, c);
    var (plan, envelope) := Decide(db, c).value;
    RecordCommits(db, plan, envelope, env);
    RecordEffect(db, plan, envelope, env);
    assert RecordStep(db, plan, envelope, env).value.0.events == db.events + [NewEvent(plan, envelope, env)];
    RecognitionGrowsFor(db, c, env);
  }

  lemma StillAttempts(before: Database, after: Database, at: Uuid, step: Step, id: Uuid)
    requires Attempts(before, step, id) && Grows(before, after)
    requires at in before.sources && after.sources == Guard(before, at).sources
    ensures Attempts(after, step, id)
    ensures after.sources[step.command.key.sourceId].direction == before.sources[step.command.key.sourceId].direction
  {
  }

  /** The seed's visitor enters, and an exit attempt received earlier is recorded. */
  function Reordered(epoch: Uuid, ids: SeedIds): seq<Step> {
    var artifact := Artifact(ids.digest, ids.reference);
    var env := Env(epoch, SEED_TIME, SEED_TIME, ids.qualification, ids.incarnation, ids.digest,
                   ids.emptySlot, ids.emptyIncarnation, Uuid(0), ids.emptySlot);
    [Step(Recognize(EventKey(ids.entry, "entry"), QrScanned(ids.digest), artifact, SEED_TIME), env),
     Step(Recognize(EventKey(ids.exit, "exit"), QrScanned(ids.digest), artifact, SEED_TIME - 1),
          env.(eventId := Uuid(1)))]
  }

  lemma EntryThenExit(s: QualificationState, in_: int, out: int)
    requires s.presence.NotEntered? && !s.Terminal() && s.validFrom <= in_ < s.validUntil && out < in_
    ensures var inside := ArrivalState(s, DecisionOn(s, Entry, in_), in_);
            ExitFirst(ArrivalState(inside, DecisionOn(inside, Exit, out), out))
  {
  }

  lemma SecondIsNew(db: Database, e: Event, step: Step)
    requires db.events == [e] && step.command.Recognize? && e.key != step.command.key && e.eventId != step.env.eventId
    ensures IsNew(db, step)
  {
  }

  /** An entry at one source, then an exit received earlier at another. */
  lemma EntryThenEarlierExit(db: Database, enter: Step, leave: Step, id: Uuid)
    requires Valid(db) && db.events == [] && Attempts(db, enter, id) && Attempts(db, leave, id)
    requires var s := db.qualifications[id].state;
             s.presence.NotEntered? && !s.Terminal() && s.validFrom <= enter.command.receivedAt < s.validUntil
    requires db.sources[enter.command.key.sourceId].direction.Entry?
             && db.sources[leave.command.key.sourceId].direction.Exit?
    requires enter.command.key != leave.command.key && enter.env.eventId != leave.env.eventId
    requires leave.command.receivedAt < enter.command.receivedAt
    ensures id in After(After(db, enter), leave).qualifications
    ensures ExitFirst(After(After(db, enter), leave).qualifications[id].state)
  {
    QrAttemptCommits(db, enter, id);
    var inside := After(db, enter);
    StillAttempts(db, inside, enter.command.key.sourceId, leave, id);
    var e :| inside.events == db.events + [e] && e.key == enter.command.key && e.eventId == enter.env.eventId;
    SecondIsNew(inside, e, leave);
    QrAttemptCommits(inside, leave, id);
    EntryThenExit(db.qualifications[id].state, enter.command.receivedAt, leave.command.receivedAt);
  }

  lemma TwoSteps(db: Database, a: Step, b: Step)
    ensures RunAll(db, [a, b]) == After(After(db, a), b)
  {
    assert [a, b][..1] == [a] && [a][..0] == [];
    assert RunAll(db, [a]) == After(RunAll(db, [a][..0]), a);
    assert RunAll(db, [a, b]) == After(RunAll(db, [a, b][..1]), b);
  }

  /** From every reset seed, that run stores an exit before its entry. */
  lemma ExitBeforeEntryHappens(epoch: Uuid, ids: SeedIds)
    requires ids.boundSlot != ids.emptySlot && ids.entry != ids.exit
    ensures var db := RunAll(SeedDatabase(epoch, ids), Reordered(epoch, ids));
            ids.qualification in db.qualifications && ExitFirst(db.qualifications[ids.qualification].state)
  {
    var seed, steps := SeedDatabase(epoch, ids), Reordered(epoch, ids);
    SeedRunsAreValid(epoch, ids, []);
    TwoSteps(seed, steps[0], steps[1]);
    EntryThenEarlierExit(seed, steps[0], steps[1], ids.qualification);
  }
}
