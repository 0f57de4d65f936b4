/** Concurrent transactions under snapshot isolation. A transaction reads one
    committed state, buffers its writes, and commits later provided nobody wrote
    the same documents in between. Snapshot isolation alone allows write skew; the
    store's guard documents rule it out: every history equals the serial run of
    its transactions in commit order. */
module Serializability {
  import opened Base
  import opened Domain
  import opened Store
  import opened UseCases
  import opened StoreInvariants
  import opened Reachable
  import opened Effects
  import opened Histories

  // ------------------------------------------------------- snapshot isolation

  /** Document k was inserted or rewritten (every write bumps a version). */
  predicate Wrote<V(==)>(before: map<Uuid, V>, after: map<Uuid, V>, k: Uuid) {
    k in after && (k !in before || before[k] != after[k])
  }

  predicate SameAt<V(==)>(a: map<Uuid, V>, b: map<Uuid, V>, k: Uuid) {
    (k in a <==> k in b) && (k in a && k in b ==> a[k] == b[k])
  }

  /** First committer wins: what was written from the snapshot is still, at commit,
      as the snapshot had it. */
  ghost predicate NoConflict(snapshot: Database, written: Database, current: Database) {
    && (forall k :: Wrote(snapshot.qualifications, written.qualifications, k) ==>
        SameAt(snapshot.qualifications, current.qualifications, k))
    && (forall k :: Wrote(snapshot.slots, written.slots, k) ==> SameAt(snapshot.slots, current.slots, k))
    && (forall k :: Wrote(snapshot.sources, written.sources, k) ==> SameAt(snapshot.sources, current.sources, k))
    && (written.metadata != snapshot.metadata ==> current.metadata == snapshot.metadata)
  }

  function Merge<V(==)>(current: map<Uuid, V>, before: map<Uuid, V>, after: map<Uuid, V>): map<Uuid, V> {
    map k | k in current.Keys + after.Keys ::
      if k in after && (k !in current || Wrote(before, after, k)) then after[k] else current[k]
  }

  /** Only the written documents are installed, and the inserted events appended. */
  function Install(current: Database, snapshot: Database, written: Database): Database
    requires |snapshot.events| <= |written.events|
  {
    Database(
      Merge(current.qualifications, snapshot.qualifications, written.qualifications),
      Merge(current.slots, snapshot.slots, written.slots),
      current.events + written.events[|snapshot.events|..],
      Merge(current.sources, snapshot.sources, written.sources),
      if written.metadata != snapshot.metadata then written.metadata else current.metadata)
  }

  /** A transaction and the commit whose state it read. */
  datatype Transaction = Transaction(start: nat, step: Step)

  /** states[i] is what the i-th commit found. */
  ghost predicate SnapshotHistory(states: seq<Database>, txns: seq<Transaction>) {
    && |states| == |txns| + 1
    && forall i :: 0 <= i < |txns| ==> CommitsAt(states, txns, i)
  }

  ghost predicate CommitsAt(states: seq<Database>, txns: seq<Transaction>, i: int)
    requires |states| == |txns| + 1 && 0 <= i < |txns|
  {
    && txns[i].start <= i
    && var snapshot := states[txns[i].start];
       var r := Run(snapshot, txns[i].step.command, txns[i].step.env);
       && r.Ok?
       && |snapshot.events| <= |r.value.0.events|
       && NoConflict(snapshot, r.value.0, states[i])
       && states[i + 1] == Install(states[i], snapshot, r.value.0)
  }

  // ---------------------------------------------------------- what one step leaves

  /** Nothing but versions, names and states of existing qualifications moved. */
  ghost predicate Drift(before: Database, after: Database) {
    && after == before.(qualifications := after.qualifications)
    && after.qualifications.Keys == before.qualifications.Keys
    && forall id :: id in before.qualifications ==>
         && after.qualifications[id].qrLookupDigest == before.qualifications[id].qrLookupDigest
         && after.qualifications[id].incarnation == before.qualifications[id].incarnation
  }

  /** Qualification id and its slot are exactly as before. */
  ghost predicate Undisturbed(before: Database, after: Database, id: Uuid) {
    && SameAt(before.qualifications, after.qualifications, id)
    && (forall i :: OwnedBy(before.slots, i, id) ==> OwnedBy(after.slots, i, id) && after.slots[i] == before.slots[i])
    && (forall i :: OwnedBy(after.slots, i, id) ==> OwnedBy(before.slots, i, id))
  }

  ghost predicate Overtaken(before: Database, after: Database, id: Uuid) {
    && id in before.qualifications && id in after.qualifications
    && before.qualifications[id].version < after.qualifications[id].version
  }

  /** The three kinds of commit: nothing at all, an UPDATE beside the guards, or
      a commit that raises a guard. */
  ghost predicate CommitKind(db: Database, after: Database, target: Option<Uuid>) {
    || after == db
    || (Effect(db, after, target) && target.Some? && Drift(db, after))
    || (Effect(db, after, target) && after.metadata != db.metadata)
  }

  lemma RecognitionKind(db: Database, c: Command, env: Env) returns (target: Option<Uuid>)
    requires SlotsValid(db) && QualificationsSound(db.qualifications) && c.Recognize? && Run(db, c, env).Ok?
    ensures CommitKind(db, Run(db, c, env).value.0, target)
  {
    DecideFits(db, c);
    var (plan, envelope) := Decide(db, c).value;
    target := PlanTarget(plan);
    if FindEvent(db.events, envelope.key).None? {
      RecordEffect(db, plan, envelope, env);
    }
  }

  lemma ManagementKind(db: Database, c: Command, env: Env) returns (target: Option<Uuid>)
    requires OwnersLive(db.slots, db.qualifications) && !c.Recognize? && Run(db, c, env).Ok?
    ensures CommitKind(db, Run(db, c, env).value.0, target)
  {
    CommittedPlan(db, c, env);
    var plan := StagedPlan(db, c).value;
    target := Some(Target(plan, env));
    ManagementEffect(db, plan, c.receivedAt, env);
  }

  lemma CommitKinds(db: Database, step: Step) returns (target: Option<Uuid>)
    requires Valid(db) && Run(db, step.command, step.env).Ok?
    ensures CommitKind(db, After(db, step), target)
  {
    if step.command.Recognize? {
      target := RecognitionKind(db, step.command, step.env);
    } else {
      target := ManagementKind(db, step.command, step.env);
    }
  }

  /** A commit leaves a qualification and its slot alone or raises its version. */
  lemma CommitOvertakes(before: Database, after: Database, target: Option<Uuid>, id: Uuid)
    requires after == before || Effect(before, after, target)
    requires id in before.qualifications
    ensures Undisturbed(before, after, id) || Overtaken(before, after, id)
  {
  }

  // --------------------------------------------------------- what any run leaves

  /** What the store a transaction read can tell about a later one: it grew; and
      unless a guard rose nothing but existing qualifications moved; and whatever
      qualification kept its version also kept its slot. */
  ghost predicate Later(before: Database, after: Database) {
    && Valid(after)
    && Grows(before, after)
    && GuardsGrow(before.metadata, after.metadata)
    && (after.metadata == before.metadata ==> Drift(before, after))
    && (forall id :: id in before.qualifications ==> Undisturbed(before, after, id) || Overtaken(before, after, id))
  }

  lemma CommitIsLater(db: Database, step: Step)
    requires Valid(db) && Run(db, step.command, step.env).Ok?
    ensures Later(db, After(db, step))
  {
    StepKeepsValid(db, step);
    var t := StepEffect(db, step);
    var target := CommitKinds(db, step);
    KindIsLater(db, After(db, step), target);
  }

  lemma KindIsLater(before: Database, after: Database, target: Option<Uuid>)
    requires Valid(after) && Grows(before, after) && CommitKind(before, after, target)
    ensures Later(before, after)
  {
    forall id | id in before.qualifications
      ensures Undisturbed(before, after, id) || Overtaken(before, after, id)
    {
      CommitOvertakes(before, after, target, id);
    }
  }

  lemma UndisturbedComposes(a: Database, b: Database, c: Database, id: Uuid)
    requires id in a.qualifications && id in b.qualifications
    requires Undisturbed(a, b, id) || Overtaken(a, b, id)
    requires Undisturbed(b, c, id) || Overtaken(b, c, id)
    ensures Undisturbed(a, c, id) || Overtaken(a, c, id)
  {
  }

  lemma DriftComposes(a: Database, b: Database, c: Database)
    requires GuardsGrow(a.metadata, b.metadata) && GuardsGrow(b.metadata, c.metadata)
    requires b.metadata == a.metadata ==> Drift(a, b)
    requires c.metadata == b.metadata ==> Drift(b, c)
    ensures GuardsGrow(a.metadata, c.metadata)
    ensures c.metadata == a.metadata ==> Drift(a, c)
  {
  }

  lemma GrowsComposes(a: Database, b: Database, c: Database)
    requires Grows(a, b) && Grows(b, c)
    ensures Grows(a, c)
  {
  }

  lemma LaterComposes(a: Database, b: Database, c: Database)
    requires Later(a, b) && Later(b, c)
    ensures Later(a, c)
  {
    GrowsComposes(a, b, c);
    DriftComposes(a, b, c);
    forall id | id in a.qualifications ensures Undisturbed(a, c, id) || Overtaken(a, c, id) {
      UndisturbedComposes(a, b, c, id);
    }
  }

  // ------------------------------------- commits that raise a guard: nothing moved

  /** What a commit makes of the drifted store: all its writes, and the drifted
      qualifications everywhere but at its target. */
  ghost predicate Grafted(s2: Database, c: Database, c2: Database, target: Option<Uuid>) {
    match target
    case None => c2 == s2.(qualifications := c.qualifications)
    case Some(t) =>
      && t in s2.qualifications
      && c2 == s2.(qualifications := c.qualifications[t := s2.qualifications[t]])
  }

  lemma ManagementTransfers(s: Database, c: Database, plan: ManagementPlan, receivedAt: int, env: Env)
    requires Drift(s, c) && ApplyManagement(s, plan, receivedAt, env).Ok?
    requires SameAt(s.qualifications, c.qualifications, Target(plan, env))
    ensures ApplyManagement(c, plan, receivedAt, env).Ok?
    ensures Grafted(ApplyManagement(s, plan, receivedAt, env).value, c, ApplyManagement(c, plan, receivedAt, env).value,
                    Some(Target(plan, env)))
  {
    match plan
    case CreatePlan(_, _, _, _) => CreateTransfers(s, c, plan, env);
    case UpdatePlan(_, _, _, _, _) => UpdateTransfers(s, c, plan, env);
    case RevokePlan(_, _) => RevokeTransfers(s, c, plan, receivedAt, env);
    case ExpirePlan(_) => ExpireTransfers(s, c, plan, receivedAt, env);
  }

  lemma RevokeTransfers(s: Database, c: Database, plan: ManagementPlan, receivedAt: int, env: Env)
    requires plan.RevokePlan?
    requires Drift(s, c) && ApplyManagement(s, plan, receivedAt, env).Ok?
    requires SameAt(s.qualifications, c.qualifications, Target(plan, env))
    ensures ApplyManagement(c, plan, receivedAt, env).Ok?
    ensures Grafted(ApplyManagement(s, plan, receivedAt, env).value, c, ApplyManagement(c, plan, receivedAt, env).value,
                    Some(Target(plan, env)))
  {
  }

  lemma ExpireTransfers(s: Database, c: Database, plan: ManagementPlan, receivedAt: int, env: Env)
    requires plan.ExpirePlan?
    requires Drift(s, c) && ApplyManagement(s, plan, receivedAt, env).Ok?
    requires SameAt(s.qualifications, c.qualifications, Target(plan, env))
    ensures ApplyManagement(c, plan, receivedAt, env).Ok?
    ensures Grafted(ApplyManagement(s, plan, receivedAt, env).value, c, ApplyManagement(c, plan, receivedAt, env).value,
                    Some(Target(plan, env)))
  {
  }

  lemma BindReadsSlots(a: Database, b: Database, owner: Owner, face: Face, env: Env)
    requires a.slots == b.slots && a.metadata == b.metadata
    ensures BindFace(a, owner, face, env) == BindFace(b, owner, face, env)
  {
  }

  lemma CreateTransfers(s: Database, c: Database, plan: ManagementPlan, env: Env)
    requires Drift(s, c) && plan.CreatePlan? && CreateStep(s, plan, env).Ok?
    ensures CreateStep(c, plan, env).Ok?
    ensures Grafted(CreateStep(s, plan, env).value, c, CreateStep(c, plan, env).value, Some(env.qualificationId))
  {
    var state := QualificationState(plan.validFrom, plan.validUntil, NotEntered, None, None, None, None, None);
    var q := Qualification(env.incarnation, 0, plan.displayName, state, env.qrLookupDigest, env.now, env.now);
    if plan.face.Some? {
      BindReadsSlots(BumpQr(s.(qualifications := s.qualifications[env.qualificationId := q])),
                     BumpQr(c.(qualifications := c.qualifications[env.qualificationId := q])),
                     Owner(env.qualificationId, env.incarnation), plan.face.value, env);
    }
    assert !exists id :: id in c.qualifications && c.qualifications[id].qrLookupDigest == env.qrLookupDigest by {
      assert forall id :: id in c.qualifications ==>
                            s.qualifications[id].qrLookupDigest == c.qualifications[id].qrLookupDigest;
    }
  }

  lemma RebindReadsSlots(a: Database, b: Database, p: Provenance, mode: MappingMode, env: Env)
    requires a.slots == b.slots && a.metadata == b.metadata
    ensures RebindStep(a, p, mode, env) == RebindStep(b, p, mode, env)
  {
    var slots := ReleaseFace(a.slots, p.qualificationId, p.incarnation);
    if mode.SetMapping? && slots.Ok? {
      BindReadsSlots(a.(slots := slots.value), b.(slots := slots.value), Owner(p.qualificationId, p.incarnation),
                     mode.face, env);
    }
  }

  lemma UpdateTransfers(s: Database, c: Database, plan: ManagementPlan, env: Env)
    requires Drift(s, c) && plan.UpdatePlan? && UpdateStep(s, plan, env).Ok?
    requires SameAt(s.qualifications, c.qualifications, plan.expected.qualificationId)
    ensures UpdateStep(c, plan, env).Ok?
    ensures Grafted(UpdateStep(s, plan, env).value, c, UpdateStep(c, plan, env).value,
                    Some(plan.expected.qualificationId))
  {
    RebindReadsSlots(s, c, plan.expected, plan.mode, env);
  }

  /** The same management command on the drifted store stages the same plan. */
  lemma ManagementRunTransfers(s: Database, c: Database, cmd: Command, env: Env)
    requires !cmd.Recognize? && Run(s, cmd, env).Ok? && Drift(s, c)
    requires SameAt(s.qualifications, c.qualifications, Target(StagedPlan(s, cmd).value, env))
    ensures Run(c, cmd, env).Ok? && Run(c, cmd, env).value.1 == Run(s, cmd, env).value.1
    ensures Grafted(Run(s, cmd, env).value.0, c, Run(c, cmd, env).value.0, Some(Target(StagedPlan(s, cmd).value, env)))
  {
    CommittedPlan(s, cmd, env);
    var plan := StagedPlan(s, cmd).value;
    ManagementTransfers(s, c, plan, cmd.receivedAt, env);
    match cmd
    case Create(_, _, _, _, _) =>
    case Update(_, _, _, _, _, _) => UpdateRuns(s, c, cmd, plan, env);
    case Revoke(_, _, _) => RevokeRuns(s, c, cmd, plan, env);
  }

  /** Whatever a committed update staged is staged again where its own documents are
      the same. */
  lemma UpdateRuns(s: Database, c: Database, cmd: Command, plan: ManagementPlan, env: Env)
    requires cmd.Update? && Run(s, cmd, env).Ok? && Drift(s, c) && StagedPlan(s, cmd) == Some(plan)
    requires SameAt(s.qualifications, c.qualifications, cmd.id) && ApplyManagement(c, plan, cmd.receivedAt, env).Ok?
    ensures Run(c, cmd, env) == Ok((ApplyManagement(c, plan, cmd.receivedAt, env).value, Run(s, cmd, env).value.1))
  {
  }

  lemma RevokeRuns(s: Database, c: Database, cmd: Command, plan: ManagementPlan, env: Env)
    requires cmd.Revoke? && Run(s, cmd, env).Ok? && Drift(s, c) && StagedPlan(s, cmd) == Some(plan)
    requires SameAt(s.qualifications, c.qualifications, cmd.id) && ApplyManagement(c, plan, cmd.receivedAt, env).Ok?
    ensures Run(c, cmd, env) == Ok((ApplyManagement(c, plan, cmd.receivedAt, env).value, Run(s, cmd, env).value.1))
  {
  }

  lemma ResolveTransfers(s: Database, c: Database, active: bool, input: RecognitionInput)
    requires Drift(s, c) && QualificationsSound(c.qualifications)
    requires Resolve(s, active, input).Ok?
    requires var p := Resolve(s, active, input).value.qualification;
             p.Some? ==> SameAt(s.qualifications, c.qualifications, p.value.qualificationId)
    ensures Resolve(c, active, input) == Resolve(s, active, input)
  {
    if active && input.QrScanned? {
      var digest := input.lookupDigest;
      if exists id :: id in s.qualifications && s.qualifications[id].qrLookupDigest == digest {
        var id := Resolve(s, active, input).value.qualification.value.qualificationId;
        assert id in c.qualifications && c.qualifications[id].qrLookupDigest == digest;
      } else {
        assert forall id :: id in c.qualifications ==>
                              c.qualifications[id].qrLookupDigest == s.qualifications[id].qrLookupDigest;
      }
    }
  }

  lemma DecideTransfers(s: Database, c: Database, cmd: Command)
    requires Drift(s, c) && QualificationsSound(c.qualifications)
    requires cmd.Recognize? && Decide(s, cmd).Ok?
    requires var t := PlanTarget(Decide(s, cmd).value.0);
             t.Some? ==> SameAt(s.qualifications, c.qualifications, t.value)
    ensures Decide(c, cmd) == Decide(s, cmd)
    ensures CheckHandle(s, Decide(s, cmd).value.0).Ok? ==> CheckHandle(c, Decide(s, cmd).value.0).Ok?
  {
    ResolveTransfers(s, c, s.sources[cmd.key.sourceId].active, cmd.input);
  }

  lemma QualificationStepTransfers(s: Database, c: Database, plan: RecognitionPlan, receivedAt: int, env: Env)
    requires Drift(s, c)
    requires PlanTarget(plan).Some? ==> SameAt(s.qualifications, c.qualifications, PlanTarget(plan).value)
    requires QualificationStep(s, plan, receivedAt, env).Ok?
    ensures QualificationStep(c, plan, receivedAt, env).Ok?
    ensures Grafted(QualificationStep(s, plan, receivedAt, env).value, c,
                    QualificationStep(c, plan, receivedAt, env).value, PlanTarget(plan))
  {
  }

  /** Guarding the source and logging the event do not read the qualifications. */
  lemma GuardTransfers(a: Database, b: Database, envelope: Envelope, env: Env)
    requires b == a.(qualifications := b.qualifications) && GuardStep(a, envelope, env).Ok?
    ensures GuardStep(b, envelope, env) == Ok(GuardStep(a, envelope, env).value.(qualifications := b.qualifications))
    ensures GuardStep(a, envelope, env).value.qualifications == a.qualifications
  {
  }

  lemma LogTransfers(a: Database, b: Database, plan: RecognitionPlan, envelope: Envelope, env: Env)
    requires b == a.(qualifications := b.qualifications) && LogStep(a, plan, envelope, env).Ok?
    ensures LogStep(b, plan, envelope, env) ==
            Ok(LogStep(a, plan, envelope, env).value.(qualifications := b.qualifications))
    ensures LogStep(a, plan, envelope, env).value.qualifications == a.qualifications
  {
  }

  lemma RecordTransfers(s: Database, c: Database, plan: RecognitionPlan, envelope: Envelope, env: Env)
    requires Drift(s, c)
    requires PlanTarget(plan).Some? ==> SameAt(s.qualifications, c.qualifications, PlanTarget(plan).value)
    requires RecordStep(s, plan, envelope, env).Ok?
    ensures RecordStep(c, plan, envelope, env).Ok?
    ensures RecordStep(c, plan, envelope, env).value.1 == RecordStep(s, plan, envelope, env).value.1
    ensures Grafted(RecordStep(s, plan, envelope, env).value.0, c, RecordStep(c, plan, envelope, env).value.0,
                    PlanTarget(plan))
  {
    GuardTransfers(s, c, envelope, env);
    var guarded, guardedC := GuardStep(s, envelope, env).value, GuardStep(c, envelope, env).value;
    QualificationStepTransfers(guarded, guardedC, plan, envelope.receivedAt, env);
    var moved := QualificationStep(guarded, plan, envelope.receivedAt, env).value;
    var movedC := QualificationStep(guardedC, plan, envelope.receivedAt, env).value;
    LogTransfers(moved, movedC, plan, envelope, env);
  }

  /** A first-time recognition on the drifted store commits the same event. */
  lemma RecognitionRunTransfers(s: Database, c: Database, cmd: Command, env: Env)
    requires cmd.Recognize? && Run(s, cmd, env).Ok? && FindEvent(s.events, cmd.key).None?
    requires Drift(s, c) && QualificationsSound(c.qualifications)
    requires var t := PlanTarget(Decide(s, cmd).value.0);
             t.Some? ==> SameAt(s.qualifications, c.qualifications, t.value)
    ensures Run(c, cmd, env).Ok? && Run(c, cmd, env).value.1 == Run(s, cmd, env).value.1
    ensures Grafted(Run(s, cmd, env).value.0, c, Run(c, cmd, env).value.0, PlanTarget(Decide(s, cmd).value.0))
  {
    DecideTransfers(s, c, cmd);
    var (plan, envelope) := Decide(s, cmd).value;
    RecordTransfers(s, c, plan, envelope, env);
  }

  lemma GraftIsInstall(s: Database, s2: Database, c: Database, c2: Database, target: Option<Uuid>)
    requires Drift(s, c) && Effect(s, s2, target) && s2.metadata != s.metadata
    requires Grafted(s2, c, c2, target)
    requires target.Some? ==> Wrote(s.qualifications, s2.qualifications, target.value)
    ensures Install(c, s, s2) == c2
  {
    var i := Install(c, s, s2);
    assert i.qualifications == c2.qualifications;
    assert i.slots == c2.slots;
    assert i.events == c2.events;
    assert s.sources.Keys == s2.sources.Keys;
    assert i.sources == c2.sources;
  }

  /** A commit that raised a guard found a store in which only versions, names and
      states of other qualifications had moved, and did there what it planned. */
  lemma GuardedSerializes(s: Database, c: Database, step: Step)
    requires Valid(s) && QualificationsSound(c.qualifications) && Drift(s, c)
    requires Run(s, step.command, step.env).Ok?
    requires var s2 := Run(s, step.command, step.env).value.0; s2.metadata != s.metadata && NoConflict(s, s2, c)
    ensures |s.events| <= |Run(s, step.command, step.env).value.0.events|
    ensures Run(c, step.command, step.env) ==
              Ok((Install(c, s, Run(s, step.command, step.env).value.0), Run(s, step.command, step.env).value.1))
  {
    var cmd, env := step.command, step.env;
    var s2 := Run(s, cmd, env).value.0;
    if cmd.Recognize? {
      DecideFits(s, cmd);
      var (plan, envelope) := Decide(s, cmd).value;
      RecordEffect(s, plan, envelope, env);
      RecognitionRunTransfers(s, c, cmd, env);
      GraftIsInstall(s, s2, c, Run(c, cmd, env).value.0, PlanTarget(plan));
    } else {
      CommittedPlan(s, cmd, env);
      var plan := StagedPlan(s, cmd).value;
      ManagementEffect(s, plan, cmd.receivedAt, env);
      ManagementRunTransfers(s, c, cmd, env);
      GraftIsInstall(s, s2, c, Run(c, cmd, env).value.0, Some(Target(plan, env)));
    }
  }

  // --------------------------------------------- commits that leave the guards alone

  /** A replayed attempt answers the same from any later store. */
  lemma ReplaySerializes(s: Database, c: Database, cmd: Command, env: Env)
    requires cmd.Recognize? && Run(s, cmd, env).Ok? && FindEvent(s.events, cmd.key).Some?
    requires Grows(s, c) && SlotsValid(c) && QualificationsSound(c.qualifications)
    requires forall j, k :: 0 <= j < k < |c.events| ==> c.events[j].key != c.events[k].key
    ensures Run(s, cmd, env).value.0 == s
    ensures Run(c, cmd, env) == Ok((c, Run(s, cmd, env).value.1))
  {
    DecideSucceeds(c, cmd);
    FindsIn(c.events, FindEvent(s.events, cmd.key).value);
  }

  /** An UPDATE that keeps its mapping depends on nothing but its own documents. */
  lemma KeepUpdateSerializes(s: Database, c: Database, cmd: Command, env: Env)
    requires cmd.Update? && Run(s, cmd, env).Ok? && Run(s, cmd, env).value.0.metadata == s.metadata
    requires OwnersLive(s.slots, s.qualifications)
    requires SlotsValid(c) && c.metadata.datasetEpoch == s.metadata.datasetEpoch
    requires Undisturbed(s, c, cmd.id)
    ensures var s2 := Run(s, cmd, env).value.0;
            && cmd.id in s2.qualifications
            && s2 == s.(qualifications := s.qualifications[cmd.id := s2.qualifications[cmd.id]])
            && Run(c, cmd, env) ==
                 Ok((c.(qualifications := c.qualifications[cmd.id := s2.qualifications[cmd.id]]),
                     Run(s, cmd, env).value.1))
  {
    CommittedPlan(s, cmd, env);
    var plan := StagedPlan(s, cmd).value;
    ManagementEffect(s, plan, cmd.receivedAt, env);
    CurrentSlotFinds(c.slots, cmd.id);
    assert MappingChanges(c.slots, cmd.id, plan.mode) == MappingChanges(s.slots, cmd.id, plan.mode);
  }

  lemma UnguardedIsInstall(s: Database, s2: Database, c: Database, id: Uuid)
    requires id in s.qualifications && id in s2.qualifications && Grows(s, c)
    requires s2 == s.(qualifications := s.qualifications[id := s2.qualifications[id]])
    requires s2.qualifications[id] != s.qualifications[id]
    ensures Install(c, s, s2) == c.(qualifications := c.qualifications[id := s2.qualifications[id]])
  {
    var i := Install(c, s, s2);
    assert i.qualifications == c.qualifications[id := s2.qualifications[id]];
    assert i.slots == c.slots;
    assert i.sources == c.sources;
    assert i.events == c.events;
  }

  lemma NothingInstalled(s: Database, c: Database)
    requires Grows(s, c)
    ensures Install(c, s, s) == c
  {
    var i := Install(c, s, s);
    assert i.qualifications == c.qualifications && i.slots == c.slots && i.sources == c.sources && i.events == c.events;
  }

  // ----------------------------------------------------------------- the theorem

  lemma ReplayOnly(s: Database, cmd: Command, env: Env)
    requires SlotsValid(s) && QualificationsSound(s.qualifications)
    requires cmd.Recognize? && Run(s, cmd, env).Ok? && Run(s, cmd, env).value.0.metadata == s.metadata
    ensures FindEvent(s.events, cmd.key).Some?
  {
    DecideFits(s, cmd);
    var (plan, envelope) := Decide(s, cmd).value;
    if FindEvent(s.events, cmd.key).None? {
      RecordEffect(s, plan, envelope, env);
    }
  }

  lemma UnguardedIsUpdate(s: Database, cmd: Command, env: Env)
    requires OwnersLive(s.slots, s.qualifications)
    requires !cmd.Recognize? && Run(s, cmd, env).Ok? && Run(s, cmd, env).value.0.metadata == s.metadata
    ensures cmd.Update? && cmd.id in s.qualifications
    ensures var s2 := Run(s, cmd, env).value.0;
            cmd.id in s2.qualifications && Wrote(s.qualifications, s2.qualifications, cmd.id)
  {
    CommittedPlan(s, cmd, env);
    ManagementEffect(s, StagedPlan(s, cmd).value, cmd.receivedAt, env);
  }

  lemma UnguardedUpdateSerializes(s: Database, c: Database, cmd: Command, env: Env)
    requires Valid(s) && Later(s, c)
    requires !cmd.Recognize? && Run(s, cmd, env).Ok? && Run(s, cmd, env).value.0.metadata == s.metadata
    requires NoConflict(s, Run(s, cmd, env).value.0, c)
    ensures |s.events| <= |Run(s, cmd, env).value.0.events|
    ensures Run(c, cmd, env) == Ok((Install(c, s, Run(s, cmd, env).value.0), Run(s, cmd, env).value.1))
  {
    UnguardedIsUpdate(s, cmd, env);
    assert Undisturbed(s, c, cmd.id) || Overtaken(s, c, cmd.id);
    KeepUpdateSerializes(s, c, cmd, env);
    UnguardedIsInstall(s, Run(s, cmd, env).value.0, c, cmd.id);
  }

  /** A transaction whose writes conflict with nothing done since its snapshot
      does, and answers, what it would have done running alone at its commit. */
  lemma CommitSerializes(s: Database, c: Database, step: Step)
    requires Valid(s) && Later(s, c) && Run(s, step.command, step.env).Ok?
    requires NoConflict(s, Run(s, step.command, step.env).value.0, c)
    ensures |s.events| <= |Run(s, step.command, step.env).value.0.events|
    ensures Run(c, step.command, step.env) ==
              Ok((Install(c, s, Run(s, step.command, step.env).value.0), Run(s, step.command, step.env).value.1))
  {
    var cmd, env := step.command, step.env;
    if Run(s, cmd, env).value.0.metadata != s.metadata {
      GuardedSerializes(s, c, step);
    } else if cmd.Recognize? {
      ReplayOnly(s, cmd, env);
      ReplaySerializes(s, c, cmd, env);
      NothingInstalled(s, c);
    } else {
      UnguardedUpdateSerializes(s, c, cmd, env);
    }
  }

  /** The i-th commit, run alone on what it found, does what it did and answers
      what it answered from its older snapshot. */
  ghost predicate AsIfAlone(states: seq<Database>, txns: seq<Transaction>, i: int)
    requires |states| == |txns| + 1 && 0 <= i < |txns| && txns[i].start < |states|
  {
    var command, env := txns[i].step.command, txns[i].step.env;
    var fromSnapshot := Run(states[txns[i].start], command, env);
    fromSnapshot.Ok? && Run(states[i], command, env) == Ok((states[i + 1], fromSnapshot.value.1))
  }

  lemma CommitAlone(states: seq<Database>, txns: seq<Transaction>, i: int)
    requires |states| == |txns| + 1 && 0 <= i < |txns| && CommitsAt(states, txns, i)
    requires Later(states[txns[i].start], states[txns[i].start]) && Later(states[txns[i].start], states[i])
    ensures AsIfAlone(states, txns, i)
    ensures Later(states[i], states[i + 1]) && states[i + 1] == After(states[i], txns[i].step)
  {
    CommitSerializes(states[txns[i].start], states[i], txns[i].step);
    CommitIsLater(states[i], txns[i].step);
  }

  predicate ReachedFromAll<S(!new)>(states: seq<S>, r: (S, S) -> bool, k: int)
    requires 0 <= k < |states|
  {
    forall i :: 0 <= i <= k ==> r(states[i], states[k])
  }

  /** If each state follows the one before it as soon as that one follows the
      snapshot its transaction read, all states are ordered by a transitive relation. */
  lemma {:induction false} Ladder<S(!new)>(states: seq<S>, starts: seq<nat>, r: (S, S) -> bool, k: nat)
    requires |states| == |starts| + 1 && k < |states| && r(states[0], states[0])
    requires forall a, b :: r(a, b) ==> r(b, b)
    requires forall a, b, c :: r(a, b) && r(b, c) ==> r(a, c)
    requires forall j :: 0 <= j < |starts| ==>
               && starts[j] <= j
               && (r(states[starts[j]], states[starts[j]]) && r(states[starts[j]], states[j]) ==>
                     r(states[j], states[j + 1]))
    ensures forall j :: 0 <= j <= k ==> ReachedFromAll(states, r, j)
  {
    if k > 0 {
      Ladder(states, starts, r, k - 1);
      var s := starts[k - 1];
      assert ReachedFromAll(states, r, s) && ReachedFromAll(states, r, k - 1);
      assert r(states[s], states[s]) && r(states[s], states[k - 1]);
      assert r(states[k - 1], states[k - 1 + 1]);
    }
  }

  lemma LaterIsTransitive(r: (Database, Database) -> bool)
    requires forall a, b :: r(a, b) <==> Later(a, b)
    ensures forall a, b, c :: r(a, b) && r(b, c) ==> r(a, c)
  {
    forall a, b, c | r(a, b) && r(b, c) ensures r(a, c) {
      LaterComposes(a, b, c);
    }
  }

  lemma SelfIsLater(db: Database)
    requires Valid(db)
    ensures Later(db, db)
  {
  }

  lemma LaterIsReflexive(r: (Database, Database) -> bool)
    requires forall a, b :: r(a, b) <==> Later(a, b)
    ensures forall a, b :: r(a, b) ==> r(b, b)
  {
    forall a, b | r(a, b) ensures r(b, b) {
      assert Later(a, b);
      SelfIsLater(b);
    }
  }

  lemma NextIsLater(states: seq<Database>, txns: seq<Transaction>, r: (Database, Database) -> bool, j: int)
    requires forall a, b :: r(a, b) <==> Later(a, b)
    requires |states| == |txns| + 1 && 0 <= j < |txns| && CommitsAt(states, txns, j)
    requires r(states[txns[j].start], states[txns[j].start]) && r(states[txns[j].start], states[j])
    ensures r(states[j], states[j + 1])
  {
    CommitAlone(states, txns, j);
  }

  /** Every earlier state of a history relates to a later one as in a serial run. */
  lemma HistoryIsLater(states: seq<Database>, txns: seq<Transaction>, r: (Database, Database) -> bool)
    requires SnapshotHistory(states, txns) && r(states[0], states[0])
    requires forall a, b :: r(a, b) <==> Later(a, b)
    ensures forall k :: 0 <= k <= |txns| ==> ReachedFromAll(states, r, k)
  {
    LaterIsTransitive(r);
    LaterIsReflexive(r);
    var starts := seq(|txns|, i requires 0 <= i < |txns| => txns[i].start);
    forall j | 0 <= j < |txns|
      ensures starts[j] <= j
      ensures r(states[starts[j]], states[starts[j]]) && r(states[starts[j]], states[j]) ==> r(states[j], states[j + 1])
    {
      assert CommitsAt(states, txns, j);
      if r(states[txns[j].start], states[txns[j].start]) && r(states[txns[j].start], states[j]) {
        NextIsLater(states, txns, r, j);
      }
    }
    Ladder(states, starts, r, |txns|);
  }

  lemma StatesAreLater(states: seq<Database>, txns: seq<Transaction>, r: (Database, Database) -> bool, i: int, k: int)
    requires SnapshotHistory(states, txns) && r(states[0], states[0]) && 0 <= i <= k <= |txns|
    requires forall a, b :: r(a, b) <==> Later(a, b)
    ensures r(states[i], states[k])
  {
    HistoryIsLater(states, txns, r);
    assert ReachedFromAll(states, r, k);
  }

  lemma StepOfHistory(states: seq<Database>, txns: seq<Transaction>, r: (Database, Database) -> bool, k: int)
    requires SnapshotHistory(states, txns) && r(states[0], states[0]) && 0 <= k < |txns|
    requires forall a, b :: r(a, b) <==> Later(a, b)
    ensures CommitsAt(states, txns, k) && AsIfAlone(states, txns, k)
    ensures states[k + 1] == After(states[k], txns[k].step)
  {
    assert CommitsAt(states, txns, k);
    StatesAreLater(states, txns, r, txns[k].start, k);
    StatesAreLater(states, txns, r, txns[k].start, txns[k].start);
    CommitAlone(states, txns, k);
  }

  lemma HistoryStep(states: seq<Database>, txns: seq<Transaction>, k: int)
    requires SnapshotHistory(states, txns) && Valid(states[0]) && 0 <= k < |txns|
    ensures CommitsAt(states, txns, k) && AsIfAlone(states, txns, k)
    ensures states[k + 1] == After(states[k], txns[k].step)
  {
    ghost var r := (a: Database, b: Database) => Later(a, b);
    SelfIsLater(states[0]);
    StepOfHistory(states, txns, r, k);
  }

  function StepsOf(txns: seq<Transaction>): (steps: seq<Step>)
    ensures |steps| == |txns| && forall i :: 0 <= i < |txns| ==> steps[i] == txns[i].step
  {
    if txns == [] then [] else StepsOf(txns[..|txns| - 1]) + [txns[|txns| - 1].step]
  }

  lemma {:induction false} AfterEach(states: seq<Database>, txns: seq<Transaction>, k: int)
    requires |states| == |txns| + 1 && 0 <= k <= |txns|
    requires forall i :: 0 <= i < |txns| ==> states[i + 1] == After(states[i], txns[i].step)
    ensures states[k] == RunAll(states[0], StepsOf(txns[..k]))
  {
    if k > 0 {
      AfterEach(states, txns, k - 1);
      var steps := StepsOf(txns[..k]);
      assert txns[..k][..k - 1] == txns[..k - 1];
      assert steps[..k - 1] == StepsOf(txns[..k - 1]);
      assert steps[k - 1] == txns[k - 1].step;
      assert states[k - 1 + 1] == After(states[k - 1], txns[k - 1].step);
    }
  }

  /** Every snapshot-isolated history of committed transactions is the serial run
      of those transactions in commit order: every state and every reply. */
  lemma SnapshotHistoriesAreSerial(states: seq<Database>, txns: seq<Transaction>)
    requires SnapshotHistory(states, txns) && Valid(states[0])
    ensures forall k :: 0 <= k <= |txns| ==> states[k] == RunAll(states[0], StepsOf(txns[..k]))
    ensures forall i :: 0 <= i < |txns| ==> CommitsAt(states, txns, i) && AsIfAlone(states, txns, i)
  {
    forall i | 0 <= i < |txns|
      ensures CommitsAt(states, txns, i) && AsIfAlone(states, txns, i)
      ensures states[i + 1] == After(states[i], txns[i].step)
    {
      HistoryStep(states, txns, i);
    }
    forall k | 0 <= k <= |txns| ensures states[k] == RunAll(states[0], StepsOf(txns[..k])) {
      AfterEach(states, txns, k);
    }
  }

  /** Installing what was written on the current store itself gives what was written. */
  lemma InstalledAlone(s: Database, w: Database)
    requires Grows(s, w)
    ensures Install(s, s, w) == w
  {
    var i := Install(s, s, w);
    assert i.qualifications == w.qualifications && i.slots == w.slots && i.sources == w.sources && i.events == w.events;
  }

  /** The stores of a serial run, from first to last. */
  ghost function StatesOf(db: Database, steps: seq<Step>): (states: seq<Database>)
    ensures |states| == |steps| + 1 && states[0] == db && states[|steps|] == RunAll(db, steps)
  {
    if steps == [] then [db]
    else StatesOf(db, steps[..|steps| - 1]) + [After(RunAll(db, steps[..|steps| - 1]), steps[|steps| - 1])]
  }

  function OneByOne(steps: seq<Step>): seq<Transaction> {
    seq(|steps|, i requires 0 <= i < |steps| => Transaction(i, steps[i]))
  }

  lemma OneByOneLast(steps: seq<Step>)
    requires steps != []
    ensures var n := |steps| - 1; OneByOne(steps) == OneByOne(steps[..n]) + [Transaction(n, steps[n])]
  {
  }

  /** Every step of the serial run succeeds. */
  ghost predicate AllSucceed(db: Database, steps: seq<Step>) {
    steps == []
    || (AllSucceed(db, steps[..|steps| - 1]) && Succeeds(RunAll(db, steps[..|steps| - 1]), steps[|steps| - 1]))
  }

  ghost predicate Succeeds(db: Database, step: Step) {
    Run(db, step.command, step.env).Ok?
  }

  /** The step's result could be committed on the very store it was read from. */
  ghost predicate CommitsFreely(db: Database, step: Step) {
    Succeeds(db, step) && |db.events| <= |After(db, step).events| && NoConflict(db, After(db, step), db)
    && After(db, step) == Install(db, db, After(db, step))
  }

  /** Conversely, every serial run whose steps all succeed is a snapshot history: a
      transaction that nobody overtakes always commits. */
  lemma {:induction false} SerialRunsAreHistories(db: Database, steps: seq<Step>)
    requires Valid(db) && AllSucceed(db, steps)
    ensures SnapshotHistory(StatesOf(db, steps), OneByOne(steps))
  {
    if steps != [] {
      var n := |steps| - 1;
      var front := steps[..n];
      SerialRunsAreHistories(db, front);
      RunKeepsValid(db, front);
      CommitsAlone(RunAll(db, front), steps[n]);
      HistoryExtends(StatesOf(db, front), OneByOne(front), steps[n]);
      OneByOneLast(steps);
    }
  }

  /** One more transaction that read the last store commits to its own result. */
  lemma HistoryExtends(states: seq<Database>, txns: seq<Transaction>, step: Step)
    requires SnapshotHistory(states, txns)
    requires CommitsFreely(states[|txns|], step)
    ensures SnapshotHistory(states + [After(states[|txns|], step)], txns + [Transaction(|txns|, step)])
  {
    var longer, more := states + [After(states[|txns|], step)], txns + [Transaction(|txns|, step)];
    forall i | 0 <= i < |txns| ensures CommitsAt(longer, more, i) {
      assert CommitsAt(states, txns, i);
      SameCommit(states, txns, longer, more, i);
    }
    LastCommit(longer, more, step);
  }

  lemma LastCommit(states: seq<Database>, txns: seq<Transaction>, step: Step)
    requires txns != [] && |states| == |txns| + 1 && txns[|txns| - 1] == Transaction(|txns| - 1, step)
    requires CommitsFreely(states[|txns| - 1], step) && states[|txns|] == After(states[|txns| - 1], step)
    ensures CommitsAt(states, txns, |txns| - 1)
  {
  }

  /** A commit depends only on the stores and the transaction it is about. */
  lemma SameCommit(states: seq<Database>, txns: seq<Transaction>, longer: seq<Database>, more: seq<Transaction>, i: nat)
    requires |states| == |txns| + 1 && |longer| == |more| + 1 && i < |txns| <= |more| && CommitsAt(states, txns, i)
    requires more[i] == txns[i] && longer[i] == states[i] && longer[i + 1] == states[i + 1]
    requires txns[i].start < |longer| && longer[txns[i].start] == states[txns[i].start]
    ensures CommitsAt(longer, more, i)
  {
  }

  lemma CommitsAlone(db: Database, step: Step)
    requires Valid(db) && Succeeds(db, step)
    ensures CommitsFreely(db, step)
  {
    var _ := StepEffect(db, step);
    InstalledAlone(db, After(db, step));
  }
}
