/** The persistence adapter's transaction as the object it is: fields and caches
    updated step by step. Each method is tied to the function of Store that says
    what it does; the server's free choice among empty slots is returned. */
module Adapter {
  import opened Base
  import opened Domain
  import opened Store
  import opened UseCases
  import opened StoreInvariants

  datatype Stage = Guarding | WritingQualification | WritingMapping | WritingEvent

  datatype UniqueIndex = FaceSubjectIndex | OtherIndex

  /** classifyG04bTransactionError on a duplicate key (code 11000). */
  function ClassifyDuplicate(stage: Stage, index: UniqueIndex): Failure {
    if stage.WritingMapping? && index.FaceSubjectIndex? then FaceSubjectAlreadyBound else DuplicateKey
  }

  class Transaction {
    const epoch: Uuid
    var qualifications: map<Uuid, Qualification>
    var slots: map<Uuid, Slot>
    var events: seq<Event>
    var sources: map<Uuid, Source>
    var metadata: Metadata
    var stage: Stage
    // what this scope has read so far
    var readQualifications: map<Uuid, Qualification>
    var readMappings: map<Uuid, Option<Mapping>>
    var sourceGuards: map<Uuid, Source>

    function Image(): Database
      reads this
    {
      Database(qualifications, slots, events, sources, metadata)
    }

    /** The caches say what the documents say. */
    ghost predicate Coherent()
      reads this
    {
      && (forall id :: id in readQualifications ==> id in qualifications
                                                    && qualifications[id] == readQualifications[id])
      && (forall id :: id in readMappings ==> CurrentMapping(slots, id, None) == Ok(readMappings[id]))
      && (forall id :: id in sourceGuards ==> id in sources && sources[id] == sourceGuards[id])
    }

    /** What the database's unique indexes promise about the snapshot. */
    ghost predicate Indexed()
      reads this
    {
      && SlotsUnique(slots)
      && (forall a, b | a in qualifications && b in qualifications ::
            qualifications[a].qrLookupDigest == qualifications[b].qrLookupDigest ==> a == b)
      && (forall j, k :: 0 <= j < k < |events| ==> events[j].key != events[k].key)
    }

    constructor (db: Database, epoch: Uuid)
      ensures Image() == db && this.epoch == epoch
      ensures Coherent()
    {
      this.epoch := epoch;
      qualifications, slots, events, sources, metadata := db.qualifications, db.slots, db.events, db.sources,
        db.metadata;
      stage := Guarding;
      readQualifications, readMappings, sourceGuards := map[], map[], map[];
    }

    // ------------------------------------------------------------ single commands

    /** find({ qualificationId }).limit(2) */
    method FindOwned(qualificationId: Uuid) returns (found: seq<Uuid>)
      ensures CurrentSlot(slots, qualificationId) ==
                if |found| == 0 then Ok(None) else if |found| == 1 then Ok(Some(found[0])) else Err(MultipleMappings)
      ensures forall i :: i in found ==> OwnedBy(slots, i, qualificationId)
    {
      found := [];
      var owned := set i | i in slots && OwnedBy(slots, i, qualificationId);
      assert forall k :: OwnedBy(slots, k, qualificationId) <==> k in owned;
      if owned != {} {
        var i :| i in owned;
        found := [i];
        var rest := owned - {i};
        if rest != {} {
          var j :| j in rest;
          found := [i, j];
          assert OwnedBy(slots, i, qualificationId) && OwnedBy(slots, j, qualificationId) && i != j;
        } else {
          assert forall k :: k in owned ==> k == i by {
            assert forall k :: k in owned && k != i ==> k in rest;
          }
          assert OwnedBy(slots, i, qualificationId);
        }
      }
    }

    /** One write to a slot document, under the collection's unique indexes. */
    method WriteSlot(i: Uuid, slot: Slot) returns (r: Result<(), Failure>)
      requires slot.owner.Some?
      modifies `slots
      ensures r == if SubjectTakenElsewhere(old(slots), i, slot.face)
              then Err(ClassifyDuplicate(stage, FaceSubjectIndex))
                   else if QualificationBoundElsewhere(old(slots), i, slot.owner.value.qualificationId)
                     then Err(DuplicateKey)
                   else Ok(())
      ensures slots == if r.Ok? then old(slots)[i := slot] else old(slots)
    {
      var id := slot.owner.value.qualificationId;
      if exists j :: j in slots && j != i && slots[j].face == slot.face {
        return Err(ClassifyDuplicate(stage, FaceSubjectIndex));
      }
      if exists j :: j in slots && j != i && OwnedBy(slots, j, id) {
        return Err(ClassifyDuplicate(stage, OtherIndex));
      }
      slots := slots[i := slot];
      return Ok(());
    }

    method ReadMetadata() returns (r: Result<Metadata, Failure>)
      ensures r == if metadata.datasetEpoch == epoch then Ok(metadata) else Err(EpochMismatch)
    {
      if metadata.datasetEpoch != epoch { return Err(EpochMismatch); }
      return Ok(metadata);
    }

    method RecountSlots() returns (r: Result<(), Failure>)
      ensures r == match EnsureSlotCount(Image(), epoch) case Ok(_) => Ok(()) case Err(f) => Err(f)
    {
      var current :- ReadMetadata();
      if |slots| != current.slotCount { return Err(SlotCountMismatch); }
      return Ok(());
    }

    method BumpGuard(media: Media)
      modifies `metadata
      ensures Image() == if media.Qr? then BumpQr(old(Image())) else BumpFace(old(Image()))
    {
      if media.Qr? {
        metadata := metadata.(qrGuard := metadata.qrGuard + 1);
      } else {
        metadata := metadata.(faceGuard := metadata.faceGuard + 1);
      }
    }

    // ----------------------------------------------------------------- face slots

    method ReleaseFaceForQualification(qualificationId: Uuid, incarnation: Uuid) returns (r: Result<(), Failure>)
      modifies `slots
      ensures match ReleaseFace(old(slots), qualificationId, incarnation)
              case Ok(released) => r.Ok? && slots == released
              case Err(f) => r == Err(f)
    {
      var found := FindOwned(qualificationId);
      if |found| > 1 { return Err(MultipleMappings); }
      if |found| == 0 { return Ok(()); }
      var slot := slots[found[0]];
      if slot.owner.value.incarnation != incarnation { return Err(MappingStale); }
      slots := slots[found[0] := slot.(owner := None, version := slot.version + 1)];
      return Ok(());
    }

    /** Binds a face to an empty slot or a new one. Which empty slot an unspecific
        query returns is the server's choice, reported as `pick`. */
    /** No empty slot: a new one, unless the capacity is used up. */
    method InsertSlot(owner: Owner, face: Face, env: Env) returns (r: Result<(), Failure>)
      requires SlotsUnique(slots) && stage.WritingMapping? && env.epoch == epoch
               && EmptySlotFor(slots, face, env.pick).None?
      modifies `slots, `metadata
      ensures match BindFace(old(Image()), owner, face, env)
              case Ok(b) => r.Ok? && Image() == WithBinding(old(Image()), b)
              case Err(f) => r == Err(f)
    {
      var current :- ReadMetadata();
      if current.slotCount >= FACE_SLOT_CAPACITY {
        if exists i :: i in slots && slots[i].owner.Some? && slots[i].face == face {
          ghost var i :| i in slots && slots[i].owner.Some? && slots[i].face == face;
          assert BoundFace(slots, i, face);
          return Err(FaceSubjectAlreadyBound);
        }
        assert !exists i :: BoundFace(slots, i, face);
        return Err(FaceSlotCapacityExhausted);
      }
      if env.slotId in slots { return Err(DuplicateKey); }
      var _ :- WriteSlot(env.slotId, Slot(face, Some(owner), env.slotIncarnation, 0));
      metadata := metadata.(slotCount := current.slotCount + 1);
      return Ok(());
    }

    method BindNewFace(owner: Owner, face: Face, env: Env) returns (r: Result<(), Failure>, ghost pick: Uuid)
      requires SlotsUnique(slots) && stage.WritingMapping? && env.epoch == epoch
      modifies `slots, `metadata
      ensures match BindFace(old(Image()), owner, face, env.(pick := pick))
              case Ok(b) => r.Ok? && Image() == WithBinding(old(Image()), b)
              case Err(f) => r == Err(f)
    {
      pick := env.pick;
      var empty := set i | i in slots && slots[i].owner.None?;
      var matching := set i | i in empty && slots[i].face == face;
      assert forall i :: Empty(slots, i) <==> i in empty;
      assert forall i :: Empty(slots, i) && slots[i].face == face <==> i in matching;
      if matching == {} && empty == {} {
        assert EmptySlotFor(slots, face, pick).None?;
        r := InsertSlot(owner, face, env);
        return;
      }
      var i: Uuid;
      if matching != {} {
        i :| i in matching;
      } else {
        i :| i in empty;
        pick := i;
      }
      assert Empty(slots, i);
      assert EmptySlotFor(slots, face, pick) == Some(i);
      r := WriteSlot(i, slots[i].(face := face, owner := Some(owner), version := slots[i].version + 1));
    }

    // ----------------------------------------------------------------- management

    method InsertQualification(id: Uuid, q: Qualification) returns (r: Result<(), Failure>)
      modifies `qualifications
      ensures r == if id in old(qualifications)
              || (exists a :: a in old(qualifications) && old(qualifications)[a].qrLookupDigest == q.qrLookupDigest)
                   then Err(ClassifyDuplicate(stage, OtherIndex)) else Ok(())
      ensures qualifications == if r.Ok? then old(qualifications)[id := q] else old(qualifications)
    {
      if id in qualifications || exists a :: a in qualifications
                                             && qualifications[a].qrLookupDigest == q.qrLookupDigest {
        return Err(ClassifyDuplicate(stage, OtherIndex));
      }
      qualifications := qualifications[id := q];
      return Ok(());
    }

    /** The document the plan was decided on: from the scope's reads if it read it. */
    method CurrentQualification(p: Provenance) returns (r: Result<Qualification, Failure>)
      requires Coherent()
      ensures r == Current(Image(), p)
    {
      var id := p.qualificationId;
      if id in readQualifications {
        var read := readQualifications[id];
        if read.incarnation != p.incarnation || read.version != p.version { return Err(ProvenanceStale); }
        return Ok(read);
      }
      if id !in qualifications || qualifications[id].incarnation != p.incarnation
        || qualifications[id].version != p.version {
        return Err(ProvenanceStale);
      }
      return Ok(qualifications[id]);
    }

    /** updateOne on (_id, incarnation, version): $set, $inc version. */
    method UpdateQualification(id: Uuid, q: Qualification, now: int)
      requires id in qualifications
      modifies `qualifications
      ensures Image() == Touch(old(Image()), id, q, now)
    {
      qualifications := qualifications[id := q.(version := q.version + 1, updatedAt := now)];
    }

    method Create(plan: ManagementPlan, env: Env) returns (r: Result<(), Failure>, ghost pick: Uuid)
      requires plan.CreatePlan? && Indexed() && env.epoch == epoch
      modifies this
      ensures match CreateStep(old(Image()), plan, env.(pick := pick))
              case Ok(after) => r.Ok? && Image() == after
              case Err(f) => r == Err(f)
    {
      pick := env.pick;
      if plan.displayName == "" { return Err(FieldMissing), pick; }
      var state := QualificationState(plan.validFrom, plan.validUntil, NotEntered, None, None, None, None, None);
      stage := WritingQualification;
      var _ :- InsertQualification(env.qualificationId,
                                   Qualification(env.incarnation, 0, plan.displayName, state, env.qrLookupDigest,
                                                 env.now, env.now));
      BumpGuard(Qr);
      if plan.face.Some? {
        stage := WritingMapping;
        var bound: Result<(), Failure>;
        bound, pick := BindNewFace(Owner(env.qualificationId, env.incarnation), plan.face.value, env);
        if bound.Err? { return bound, pick; }
        BumpGuard(FaceMatched);
      }
      stage := WritingQualification;
      r := RecountSlots();
    }

    /** EXPIRE and REVOKE: write the qualification, release, bump, recount. */
    method EndQualification(p: Provenance, q: Qualification, env: Env) returns (r: Result<(), Failure>)
      requires p.qualificationId in qualifications && env.epoch == epoch
      modifies this
      ensures match ReleaseStep(Touch(old(Image()), p.qualificationId, q, env.now), p, env)
              case Ok(after) => r.Ok? && Image() == after
              case Err(f) => r == Err(f)
    {
      stage := WritingQualification;
      UpdateQualification(p.qualificationId, q, env.now);
      stage := WritingMapping;
      var _ :- ReleaseFaceForQualification(p.qualificationId, p.incarnation);
      BumpGuard(FaceMatched);
      stage := WritingQualification;
      r := RecountSlots();
    }

    method Expire(p: Provenance, receivedAt: int, env: Env) returns (r: Result<(), Failure>)
      requires Coherent() && env.epoch == epoch
      modifies this
      ensures match ExpireStep(old(Image()), p, receivedAt, env)
              case Ok(after) => r.Ok? && Image() == after
              case Err(f) => r == Err(f)
    {
      var q :- CurrentQualification(p);
      if !NeedsTerminalExpiry(q.state, receivedAt) { return Err(ExpiryGuard); }
      r := EndQualification(p, q.(state := q.state.(expiredTerminalAt := Some(receivedAt))), env);
    }

    method Revoke(p: Provenance, reason: string, receivedAt: int, env: Env) returns (r: Result<(), Failure>)
      requires Coherent() && env.epoch == epoch
      modifies this
      ensures match RevokeStep(old(Image()), p, reason, receivedAt, env)
              case Ok(after) => r.Ok? && Image() == after
              case Err(f) => r == Err(f)
    {
      var q :- CurrentQualification(p);
      if reason == "" { return Err(FieldMissing); }
      r := EndQualification(p, q.(state := q.state.(revokedAt := Some(receivedAt), revocationReason := Some(reason))),
                            env);
    }

    /** The slot an UPDATE starts from, cross-checked against what the scope read. */
    method CurrentSlotOf(p: Provenance) returns (r: Result<Option<Uuid>, Failure>)
      requires Coherent()
      ensures match CurrentMapping(slots, p.qualificationId, Some(p.incarnation))
              case Ok(_) => r == CurrentSlot(slots, p.qualificationId)
              case Err(f) => r == Err(f)
    {
      var id := p.qualificationId;
      var found := FindOwned(id);
      var mapping: Option<Mapping>;
      if id in readMappings {
        mapping := readMappings[id];
      } else {
        if |found| > 1 { return Err(MultipleMappings); }
        if |found| == 1 && slots[found[0]].owner.value.incarnation != p.incarnation { return Err(MappingStale); }
        mapping := if |found| == 0 then None
          else Some(Mapping(slots[found[0]].slotIncarnation, slots[found[0]].version));
      }
      var slot := if |found| == 1
        && slots[found[0]].owner.value.incarnation == p.incarnation then Some(found[0]) else None;
      if mapping.None? != slot.None?
         || (slot.Some? && mapping != Some(Mapping(slots[slot.value].slotIncarnation, slots[slot.value].version))) {
        return Err(MappingStale);
      }
      return Ok(slot);
    }

    /** Frees the current slot, if any, and binds the requested face, if any. */
    method Rebind(p: Provenance, slot: Option<Uuid>, mode: MappingMode, env: Env)
      returns (r: Result<(), Failure>, ghost pick: Uuid)
      requires Indexed() && env.epoch == epoch && CurrentSlot(slots, p.qualificationId) == Ok(slot)
      requires slot.Some? ==> slots[slot.value].owner.value.incarnation == p.incarnation
      modifies `stage, `slots, `metadata
      ensures match RebindStep(old(Image()), p, mode, env.(pick := pick))
              case Ok(b) => r.Ok? && Image() == WithBinding(old(Image()), b)
              case Err(f) => r == Err(f)
    {
      pick := env.pick;
      stage := WritingMapping;
      if slot.Some? {
        var released := ReleaseFaceForQualification(p.qualificationId, p.incarnation);
        assert released.Ok?;
      }
      if mode.SetMapping? {
        StillUnique(old(slots), slots);
        r, pick := BindNewFace(Owner(p.qualificationId, p.incarnation), mode.face, env);
        return r, pick;
      }
      r := Ok(());
    }

    method Update(plan: ManagementPlan, env: Env) returns (r: Result<(), Failure>, ghost pick: Uuid)
      requires plan.UpdatePlan? && Coherent() && Indexed() && env.epoch == epoch
      modifies this
      ensures match UpdateStep(old(Image()), plan, env.(pick := pick))
              case Ok(after) => r.Ok? && Image() == after
              case Err(f) => r == Err(f)
    {
      pick := env.pick;
      var p := plan.expected;
      var id := p.qualificationId;
      var q :- CurrentQualification(p);
      if plan.displayName == "" { return Err(FieldMissing), pick; }
      var slot :- CurrentSlotOf(p);
      var sameFace := plan.mode.SetMapping? && slot.Some? && slots[slot.value].face == plan.mode.face;
      var changed := !plan.mode.KeepMapping? && !sameFace;
      assert changed <==> MappingChanges(slots, id, plan.mode);
      if changed {
        var bound: Result<(), Failure>;
        bound, pick := Rebind(p, slot, plan.mode, env);
        if bound.Err? { return bound, pick; }
      }
      stage := WritingQualification;
      UpdateQualification(id, q.(displayName := plan.displayName,
                                 state := q.state.(validFrom := plan.validFrom, validUntil := plan.validUntil)),
                                   env.now);
      if changed { BumpGuard(FaceMatched); }
      r := RecountSlots();
    }

    /** applyManagementChange. */
    method ApplyManagementChange(plan: ManagementPlan, receivedAt: int, env: Env)
      returns (r: Result<(), Failure>, ghost pick: Uuid)
      requires Coherent() && Indexed() && env.epoch == epoch
      modifies this
      ensures match ApplyManagement(old(Image()), plan, receivedAt, env.(pick := pick))
              case Ok(after) => r.Ok? && Image() == after
              case Err(f) => r == Err(f)
    {
      pick := env.pick;
      stage := Guarding;
      if !IsInstant(env.now) { return Err(ClockInvalid), pick; }
      if !IsInstant(receivedAt) { return Err(FieldMissing), pick; }
      match plan
      case CreatePlan(_, _, _, _) => r, pick := Create(plan, env);
      case UpdatePlan(_, _, _, _, _) => r, pick := Update(plan, env);
      case RevokePlan(p, reason) => r := Revoke(p, reason, receivedAt, env);
      case ExpirePlan(p) => r := Expire(p, receivedAt, env);
    }

    // ---------------------------------------------------------------- recognition

    /** The resolved qualification and its mapping are kept for staging. */
    predicate Remembers(p: Provenance, mapping: Option<Mapping>)
      reads this
    {
      && p.qualificationId in readQualifications
      && readQualifications[p.qualificationId].incarnation == p.incarnation
      && readQualifications[p.qualificationId].version == p.version
      && p.qualificationId in readMappings && readMappings[p.qualificationId] == mapping
    }

    method ReadSourceFacts(sourceId: Uuid) returns (r: Result<Source, Failure>)
      requires Coherent()
      modifies `sourceGuards
      ensures r == if sourceId in sources then Ok(sources[sourceId]) else Err(SourceMissing)
      ensures sourceGuards == if r.Ok? then old(sourceGuards)[sourceId := r.value] else old(sourceGuards)
      ensures Coherent()
    {
      if sourceId !in sources { return Err(SourceMissing); }
      sourceGuards := sourceGuards[sourceId := sources[sourceId]];
      return Ok(sources[sourceId]);
    }

    method ReadQualification(id: Uuid) returns (r: Result<Option<Qualification>, Failure>)
      requires Coherent()
      modifies `readQualifications
      ensures r == Snapshot(Image(), id)
      ensures readQualifications ==
                if r.Ok? && r.value.Some? then old(readQualifications)[id := r.value.value] else old(readQualifications)
      ensures Coherent()
    {
      if id !in qualifications { return Ok(None); }
      if !qualifications[id].state.Valid() { return Err(DomainInvariant); }
      readQualifications := readQualifications[id := qualifications[id]];
      return Ok(Some(qualifications[id]));
    }

    /** mappingForQualification: the mapping, checked against the incarnation if one is expected. */
    method MappingOf(id: Uuid, expected: Option<Uuid>) returns (r: Result<Option<Mapping>, Failure>)
      ensures r == CurrentMapping(slots, id, expected)
    {
      var found := FindOwned(id);
      if |found| > 1 { return Err(MultipleMappings); }
      if |found| == 0 { return Ok(None); }
      var slot := slots[found[0]];
      if expected.Some? && slot.owner.value.incarnation != expected.value { return Err(MappingStale); }
      return Ok(Some(Mapping(slot.slotIncarnation, slot.version)));
    }

    method ReadMapping(id: Uuid, expected: Option<Uuid>) returns (r: Result<Option<Mapping>, Failure>)
      requires Coherent()
      modifies `readMappings
      ensures r == CurrentMapping(slots, id, expected)
      ensures readMappings == if r.Ok? then old(readMappings)[id := r.value] else old(readMappings)
      ensures Coherent()
    {
      r := MappingOf(id, expected);
      if r.Ok? { readMappings := readMappings[id := r.value]; }
    }

    method ResolveQr(digest: Uuid) returns (r: Result<Claims, Failure>)
      requires Coherent() && Indexed()
      modifies `readQualifications, `readMappings
      ensures r == UseCases.ResolveQr(Image(), digest)
      ensures r.Ok? && r.value.qualification.Some? ==> Remembers(r.value.qualification.value, r.value.mapping)
      ensures Coherent()
    {
      var matching := set id | id in qualifications && qualifications[id].qrLookupDigest == digest;
      if matching == {} {
        assert forall id :: id in qualifications && qualifications[id].qrLookupDigest == digest ==> id in matching;
        return Ok(ClaimsOf(Qr, None, None));
      }
      var id :| id in matching;
      var q := qualifications[id];
      readQualifications := readQualifications[id := q];
      var mapping :- MappingOf(id, Some(q.incarnation));
      readMappings := readMappings[id := mapping];
      if !q.state.Valid() { return Err(DomainInvariant); }
      return Ok(ClaimsOf(Qr, Some((id, q)), mapping));
    }

    method ResolveFace(face: Face) returns (r: Result<Claims, Failure>)
      requires Coherent() && Indexed()
      modifies `readQualifications, `readMappings
      ensures r == UseCases.ResolveFace(Image(), face)
      ensures r.Ok? && r.value.qualification.Some? ==> Remembers(r.value.qualification.value, r.value.mapping)
      ensures Coherent()
    {
      var matching := set i | i in slots && slots[i].owner.Some? && slots[i].face == face;
      assert forall i :: BoundFace(slots, i, face) <==> i in matching;
      if matching == {} { return Ok(ClaimsOf(FaceMatched, None, None)); }
      var i :| i in matching;
      assert BoundFace(slots, i, face);
      var slot := slots[i];
      var owner := slot.owner.value;
      assert OwnedBy(slots, i, owner.qualificationId);
      CurrentSlotFinds(slots, owner.qualificationId);
      if owner.qualificationId !in qualifications
        || qualifications[owner.qualificationId].incarnation != owner.incarnation {
        return Err(MappingStale);
      }
      var q := qualifications[owner.qualificationId];
      var mapping := Mapping(slot.slotIncarnation, slot.version);
      readQualifications := readQualifications[owner.qualificationId := q];
      readMappings := readMappings[owner.qualificationId := Some(mapping)];
      if !q.state.Valid() { return Err(DomainInvariant); }
      return Ok(ClaimsOf(FaceMatched, Some((owner.qualificationId, q)), Some(mapping)));
    }

    method FindStored(key: EventKey) returns (found: Option<Event>)
      requires Indexed()
      ensures found == FindEvent(events, key)
    {
      var matching := set e | e in events && e.key == key;
      assert forall e :: e in events && e.key == key <==> e in matching;
      if matching == {} { return None; }
      var e :| e in matching;
      return Some(e);
    }

    method ApplyQualificationEffect(q: Qualification, id: Uuid, decision: AccessDecision, receivedAt: int, env: Env)
      returns (r: Result<(), Failure>)
      requires id in qualifications
      modifies `stage, `qualifications
      ensures r == if !IsInstant(env.now) then Err(ClockInvalid)
                   else if decision.transition.Some?
                     && decision.transition.value.from != q.state.presence then Err(PresenceGuard)
                   else Ok(())
      ensures r.Ok? ==>
                Image() == Touch(old(Image()), id, q.(state := ArrivalState(q.state, decision, receivedAt)), env.now)
    {
      stage := WritingQualification;
      if !IsInstant(env.now) { return Err(ClockInvalid); }
      var state := q.state;
      if decision.transition.Some? {
        var t := decision.transition.value;
        if t.from != state.presence { return Err(PresenceGuard); }
        state := state.(presence := t.to);
        if t.to.Inside? { state := state.(enteredAt := Some(receivedAt)); }
        if t.to.Exited? { state := state.(exitedAt := Some(receivedAt)); }
      }
      if decision.qualificationEffect.ExpireNotEntered? { state := state.(expiredTerminalAt := Some(receivedAt)); }
      UpdateQualification(id, q.(state := state), env.now);
      return Ok(());
    }

    /** Moves the plan's qualification and, if asked, frees its face. */
    method MoveQualification(plan: RecognitionPlan, receivedAt: int, env: Env) returns (r: Result<(), Failure>)
      requires forall id :: id in readQualifications ==> id in qualifications
                                                         && qualifications[id] == readQualifications[id]
      modifies `stage, `qualifications, `slots
      ensures match QualificationStep(old(Image()), plan, receivedAt, env)
              case Ok(after) => r.Ok? && Image() == after
              case Err(f) => r == Err(f)
    {
      if plan.claims.qualification.None? { return Ok(()); }
      var p := plan.claims.qualification.value;
      var id := p.qualificationId;
      if id !in readQualifications && id !in qualifications { return Err(ProvenanceStale); }
      var q := if id in readQualifications then readQualifications[id] else qualifications[id];
      if q.incarnation != p.incarnation || q.version != p.version { return Err(ProvenanceStale); }
      var _ :- ApplyQualificationEffect(q, id, plan.decision, receivedAt, env);
      if plan.decision.faceEffect.Release? {
        stage := WritingMapping;
        r := ReleaseFaceForQualification(id, p.incarnation);
        stage := WritingQualification;
        return r;
      }
      return Ok(());
    }

    method InsertEvent(event: Event) returns (r: Result<(), Failure>)
      modifies `events
      ensures r == if exists e :: e in old(events) && e.eventId == event.eventId
                   then Err(ClassifyDuplicate(stage, OtherIndex)) else Ok(())
      ensures events == if r.Ok? then old(events) + [event] else old(events)
    {
      if exists e :: e in events && e.eventId == event.eventId { return Err(ClassifyDuplicate(stage, OtherIndex)); }
      events := events + [event];
      return Ok(());
    }

    /** The source must still be what the scope read, and gains a version. */
    method GuardSource(envelope: Envelope, env: Env) returns (r: Result<(), Failure>)
      requires Coherent() && env.epoch == epoch
      modifies `sourceGuards, `sources
      ensures match GuardStep(old(Image()), envelope, env)
              case Ok(after) => r.Ok? && Image() == after
              case Err(f) => r == Err(f)
    {
      var id := envelope.key.sourceId;
      if id !in sourceGuards {
        if id !in sources { return Err(SourceMissing); }
        sourceGuards := sourceGuards[id := sources[id]];
      }
      var guard := sourceGuards[id];
      if id !in sources || sources[id] != guard { return Err(SourceMissing); }
      if envelope.direction != guard.direction { return Err(DirectionMismatch); }
      var current :- ReadMetadata();
      if envelope.artifact.comparisonReferenceId != current.comparisonReferenceId { return Err(ReferenceMismatch); }
      sources := sources[id := guard.(version := guard.version + 1)];
      return Ok(());
    }

    /** Bumps the medium's guard, inserts the event and recounts the slots. */
    method LogEvent(plan: RecognitionPlan, envelope: Envelope, env: Env) returns (r: Result<RecognitionResult, Failure>)
      requires env.epoch == epoch
      modifies `stage, `metadata, `events
      ensures match LogStep(old(Image()), plan, envelope, env)
              case Ok(after) => r == Ok(Committed(NewEvent(plan, envelope, env))) && Image() == after
              case Err(f) => r == Err(f)
    {
      BumpGuard(plan.claims.media);
      stage := WritingEvent;
      if !IsInstant(env.recordedAt) { return Err(ClockInvalid); }
      var event := NewEvent(plan, envelope, env);
      var _ :- InsertEvent(event);
      var _ :- RecountSlots();
      return Ok(Committed(event));
    }

    method RecordAttempt(plan: RecognitionPlan, envelope: Envelope, env: Env)
      returns (r: Result<RecognitionResult, Failure>)
      requires Coherent() && env.epoch == epoch
      modifies this
      ensures match RecordStep(old(Image()), plan, envelope, env)
              case Ok(after) => r == Ok(after.1) && Image() == after.0
              case Err(f) => r == Err(f)
    {
      var guarded := GuardSource(envelope, env);
      if guarded.Err? { return guarded.PropagateFailure(); }
      var moved := MoveQualification(plan, envelope.receivedAt, env);
      if moved.Err? { return moved.PropagateFailure(); }
      r := LogEvent(plan, envelope, env);
    }

    /** applyRecognitionResult. */
    method ApplyRecognitionResult(plan: RecognitionPlan, envelope: Envelope, env: Env)
      returns (r: Result<RecognitionResult, Failure>)
      requires Coherent() && Indexed() && env.epoch == epoch
      modifies this
      ensures match ApplyRecognition(old(Image()), plan, envelope, env)
              case Ok(after) => r == Ok(after.1) && Image() == after.0
              case Err(f) => r == Err(f)
    {
      stage := Guarding;
      if !IsInstant(envelope.receivedAt) { return Err(FieldMissing); }
      var existing := FindStored(envelope.key);
      if existing.Some? {
        return Ok(if existing.value.artifact == envelope.artifact then Replayed(existing.value)
                  else IdempotencyConflict);
      }
      r := RecordAttempt(plan, envelope, env);
    }
  }

  lemma StillUnique(before: Slots, after: Slots)
    requires SlotsUnique(before) && after.Keys == before.Keys
    requires forall i :: i in before ==> after[i].face == before[i].face
                                         && (after[i].owner.Some? ==> after[i].owner == before[i].owner)
    ensures SlotsUnique(after)
  {
    assert forall i, k :: OwnedBy(after, i, k) ==> OwnedBy(before, i, k);
  }
}