/** The coordinator of write operations: a first-in first-out queue with one running
    operation, at most one legal settlement each, and a fence behind any outcome that
    is not known. */
module WriteCoordinator {
  import opened Base

  datatype Disposition = PrestartRejected | BusinessResultPersisted | KnownNoEffect | UnknownEffect

  datatype Validity = Waiting | Ready | Rejected
  datatype Phase = NoPause | Requested | Paused | Terminal
  datatype Executor = Idle | Working | Ended(failed: bool)

  datatype Operation = Operation(
    validation: Validity,
    decided: bool,                 // activated, rejected or settled by maintenance
    canceled: bool,                // marked by maintenance while waiting
    active: bool,
    finalized: bool,
    candidate: Option<Disposition>,
    settlements: nat,
    invalid: bool,
    phase: Phase,
    executor: Executor,
    told: Option<Disposition>)     // what the lifecycle observer was told

  datatype Gate = Allows | Defers | Throws

  const REGISTERED := Operation(Waiting, false, false, false, false, None, 0, false, NoPause, Idle, None)

  /** The observer was told an outcome that is known. */
  predicate Known(told: Option<Disposition>) {
    told.Some? && !told.value.UnknownEffect?
  }

  function Stranded(op: Operation): Operation {
    op.(finalized := true, active := false)
  }

  /** The operation failClosed was called for, unless it had ended before. */
  function Failed(op: Operation): Operation {
    if op.finalized then op else Stranded(op).(phase := Terminal)
  }

  function Told(op: Operation, d: Disposition): Operation {
    op.(finalized := true, active := false, phase := Terminal, told := Some(d))
  }

  lemma {:induction false} WithoutIncreases(queue: seq<nat>, i: nat)
    requires Increasing(queue)
    ensures Increasing(Without(queue, i))
  {
    if queue != [] {
      var rest := Without(queue[1..], i);
      WithoutIncreases(queue[1..], i);
      assert forall k :: 0 <= k < |rest| ==> rest[k] in queue[1..];
    }
  }

  lemma WithoutStranger(queue: seq<nat>, i: nat)
    requires i !in queue
    ensures Without(queue, i) == queue
  {
  }

  lemma {:induction false} WithoutLast(queue: seq<nat>, i: nat)
    requires i !in queue
    ensures Without(queue + [i], i) == queue
  {
    if queue == [] {
      assert [i][1..] == [];
    } else {
      assert (queue + [i])[1..] == queue[1..] + [i];
      WithoutLast(queue[1..], i);
    }
  }

  predicate Increasing(queue: seq<nat>) {
    forall j, k :: 0 <= j < k < |queue| ==> queue[j] < queue[k]
  }

  function Recorded(op: Operation, d: Disposition): Operation {
    op.(settlements := op.settlements + 1,
        invalid := op.invalid || op.settlements > 0,
        candidate := if op.candidate.None? then Some(d) else op.candidate)
  }

  function Pausing(op: Operation): Operation {
    op.(settlements := 1, candidate := Some(UnknownEffect), phase := Requested)
  }

  /** What an ended executor leaves behind: one legal settlement is published as it
      is, a well-formed pause is not published yet, the rest is unknown. */
  function Verdict(op: Operation): Option<Disposition>
    requires op.executor.Ended?
  {
    if op.executor.failed || op.settlements != 1 || op.invalid || op.candidate.None? then Some(UnknownEffect)
    else if op.phase.Requested? then (if op.candidate.value.UnknownEffect? then None else Some(UnknownEffect))
    else op.candidate
  }

  /** rejectQueued: whoever is still queued ends without the observer being told. */
  function Swept(operations: seq<Operation>, queue: seq<nat>): seq<Operation> {
    seq(|operations|, i requires 0 <= i < |operations| => if i in queue then Stranded(operations[i]) else operations[i])
  }

  /** Every operation but i is as before or was stranded. */
  predicate OnlyStrands(before: seq<Operation>, after: seq<Operation>, i: nat) {
    && |before| == |after|
    && forall k :: 0 <= k < |before| && k != i ==> after[k] == before[k] || after[k] == Stranded(before[k])
  }

  /** What the observer was told of an operation is never changed. */
  predicate ToldKept(before: seq<Operation>, after: seq<Operation>) {
    |before| <= |after| && forall i :: 0 <= i < |before| && before[i].told.Some? ==> after[i].told == before[i].told
  }

  lemma ToldKeptOn(before: seq<Operation>, between: seq<Operation>, after: seq<Operation>)
    requires ToldKept(before, between) && ToldKept(between, after)
    ensures ToldKept(before, after)
  {
  }

  lemma SweptStrands(before: seq<Operation>, queue: seq<nat>, i: nat, op: Operation)
    requires i < |before| && i !in queue
    ensures OnlyStrands(before, Swept(before[i := op], queue), i) && Swept(before[i := op], queue)[i] == op
  {
  }

  lemma SweptPrefix(operations: seq<Operation>, queue: seq<nat>, op: Operation)
    ensures (Swept(operations, queue) + [op])[..|operations|] == Swept(operations, queue)
    ensures OnlyStrands(operations, Swept(operations, queue), |operations|)
            && OnlyStrands(operations, operations, |operations|)
  {
  }

  function Marked(operations: seq<Operation>, queue: seq<nat>): seq<Operation> {
    seq(|operations|, i requires 0 <= i < |operations| =>
      if i in queue && operations[i].validation.Waiting? then operations[i].(canceled := true) else operations[i])
  }

  lemma HeadLeaves(queue: seq<nat>)
    requires queue != [] && Increasing(queue)
    ensures Without(queue, queue[0]) == queue[1..] && queue[0] !in queue[1..]
    ensures forall i :: i in queue ==> queue[0] <= i
  {
    WithoutStranger(queue[1..], queue[0]);
  }

  // What every operation satisfies; values, so that a change elsewhere leaves them alone.

  predicate QueuedOk(op: Operation) {
    && !op.active && !op.finalized && !op.validation.Rejected? && (op.decided <==> op.validation.Ready?)
    && op.candidate.None? && op.settlements == 0 && !op.invalid && op.phase.NoPause? && op.executor.Idle?
       && op.told.None?
  }

  predicate RunningOk(op: Operation) {
    && op.active && !op.finalized && op.validation.Ready? && op.decided && op.told.None?
    && (op.candidate.None? <==> op.settlements == 0)
    && (!op.invalid ==> op.settlements <= 1)
    && !op.phase.Terminal?
    && (op.phase.Requested? || op.phase.Paused? ==> op.candidate == Some(UnknownEffect))
    && (op.phase.Paused? ==> op.executor == Ended(false) && op.settlements == 1 && !op.invalid)
  }

  predicate OperationOk(op: Operation, queued: bool, running: bool) {
    if queued then !running && QueuedOk(op)
    else if running then RunningOk(op)
    else op.finalized && !op.active
  }

  predicate OperationsOk(operations: seq<Operation>, queue: seq<nat>, current: Option<nat>) {
    forall i :: 0 <= i < |operations| ==> OperationOk(operations[i], i in queue, current == Some(i))
  }

  predicate QueueOk(operations: seq<Operation>, queue: seq<nat>, current: Option<nat>) {
    && Increasing(queue)
    && (forall k :: 0 <= k < |queue| ==> queue[k] < |operations|)
    && (current.Some? ==> current.value < |operations| && forall k :: 0 <= k < |queue| ==> current.value < queue[k])
  }

  predicate OnHold(operations: seq<Operation>, current: Option<nat>) {
    current.Some? && current.value < |operations| && operations[current.value].phase.Paused?
  }

  /** Behind the fence nothing waits, except behind a pause; an unknown outcome that
      was published leaves the fence closed for good. */
  predicate FenceOk(operations: seq<Operation>, queue: seq<nat>, current: Option<nat>, blocked: bool) {
    && (blocked && queue != [] ==> OnHold(operations, current))
    && (OnHold(operations, current) ==> blocked)
    && (forall i :: 0 <= i < |operations| && operations[i].told == Some(UnknownEffect) ==>
          blocked && queue == [] && current.None?)
  }

  function Leaving(current: Option<nat>, i: nat): Option<nat> {
    if current == Some(i) then None else current
  }

  /** Ending one operation keeps the others as they are. */
  lemma EndingOk(operations: seq<Operation>, queue: seq<nat>, current: Option<nat>, i: nat, op: Operation)
    requires OperationsOk(operations, queue, current) && QueueOk(operations, queue, current)
    requires i < |operations| && op.finalized && !op.active
    ensures OperationsOk(operations[i := op], Without(queue, i), Leaving(current, i))
    ensures QueueOk(operations[i := op], Without(queue, i), Leaving(current, i))
  {
    var after, rest := operations[i := op], Without(queue, i);
    WithoutIncreases(queue, i);
    assert forall k :: 0 <= k < |rest| ==> rest[k] in rest;
    forall k | 0 <= k < |after| ensures OperationOk(after[k], k in rest, Leaving(current, i) == Some(k)) {
      assert OperationOk(operations[k], k in queue, current == Some(k));
    }
  }

  /** Ending a queued operation as known leaves the fence as it was. */
  lemma FenceStays(operations: seq<Operation>, queue: seq<nat>, current: Option<nat>, blocked: bool, i: nat,
                   op: Operation)
    requires FenceOk(operations, queue, current, blocked) && QueueOk(operations, queue, current)
    requires i in queue && i < |operations| && op.told != Some(UnknownEffect)
    ensures FenceOk(operations[i := op], Without(queue, i), current, blocked)
  {
    assert current != Some(i);
  }

  lemma SweepingOk(operations: seq<Operation>, queue: seq<nat>, current: Option<nat>)
    requires OperationsOk(operations, queue, current) && QueueOk(operations, queue, current)
    ensures OperationsOk(Swept(operations, queue), [], current)
    ensures QueueOk(Swept(operations, queue), [], current)
  {
    var after := Swept(operations, queue);
    forall k | 0 <= k < |after| ensures OperationOk(after[k], k in [], current == Some(k)) {
      assert OperationOk(operations[k], k in queue, current == Some(k));
    }
  }

  lemma SweepingTells(operations: seq<Operation>, queue: seq<nat>)
    ensures forall k :: 0 <= k < |operations| ==> Swept(operations, queue)[k].told == operations[k].told
  {
  }

  lemma AppendOk(operations: seq<Operation>, queue: seq<nat>, current: Option<nat>)
    requires OperationsOk(operations, queue, current) && QueueOk(operations, queue, current)
    ensures OperationsOk(operations + [REGISTERED], queue + [|operations|], current)
    ensures QueueOk(operations + [REGISTERED], queue + [|operations|], current)
  {
    var after, n := operations + [REGISTERED], |operations|;
    assert n !in queue;
    forall k | 0 <= k < |after| ensures OperationOk(after[k], k in queue + [n], current == Some(k)) {
      if k < n { assert OperationOk(operations[k], k in queue, current == Some(k)); }
    }
  }

  class Coordinator {
    var operations: seq<Operation>
    var queue: seq<nat>
    var current: Option<nat>
    var blocked: bool

    predicate Valid()
      reads this
    {
      && OperationsOk(operations, queue, current)
      && QueueOk(operations, queue, current)
      && FenceOk(operations, queue, current, blocked)
    }

    constructor ()
      ensures Valid() && operations == [] && queue == [] && current.None? && !blocked
    {
      operations, queue, current, blocked := [], [], None, false;
    }

    // ------------------------------------------------------------------- endings

    /** failClosed: the operation and everyone queued end untold, behind the fence. */
    method FailClosed(i: nat, op: Operation)
      requires Valid() && i < |operations|
      requires op.finalized == operations[i].finalized && op.active == operations[i].active
               && op.told == operations[i].told
      modifies this
      ensures Valid() && blocked && queue == []
      ensures current == if op.finalized then old(current) else Leaving(old(current), i)
      ensures operations == Swept(old(operations)[i := Failed(op)], Without(old(queue), i))
      ensures ToldKept(old(operations), operations)
    {
      blocked := true;
      EndingOk(operations, queue, current, i, Failed(op));
      operations := operations[i := Failed(op)];
      queue := Without(queue, i);
      current := Leaving(current, i);
      SweepingOk(operations, queue, current);
      assert forall k :: 0 <= k < |operations| ==> operations[k].told == old(operations)[k].told;
      SweepingTells(operations, queue);
      operations := Swept(operations, queue);
      queue := [];
    }

    /** finalize and finalizeUnknown: the observer is told; an unknown effect, or an
        observer that throws, closes the fence and strands the queue. */
    method Finalize(i: nat, op: Operation, d: Disposition, observerThrows: bool)
      requires Valid() && i < |operations| && !operations[i].finalized
      requires if d.UnknownEffect? then current == Some(i) else !operations[i].phase.Paused?
      modifies this
      ensures Valid() && current == Leaving(old(current), i)
      ensures blocked == (old(blocked) || d.UnknownEffect? || observerThrows)
      ensures !(d.UnknownEffect? || observerThrows) ==>
                queue == Without(old(queue), i) && operations == old(operations)[i := Told(op, d)]
      ensures d.UnknownEffect? || observerThrows ==>
                queue == [] && operations == Swept(old(operations)[i := Told(op, d)], Without(old(queue), i))
      ensures ToldKept(old(operations), operations)
    {
      EndingOk(operations, queue, current, i, Told(op, d));
      operations := operations[i := Told(op, d)];
      queue := Without(queue, i);
      if current == Some(i) { current := None; }
      if d.UnknownEffect? || observerThrows {
        blocked := true;
        SweepingOk(operations, queue, current);
        operations := Swept(operations, queue);
        queue := [];
      }
    }

    /** finalizeMaintenanceKnownNoEffect: the others are left alone, even if the
        observer throws. */
    method FinalizeMaintenance(i: nat, op: Operation)
      requires Valid() && i in queue
      modifies this
      ensures Valid() && queue == Without(old(queue), i) && current == old(current) && blocked == old(blocked)
      ensures operations == old(operations)[i := Told(op, KnownNoEffect)]
      ensures ToldKept(old(operations), operations)
    {
      EndingOk(operations, queue, current, i, Told(op, KnownNoEffect));
      FenceStays(operations, queue, current, blocked, i, Told(op, KnownNoEffect));
      operations := operations[i := Told(op, KnownNoEffect)];
      queue := Without(queue, i);
    }

    /** finalizeRecoveredBusinessResult: lifts the fence of the pause, unless the
        observer throws. */
    method FinalizeRecovered(observerThrows: bool) returns (ok: bool)
      requires Valid() && OnHold(operations, current)
      modifies this
      ensures Valid() && current.None? && blocked == observerThrows && ok == !observerThrows
      ensures var i := old(current).value;
              var ended := old(operations)[i := Told(old(operations)[i], BusinessResultPersisted)];
              if observerThrows then queue == [] && operations == Swept(ended, old(queue))
              else queue == old(queue) && operations == ended
      ensures var i := old(current).value;
              && OnlyStrands(old(operations), operations, i)
              && operations[i] == Told(old(operations)[i], BusinessResultPersisted)
      ensures ToldKept(old(operations), operations)
    {
      var i := current.value;
      assert i !in queue;
      WithoutStranger(queue, i);
      SweptStrands(operations, queue, i, Told(operations[i], BusinessResultPersisted));
      EndingOk(operations, queue, current, i, Told(operations[i], BusinessResultPersisted));
      operations := operations[i := Told(operations[i], BusinessResultPersisted)];
      current := None;
      if observerThrows {
        SweepingOk(operations, queue, current);
        operations := Swept(operations, queue);
        queue := [];
      } else {
        blocked := false;
      }
      return !observerThrows;
    }

    // --------------------------------------------------------- registering, deciding

    /** registerProvisional: refused behind the fence or with a bad clock; a throwing
        observer ends the operation, and everyone queued, at once. */
    method Register(clocksThrow: bool, observerThrows: bool) returns (i: Option<nat>)
      requires Valid()
      modifies this
      ensures Valid() && current == old(current)
      ensures i.None? <==> old(blocked) || clocksThrow || observerThrows
      ensures old(blocked) || clocksThrow ==>
                operations == old(operations) && queue == old(queue) && blocked == old(blocked)
      ensures !old(blocked) && !clocksThrow && observerThrows ==>
                blocked && queue == []
                && operations == Swept(old(operations), old(queue)) + [Failed(REGISTERED)]
      ensures i.None? ==>
                && |old(operations)| <= |operations| <= |old(operations)| + 1
                && OnlyStrands(old(operations), operations[..|old(operations)|], |old(operations)|)
                && forall k :: |old(operations)| <= k < |operations| ==> operations[k].finalized
      ensures i.Some? ==>
                i.value == |old(operations)| && operations == old(operations) + [REGISTERED]
                && queue == old(queue) + [i.value] && !blocked
      ensures ToldKept(old(operations), operations)
    {
      if blocked || clocksThrow { return None; }
      SweptPrefix(operations, queue, Failed(REGISTERED));
      Append();
      if observerThrows {
        Abandon(|operations| - 1);
        return None;
      }
      return Some(|operations| - 1);
    }

    method Append()
      requires Valid() && !blocked
      modifies this
      ensures Valid() && !blocked && current == old(current)
      ensures operations == old(operations) + [REGISTERED] && queue == old(queue) + [|old(operations)|]
              && |old(operations)| !in old(queue)
    {
      AppendOk(operations, queue, current);
      queue := queue + [|operations|];
      operations := operations + [REGISTERED];
    }

    /** The newest operation fails before it was handed out. */
    method Abandon(n: nat)
      requires Valid() && !blocked && n == |operations| - 1 && operations[n] == REGISTERED && queue != []
               && queue[|queue| - 1] == n
      requires n !in queue[..|queue| - 1]
      modifies this
      ensures Valid() && blocked && queue == [] && current == old(current)
      ensures operations == Swept(old(operations)[..n], old(queue)[..|old(queue)| - 1]) + [Failed(REGISTERED)]
      ensures ToldKept(old(operations), operations)
    {
      ghost var rest := queue[..|queue| - 1];
      assert queue == rest + [n];
      WithoutLast(rest, n);
      assert current != Some(n);
      FailClosed(n, REGISTERED);
    }

    /** activate: once; an operation stranded meanwhile stays so. */
    method Activate(i: nat, observerThrows: bool) returns (ok: bool)
      requires Valid() && i < |operations|
      modifies this
      ensures Valid() && current == old(current)
      ensures ok == (!old(operations)[i].decided && !observerThrows)
      ensures !old(operations)[i].decided && !old(operations)[i].finalized ==> QueuedOk(old(operations)[i])
      ensures old(operations)[i].decided ==> operations == old(operations) && queue == old(queue)
                                             && blocked == old(blocked)
      ensures !old(operations)[i].decided && !observerThrows ==>
                operations == old(operations)[i := old(operations)[i].(decided := true, validation := Ready)]
                && queue == old(queue) && blocked == old(blocked)
      ensures !old(operations)[i].decided && observerThrows ==>
                && blocked && queue == []
                && operations ==
                   Swept(old(operations)[i := Failed(old(operations)[i].(decided := true, validation := Ready))],
                                       Without(old(queue), i))
      ensures OnlyStrands(old(operations), operations, i)
      ensures operations[i] == if old(operations)[i].decided then old(operations)[i]
                               else if observerThrows
                                 then Failed(old(operations)[i].(decided := true, validation := Ready))
                               else old(operations)[i].(decided := true, validation := Ready)
      ensures ToldKept(old(operations), operations)
    {
      if operations[i].decided { return false; }
      var op := operations[i].(decided := true, validation := Ready);
      if observerThrows {
        SweptStrands(operations, Without(queue, i), i, Failed(op));
        FailClosed(i, op);
        return false;
      }
      operations := operations[i := op];
      return true;
    }

    /** rejectBeforeStart: once, and only while the operation is still queued. */
    method RejectBeforeStart(i: nat, observerThrows: bool) returns (ok: bool)
      requires Valid() && i < |operations|
      modifies this
      ensures Valid() && current == old(current)
      ensures ok <==> !old(operations)[i].decided && i in old(queue)
      ensures ok ==>
                var rejected := Told(old(operations)[i].(decided := true, validation := Rejected), PrestartRejected);
                && blocked == (old(blocked) || observerThrows)
                && queue == (if observerThrows then [] else Without(old(queue), i))
                && operations == if observerThrows then Swept(old(operations)[i := rejected], Without(old(queue), i))
                                 else old(operations)[i := rejected]
      ensures !ok ==> queue == old(queue) && blocked == old(blocked)
      ensures !ok ==> operations == if old(operations)[i].decided then old(operations)
                                    else old(operations)[i :=
                                                         old(operations)[i].(decided := true, validation := Rejected)]
      ensures OnlyStrands(old(operations), operations, i)
      ensures operations[i] == if ok
              then Told(old(operations)[i].(decided := true, validation := Rejected), PrestartRejected)
                               else if old(operations)[i].decided then old(operations)[i]
                               else old(operations)[i].(decided := true, validation := Rejected)
      ensures ToldKept(old(operations), operations)
    {
      if operations[i].decided { return false; }
      ok := i in queue;
      var rejected := operations[i].(decided := true, validation := Rejected);
      if !ok {
        operations := operations[i := rejected];
        return false;
      }
      SweptStrands(operations, Without(queue, i), i, Told(rejected, PrestartRejected));
      Finalize(i, rejected, PrestartRejected, observerThrows);
    }

    /** settleMaintenanceKnownNoEffect: once, while waiting and queued. */
    method SettleMaintenance(i: nat) returns (ok: bool)
      requires Valid() && i < |operations|
      modifies this
      ensures Valid() && current == old(current) && blocked == old(blocked)
      ensures ok <==> !old(operations)[i].decided && i in old(queue)
      ensures ok ==> queue == Without(old(queue), i)
                     && operations == old(operations)[i := Told(old(operations)[i].(decided := true), KnownNoEffect)]
      ensures !ok ==> queue == old(queue) && operations == old(operations)[i := old(operations)[i].(decided := true)]
      ensures OnlyStrands(old(operations), operations, i)
      ensures ToldKept(old(operations), operations)
    {
      if operations[i].decided {
        assert operations == operations[i := operations[i].(decided := true)];
        return false;
      }
      ok := i in queue;
      if ok {
        FinalizeMaintenance(i, operations[i].(decided := true));
      } else {
        operations := operations[i := operations[i].(decided := true)];
      }
    }

    /** consumeMaintenanceValidationCancellation: one-shot. */
    method ConsumeCancellation(i: nat) returns (canceled: bool)
      requires Valid() && i < |operations|
      modifies `operations
      ensures Valid() && canceled == old(operations)[i].canceled
      ensures operations == old(operations)[i := old(operations)[i].(canceled := false)]
      ensures ToldKept(old(operations), operations)
    {
      canceled := operations[i].canceled;
      operations := operations[i := operations[i].(canceled := false)];
    }

    /** markWaitingValidationMaintenanceCanceled. */
    method MarkWaiting()
      requires Valid()
      modifies `operations
      ensures Valid() && operations == Marked(old(operations), queue)
      ensures ToldKept(old(operations), operations)
    {
      operations := Marked(operations, queue);
    }

    // ------------------------------------------------------------------- running

    /** One turn of drain: the head starts if it is validated, the gate lets it and
        nothing runs or is fenced off; then every earlier operation has ended. */
    method Start(gate: Gate, observerThrows: bool) returns (started: Option<nat>)
      requires Valid()
      modifies this
      ensures Valid()
      ensures started.Some? <==> old(Startable()) && gate.Allows? && !observerThrows
      ensures started.Some? ==>
                && old(queue) == [started.value] + queue && current == started && !blocked
                && operations == old(operations)[started.value :=
                                                 old(operations)[started.value].(active := true, executor := Working)]
                && (forall i :: 0 <= i < started.value ==> operations[i].finalized)
      ensures started.None? && (!old(Startable()) || gate.Defers?) ==>
                operations == old(operations) && queue == old(queue) && current == old(current)
                  && blocked == old(blocked)
      ensures started.None? && old(Startable()) && !gate.Defers? ==>
                && blocked && queue == [] && current.None?
                && var head := old(queue)[0];
                   operations == Swept(old(operations)[head := Failed(old(operations)[head])], old(queue)[1..])
      ensures old(Startable()) ==>
                var head := old(queue)[0];
                && OnlyStrands(old(operations), operations, head)
                && operations[head] == if started.Some? then old(operations)[head].(active := true, executor := Working)
                                       else if gate.Defers? then old(operations)[head]
                                       else Failed(old(operations)[head])
      ensures ToldKept(old(operations), operations)
    {
      if !Startable() || gate.Defers? { return None; }
      var i := queue[0];
      HeadLeaves(queue);
      if gate.Throws? || observerThrows {
        SweptStrands(operations, queue[1..], i, Failed(operations[i]));
        FailClosed(i, operations[i]);
        return None;
      }
      operations := operations[i := operations[i].(active := true, executor := Working)];
      queue := queue[1..];
      current := Some(i);
      return Some(i);
    }

    predicate Startable()
      reads this
      requires Valid()
    {
      !blocked && current.None? && queue != [] && operations[queue[0]].validation.Ready?
    }

    /** recordCandidate: the first settlement is the candidate, a second one makes the
        operation invalid. */
    method Record(i: nat, d: Disposition)
      requires Valid() && i < |operations|
      requires operations[i].active ==> !operations[i].phase.Paused?
      modifies `operations
      ensures Valid()
      ensures operations == if old(operations)[i].active then old(operations)[i := Recorded(old(operations)[i], d)]
              else old(operations)
      ensures ToldKept(old(operations), operations)
    {
      if operations[i].finalized || !operations[i].active { return; }
      operations := operations[i := Recorded(operations[i], d)];
    }

    /** requestPostCommitUnknownPause: instead of the first settlement. */
    method RequestPause(i: nat) returns (ok: bool)
      requires Valid() && i < |operations|
      modifies `operations
      ensures Valid()
      ensures ok <==> current == Some(i) && old(operations)[i].phase.NoPause? && old(operations)[i].settlements == 0
      ensures operations == if ok then old(operations)[i := Pausing(old(operations)[i])] else old(operations)
      ensures ToldKept(old(operations), operations)
    {
      if current != Some(i) || !operations[i].phase.NoPause? || operations[i].settlements != 0
        || operations[i].candidate.Some? {
        return false;
      }
      operations := operations[i := Pausing(operations[i])];
      return true;
    }

    /** The executor's promise of the running operation was resolved or rejected. */
    method EndExecutor(failed: bool)
      requires Valid() && current.Some? && operations[current.value].executor.Working?
      modifies `operations
      ensures Valid()
      ensures var i := current.value;
              operations == old(operations)[i := old(operations)[i].(executor := Ended(failed))]
      ensures ToldKept(old(operations), operations)
    {
      operations := operations[current.value := operations[current.value].(executor := Ended(failed))];
    }

    /** The end of runOperation: a well-formed pause holds the queue, one legal
        settlement is published, anything else is published as unknown. */
    method Complete(observerThrows: bool)
      requires Valid() && current.Some? && operations[current.value].executor.Ended? && !OnHold(operations, current)
      modifies this
      ensures Valid()
      ensures var i := old(current).value;
              var op := old(operations)[i];
              if Verdict(op).None? then
                current == old(current) && queue == old(queue) && blocked
                  && operations == old(operations)[i := op.(phase := Paused)]
              else
                && current.None?
                && var d, ended := Verdict(op).value, old(operations)[i := Told(op, Verdict(op).value)];
                   && blocked == (old(blocked) || d.UnknownEffect? || observerThrows)
                   && queue == (if d.UnknownEffect? || observerThrows then [] else old(queue))
                   && operations == if d.UnknownEffect? || observerThrows then Swept(ended, old(queue)) else ended
      ensures var i := old(current).value;
              var op := old(operations)[i];
              && OnlyStrands(old(operations), operations, i)
              && operations[i] == if Verdict(op).None? then op.(phase := Paused) else Told(op, Verdict(op).value)
      ensures ToldKept(old(operations), operations)
    {
      var i := current.value;
      var op := operations[i];
      WithoutStranger(queue, i);
      if Verdict(op).None? {
        operations := operations[i := op.(phase := Paused)];
        blocked := true;
      } else {
        SweptStrands(operations, queue, i, Told(op, Verdict(op).value));
        Finalize(i, op, Verdict(op).value, observerThrows);
      }
    }

    /** The recovery handle's failClosed: the paused operation ends as unknown. */
    method FailRecovered(observerThrows: bool)
      requires Valid() && OnHold(operations, current)
      modifies this
      ensures Valid() && current.None? && blocked && queue == []
      ensures var i := old(current).value;
              && operations == Swept(old(operations)[i := Told(old(operations)[i], UnknownEffect)], old(queue))
              && OnlyStrands(old(operations), operations, i)
              && operations[i] == Told(old(operations)[i], UnknownEffect)
      ensures ToldKept(old(operations), operations)
    {
      var i := current.value;
      WithoutStranger(queue, i);
      SweptStrands(operations, queue, i, Told(operations[i], UnknownEffect));
      Finalize(i, operations[i], UnknownEffect, observerThrows);
    }
  }

  method OneRunsOneWaits() returns (c: Coordinator)
    ensures fresh(c) && c.Valid() && c.queue == [1] && c.current == Some(0)
    ensures c.operations == [REGISTERED.(decided := true, validation := Ready, active := true, executor := Working),
                             REGISTERED]
  {
    c := new Coordinator();
    var first := c.Register(false, false);
    var second := c.Register(false, false);
    var activated := c.Activate(0, false);
    assert c.queue == [0, 1];
    var started := c.Start(Allows, false);
  }

  /** An operation waiting behind one with an unknown effect ends without the observer
      ever being told. */
  method StrandedBehindUnknown() returns (c: Coordinator)
    ensures c.Valid() && |c.operations| == 2
    ensures c.operations[0].told == Some(UnknownEffect)
    ensures c.operations[1].finalized && c.operations[1].told.None?
  {
    c := OneRunsOneWaits();
    c.Record(0, UnknownEffect);
    c.EndExecutor(false);
    c.Complete(false);
  }
}
