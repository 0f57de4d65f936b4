/** The bridge that keeps a writer's persistence lease while the outcome of its
    commit is unknown, one method per synchronous stretch of the program. */
module RecoveryBridge {
  import opened Base

  // ------------------------------------------------------- admission to scope, once

  /** The one-to-one relation between an admitted writer and its persistence scope. */
  class OperationBridge {
    var scopeOf: map<nat, nat>
    var admissionOf: map<nat, nat>
    var retired: set<nat>         // closed access scopes

    ghost predicate Valid()
      reads this
    {
      && (forall c :: c in scopeOf ==> scopeOf[c] in admissionOf && admissionOf[scopeOf[c]] == c)
      && (forall s :: s in admissionOf ==> admissionOf[s] in scopeOf && scopeOf[admissionOf[s]] == s)
    }

    constructor ()
      ensures Valid() && scopeOf == map[] && admissionOf == map[] && retired == {}
    {
      scopeOf, admissionOf, retired := map[], map[], {};
    }

    method Retire(scope: nat)
      requires Valid()
      modifies `retired
      ensures Valid() && retired == old(retired) + {scope}
    {
      retired := retired + {scope};
    }

    /** What the adapter resolves when it opens a transaction. */
    predicate LiveBinding(scope: nat)
      reads this
    {
      scope in admissionOf && scope !in retired
    }

    /** The first scoped persistence use binds; nothing is ever rebound. */
    method Bind(context: nat, scope: nat) returns (ok: bool)
      requires Valid()
      modifies `scopeOf, `admissionOf
      ensures Valid()
      ensures ok <==> context !in old(scopeOf) && scope !in old(admissionOf) && scope !in retired
      ensures scopeOf == if ok then old(scopeOf)[context := scope] else old(scopeOf)
      ensures admissionOf == if ok then old(admissionOf)[scope := context] else old(admissionOf)
    {
      if scope in retired || scope in admissionOf || context in scopeOf { return false; }
      admissionOf := admissionOf[scope := context];
      scopeOf := scopeOf[context := scope];
      return true;
    }
  }

  // --------------------------------------------------------------------- the bridge

  /** A retained transaction: its session's scope and an identity. */
  datatype Handoff = Handoff(id: nat, scope: nat)

  datatype Invocation = Invocation(
    context: nat,
    handoff: Option<Handoff>,
    finished: bool,
    paused: bool,
    leaseReleased: bool)

  datatype Ticket = Ticket(invocation: nat, handoff: Handoff, claimed: bool, confirming: bool, terminal: bool)

  datatype PauseFault = NoFault | SettlementThrows | AdoptThrows | TakeThrows
  datatype PauseAnswer = NotMine | Paused | PauseThrew

  // What every writer and every ticket satisfies; values, so that a change elsewhere
  // leaves them alone.

  ghost predicate InvocationOk(scopeOf: map<nat, nat>, active: Option<nat>, confirmed: set<nat>, inv: Invocation,
                               i: nat) {
    && (inv.leaseReleased <==> active != Some(i))
    && (inv.handoff.Some? ==> inv.context in scopeOf && scopeOf[inv.context] == inv.handoff.value.scope)
    && (inv.leaseReleased && inv.handoff.Some? ==> inv.handoff.value.id in confirmed)
    && (inv.paused ==> inv.finished && inv.handoff.Some?)
  }

  ghost predicate InvocationsOk(scopeOf: map<nat, nat>, active: Option<nat>, confirmed: set<nat>,
                                invocations: seq<Invocation>) {
    && (active.Some? ==> active.value < |invocations|)
    && (forall i :: 0 <= i < |invocations| ==> InvocationOk(scopeOf, active, confirmed, invocations[i], i))
  }

  predicate LiveIn(tickets: seq<Ticket>, t: nat) {
    t < |tickets| && !tickets[t].terminal
  }

  ghost predicate TicketOk(active: Option<nat>, invocations: seq<Invocation>, confirmed: set<nat>, queued: seq<nat>,
                           ticket: Ticket, t: nat) {
    && ticket.invocation < |invocations|
    && invocations[ticket.invocation].handoff == Some(ticket.handoff)
    && (ticket.confirming ==> ticket.handoff.id in confirmed)
    && (!ticket.terminal ==>
          && active == Some(ticket.invocation) && invocations[ticket.invocation].paused
          && (ticket.claimed <==> t !in queued))
  }

  ghost predicate TicketsOk(active: Option<nat>, invocations: seq<Invocation>, confirmed: set<nat>, queued: seq<nat>,
                            tickets: seq<Ticket>) {
    && (forall t :: 0 <= t < |tickets| ==> TicketOk(active, invocations, confirmed, queued, tickets[t], t))
    && (forall t, u :: LiveIn(tickets, t) && LiveIn(tickets, u) ==> t == u)
    && (forall t :: t in queued ==> LiveIn(tickets, t))
    && |queued| <= 1
  }

  lemma WithoutShrinks(queue: seq<nat>, t: nat)
    ensures |Without(queue, t)| <= |queue| && (t in queue ==> |Without(queue, t)| < |queue|)
  {
  }

  lemma EmptyUnlessMember(queue: seq<nat>)
    ensures (forall t: nat :: t !in queue) ==> queue == []
  {
    assert queue != [] ==> queue[0] in queue;
  }

  /** Nobody gained or lost a handoff, whatever else happened to the writers. */
  predicate HandoffsKept(before: seq<Invocation>, after: seq<Invocation>) {
    && |before| <= |after|
    && (forall i :: 0 <= i < |before| ==> after[i].handoff == before[i].handoff)
    && (forall i :: |before| <= i < |after| ==> after[i].handoff.None?)
  }

  class Bridge {
    const scopes: OperationBridge
    var ownerBound: bool
    var active: Option<nat>
    var invocations: seq<Invocation>
    var tickets: seq<Ticket>
    var queued: seq<nat>
    ghost var confirmed: set<nat>    // handoffs whose commit Mongo has proved

    predicate Live(t: nat)
      reads this
    {
      LiveIn(tickets, t)
    }

    ghost predicate Valid()
      reads this, scopes
    {
      && scopes.Valid()
      && InvocationsOk(scopes.scopeOf, active, confirmed, invocations)
      && TicketsOk(active, invocations, confirmed, queued, tickets)
    }

    constructor (scopes: OperationBridge)
      requires scopes.Valid()
      ensures Valid() && this.scopes == scopes && active.None? && queued == [] && tickets == []
      ensures !ownerBound && invocations == [] && confirmed == {}
    {
      this.scopes := scopes;
      ownerBound := false;
      active := None;
      invocations, tickets, queued := [], [], [];
      confirmed := {};
    }

    method BindRecoveryOwner() returns (ok: bool)
      requires Valid()
      modifies `ownerBound
      ensures Valid() && ok == (active.None? && !old(ownerBound)) && ownerBound == (old(ownerBound) || ok)
    {
      if active.Some? || ownerBound { return false; }
      ownerBound := true;
      return true;
    }

    /** A writer is begun only when none is active: at most one lease is held. */
    method BeginIssuedPersistence(context: nat) returns (ok: bool)
      requires Valid()
      modifies `active, `invocations
      ensures Valid()
      ensures ok == (old(active).None? && ownerBound)
      ensures ok ==> active == Some(|old(invocations)|)
                     && invocations == old(invocations) + [Invocation(context, None, false, false, false)]
      ensures !ok ==> active == old(active) && invocations == old(invocations)
    {
      if active.Some? || !ownerBound { return false; }
      active := Some(|invocations|);
      invocations := invocations + [Invocation(context, None, false, false, false)];
      return true;
    }

    /** The guards of observeRetained: the active writer still runs, has no handoff
        yet, and the transaction's scope is its own and still open. */
    predicate Accepts(scope: nat)
      requires InvocationsOk(scopes.scopeOf, active, confirmed, invocations)
      reads this, scopes
    {
      && active.Some?
      && var inv := invocations[active.value];
         && !inv.finished && inv.handoff.None?
         && inv.context in scopes.scopeOf && scopes.scopeOf[inv.context] == scope
         && scope !in scopes.retired
    }

    /** observeRetained: the adapter retained a transaction of the active writer's
        own scope; anything else is refused. */
    method ObserveRetained(handoff: Handoff) returns (ok: bool)
      requires Valid()
      modifies `invocations
      ensures Valid()
      ensures ok == old(Accepts(handoff.scope))
      ensures ok ==> invocations == old(invocations)[active.value :=
                                                     old(invocations)[active.value].(handoff := Some(handoff))]
      ensures !ok ==> invocations == old(invocations)
    {
      if active.None? { return false; }
      var i := active.value;
      var inv := invocations[i];
      if inv.finished || inv.handoff.Some? { return false; }
      if inv.context !in scopes.scopeOf || scopes.scopeOf[inv.context] != handoff.scope { return false; }
      if handoff.scope in scopes.retired { return false; }
      invocations := invocations[i := inv.(handoff := Some(handoff))];
      return true;
    }

    /** The writer's callback ended: without a retained transaction its lease goes
        back; with one it stays. */
    method FinishIssuedPersistence(context: nat) returns (ok: bool)
      requires Valid()
      modifies `active, `invocations
      ensures Valid()
      ensures ok <==> old(active).Some? && old(invocations)[old(active).value].context == context
                      && !old(invocations)[old(active).value].finished
      ensures !ok ==> active == old(active) && invocations == old(invocations)
      ensures ok ==>
                var inv := old(invocations)[old(active).value];
                && active == (if inv.handoff.None? then None else old(active))
                && invocations == old(invocations)[old(active).value :=
                     inv.(finished := true, leaseReleased := inv.leaseReleased || inv.handoff.None?)]
    {
      if active.None? || invocations[active.value].context != context { return false; }
      var i := active.value;
      var inv := invocations[i];
      if inv.finished { return false; }
      if inv.handoff.None? { active := None; }
      invocations := invocations[i := inv.(finished := true, leaseReleased := inv.handoff.None?)];
      return true;
    }

    /** pausePostCommitUnknown: queues the one ticket of the retained writer. Any
        fault on the way leaves the writer active and its lease held. */
    method PausePostCommitUnknown(context: nat, fault: PauseFault) returns (answer: PauseAnswer)
      requires Valid()
      modifies `invocations, `tickets, `queued
      ensures Valid()
      ensures answer.NotMine? <==>
                active.None? || old(invocations)[active.value].context != context
                  || old(invocations)[active.value].handoff.None?
      ensures answer.Paused? <==>
                && old(active).Some? && ownerBound && fault.NoFault?
                && var inv := old(invocations)[old(active).value];
                   inv.context == context && inv.handoff.Some? && inv.finished && !inv.paused
      ensures answer.Paused? ==>
                queued == old(queued) + [|old(tickets)|] && |tickets| == |old(tickets)| + 1 && old(tickets) <= tickets
                && !tickets[|old(tickets)|].claimed && Live(|old(tickets)|)
                && invocations == old(invocations)[active.value := old(invocations)[active.value].(paused := true)]
      ensures !answer.Paused? ==> tickets == old(tickets) && queued == old(queued) && invocations == old(invocations)
    {
      if active.None? || invocations[active.value].context != context || invocations[active.value].handoff.None? {
        return NotMine;
      }
      var i := active.value;
      var inv := invocations[i];
      if !inv.finished || inv.paused || !ownerBound || !fault.NoFault? { return PauseThrew; }
      EmptyUnlessMember(queued);
      var t := |tickets|;
      tickets := tickets + [Ticket(i, inv.handoff.value, false, false, false)];
      queued := queued + [t];
      invocations := invocations[i := inv.(paused := true)];
      return Paused;
    }

    /** A retained sender or a canonical reader proved the outcome of a handoff. */
    ghost method Prove(handoff: Handoff)
      requires Valid()
      modifies `confirmed
      ensures Valid() && confirmed == old(confirmed) + {handoff.id}
    {
      confirmed := confirmed + {handoff.id};
    }

    // ------------------------------------------------------------ ticket capability

    method Claim(t: nat) returns (ok: bool)
      requires Valid()
      modifies `tickets, `queued
      ensures Valid()
      ensures ok <==> t in old(queued)
      ensures ok ==> queued == [] && tickets == old(tickets)[t := old(tickets)[t].(claimed := true)] && Live(t)
                     && t < |old(tickets)|
      ensures !ok ==> tickets == old(tickets) && queued == old(queued)
    {
      if t !in queued { return false; }
      WithoutShrinks(queued, t);
      queued := Without(queued, t);
      tickets := tickets[t := tickets[t].(claimed := true)];
      assert forall u :: LiveIn(tickets, u) ==> old(LiveIn(tickets, u));
      return true;
    }

    /** confirmedPersisted up to its await. The cleaner exists only for an outcome
        that has been proved; a premature call changes nothing. */
    method StartConfirmed(t: nat, current: bool, settles: bool, cleaner: bool) returns (ok: bool)
      requires Valid() && t < |tickets|
      requires cleaner ==> tickets[t].handoff.id in confirmed
      modifies `tickets
      ensures Valid()
      ensures ok <==> old(Live(t)) && old(tickets)[t].claimed && current && settles && cleaner
      ensures tickets == if ok then old(tickets)[t := old(tickets)[t].(confirming := true)] else old(tickets)
    {
      if tickets[t].terminal || !tickets[t].claimed || !current || !settles || !cleaner { return false; }
      tickets := tickets[t := tickets[t].(confirming := true)];
      assert forall u :: LiveIn(tickets, u) ==> old(LiveIn(tickets, u));
      return true;
    }

    /** ... and after it: the lease goes back only if cleanup and publication both
        succeeded; otherwise the ticket ends but the lease stays. */
    method FinishConfirmed(t: nat, cleaned: bool, published: bool) returns (ok: bool)
      requires Valid() && t < |tickets| && tickets[t].confirming && tickets[t].claimed
      modifies `active, `invocations, `tickets
      ensures Valid()
      ensures ok == (cleaned && published)
      ensures tickets == old(tickets)[t := old(tickets)[t].(terminal := true)]
      ensures old(Live(t)) && ok ==>
                active.None? && invocations == old(invocations)[old(tickets)[t].invocation :=
                  old(invocations)[old(tickets)[t].invocation].(leaseReleased := true)]
      ensures !(old(Live(t)) && ok) ==> active == old(active) && invocations == old(invocations)
    {
      ok := cleaned && published;
      var ticket := tickets[t];
      if ok && !ticket.terminal {
        CompleteTicketTerminal(t);
      } else {
        RetainUnsafeInvocation(t);
      }
    }

    method CompleteTicketTerminal(t: nat)
      requires Valid() && Live(t) && tickets[t].claimed && tickets[t].handoff.id in confirmed
      modifies `active, `invocations, `tickets
      ensures Valid() && active.None?
      ensures tickets == old(tickets)[t := old(tickets)[t].(terminal := true)]
      ensures invocations == old(invocations)[old(tickets)[t].invocation :=
                old(invocations)[old(tickets)[t].invocation].(leaseReleased := true)]
    {
      var i := tickets[t].invocation;
      tickets := tickets[t := tickets[t].(terminal := true)];
      assert forall u :: LiveIn(tickets, u) ==> u != t && old(LiveIn(tickets, u));
      active := None;
      invocations := invocations[i := invocations[i].(leaseReleased := true)];
      assert forall u :: !LiveIn(tickets, u) by { assert old(LiveIn(tickets, t)); }
      forall u: nat | u < |tickets| ensures TicketOk(active, invocations, confirmed, queued, tickets[u], u) {
        assert !LiveIn(tickets, u);
        assert old(TicketOk(active, invocations, confirmed, queued, tickets[u], u));
      }
    }

    /** The ticket ends; the invocation and its lease are kept as a fence. */
    method RetainUnsafeInvocation(t: nat)
      requires Valid() && t < |tickets| && tickets[t].claimed
      modifies `tickets
      ensures Valid()
      ensures tickets == old(tickets)[t := old(tickets)[t].(terminal := true)]
    {
      tickets := tickets[t := tickets[t].(terminal := true)];
      assert forall u :: LiveIn(tickets, u) ==> u != t && old(LiveIn(tickets, u));
    }

    method FailClosed(t: nat, current: bool) returns (ok: bool)
      requires Valid() && t < |tickets|
      modifies `tickets
      ensures Valid()
      ensures ok <==> old(Live(t)) && old(tickets)[t].claimed && current
      ensures tickets == if ok then old(tickets)[t := old(tickets)[t].(terminal := true)] else old(tickets)
    {
      if tickets[t].terminal || !tickets[t].claimed || !current { return false; }
      RetainUnsafeInvocation(t);
      return true;
    }

    // -------------------------------------------------------------------- the claims

    /** What every reachable bridge guarantees: one held lease at most, one live
        ticket at most, handoffs of the writer's own scope, and nothing drainable
        while an outcome is unknown. */
    lemma Guarantees()
      requires Valid()
      ensures forall i, j | 0 <= i < |invocations| && 0 <= j < |invocations| ::
                !invocations[i].leaseReleased && !invocations[j].leaseReleased ==> i == j
      ensures forall t, u :: Live(t) && Live(u) ==> t == u
      ensures forall i | 0 <= i < |invocations| && invocations[i].handoff.Some? ::
                && invocations[i].context in scopes.scopeOf
                && scopes.scopeOf[invocations[i].context] == invocations[i].handoff.value.scope
                && (invocations[i].leaseReleased ==> invocations[i].handoff.value.id in confirmed)
      ensures active.None? ==>
                forall i | 0 <= i < |invocations|
                  && invocations[i].handoff.Some? :: invocations[i].handoff.value.id in confirmed
    {
    }
  }

  /** Binding a further scope elsewhere leaves every guarantee in place. */
  lemma ScopesGrow(before: map<nat, nat>, after: map<nat, nat>, active: Option<nat>, confirmed: set<nat>,
                   invocations: seq<Invocation>)
    requires InvocationsOk(before, active, confirmed, invocations)
    requires forall c :: c in before ==> c in after && after[c] == before[c]
    ensures InvocationsOk(after, active, confirmed, invocations)
  {
  }
}
