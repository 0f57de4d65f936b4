/** The whole recovery system under any order of events: admitted writers, their
    transactions, the bridge and the scheduler. */
module RecoverySystem {
  import opened Base
  import opened RecoverySessions
  import opened RecoveryBridge
  import opened RecoveryScheduler

  // --------------------------------------------------------------- commits and writers

  predicate TakenOver(fate: Fate) {
    fate.Retained? || fate.Released?
  }

  ghost predicate CommitOk(commits: seq<RecoverySessions.Commit>, invocations: seq<Invocation>, confirmed: set<nat>,
                           c: nat)
    requires c < |commits|
  {
    if TakenOver(commits[c].fate) then
      && commits[c].fate.writer < |invocations|
      && invocations[commits[c].fate.writer].handoff == Some(Handoff(c, commits[c].scope))
      && (commits[c].fate.Released? ==> c in confirmed)
    else c !in confirmed
  }

  ghost predicate HandoffOk(commits: seq<RecoverySessions.Commit>, invocations: seq<Invocation>, i: nat)
    requires i < |invocations| && invocations[i].handoff.Some?
  {
    var h := invocations[i].handoff.value;
    h.id < |commits| && commits[h.id].scope == h.scope && TakenOver(commits[h.id].fate)
      && commits[h.id].fate.writer == i
  }

  /** The transactions taken over are exactly the handoffs the writers hold. */
  ghost predicate CommitsOk(commits: seq<RecoverySessions.Commit>, invocations: seq<Invocation>, confirmed: set<nat>) {
    && (forall c :: 0 <= c < |commits| ==> CommitOk(commits, invocations, confirmed, c))
    && (forall i :: 0 <= i < |invocations| && invocations[i].handoff.Some? ==> HandoffOk(commits, invocations, i))
    && (forall c :: c in confirmed ==> c < |commits|)
  }

  /** The commit was sent, and nothing has proved what became of it. */
  ghost predicate Unknown(commits: seq<RecoverySessions.Commit>, confirmed: set<nat>, c: nat) {
    c < |commits| && !commits[c].fate.Acknowledged? && c !in confirmed
  }

  ghost predicate NoneRefused(before: seq<RecoverySessions.Commit>, after: seq<RecoverySessions.Commit>) {
    forall c :: 0 <= c < |after| && after[c].fate.Refused? ==> c < |before| && before[c].fate.Refused?
  }

  ghost predicate Unattended(commits: seq<RecoverySessions.Commit>, c: nat) {
    c < |commits| && (commits[c].fate.InFlight? || commits[c].fate.Refused?)
  }

  lemma KeptHandoffs(commits: seq<RecoverySessions.Commit>, before: seq<Invocation>, after: seq<Invocation>,
                     confirmed: set<nat>)
    requires CommitsOk(commits, before, confirmed) && HandoffsKept(before, after)
    ensures CommitsOk(commits, after, confirmed)
  {
    forall c | 0 <= c < |commits| ensures CommitOk(commits, after, confirmed, c) {
      assert CommitOk(commits, before, confirmed, c);
    }
    forall i | 0 <= i < |after| && after[i].handoff.Some? ensures HandoffOk(commits, after, i) {
      assert HandoffOk(commits, before, i);
    }
  }

  /** Proving the outcome of tickets' handoffs proves outcomes of retained commits. */
  lemma ProvedCommits(commits: seq<RecoverySessions.Commit>, bridgeInvocations: seq<Invocation>, active: Option<nat>,
                      queued: seq<nat>, tickets: seq<Ticket>, before: set<nat>, after: set<nat>)
    requires CommitsOk(commits, bridgeInvocations, before)
             && TicketsOk(active, bridgeInvocations, before, queued, tickets)
    requires ProvesAtMost(before, after, tickets)
    ensures CommitsOk(commits, bridgeInvocations, after)
  {
    forall c | c in after && c !in before ensures c < |commits| && TakenOver(commits[c].fate) {
      var t :| 0 <= t < |tickets| && tickets[t].handoff.id == c;
      assert TicketOk(active, bridgeInvocations, before, queued, tickets[t], t);
      assert HandoffOk(commits, bridgeInvocations, tickets[t].invocation);
    }
    forall c | 0 <= c < |commits| ensures CommitOk(commits, bridgeInvocations, after, c) {
      assert CommitOk(commits, bridgeInvocations, before, c);
    }
  }

  /** A commit was sent, or settled without anybody taking it over. */
  lemma ElsewhereCommits(before: seq<RecoverySessions.Commit>, after: seq<RecoverySessions.Commit>,
                         invocations: seq<Invocation>,
                         confirmed: set<nat>)
    requires CommitsOk(before, invocations, confirmed) && |before| <= |after|
    requires forall c :: 0 <= c < |after| ==> (c < |before| && after[c] == before[c]) || !TakenOver(after[c].fate)
    requires forall c :: 0 <= c < |before| ==> after[c] == before[c] || !TakenOver(before[c].fate)
    ensures CommitsOk(after, invocations, confirmed)
  {
    forall c | 0 <= c < |after| ensures CommitOk(after, invocations, confirmed, c) {
      if c < |before| { assert CommitOk(before, invocations, confirmed, c); }
    }
    forall i | 0 <= i < |invocations| && invocations[i].handoff.Some? ensures HandoffOk(after, invocations, i) {
      assert HandoffOk(before, invocations, i);
    }
  }

  lemma TakenCommit(commits: seq<RecoverySessions.Commit>, before: seq<Invocation>, after: seq<Invocation>,
                    confirmed: set<nat>, c: nat, i: nat)
    requires CommitsOk(commits, before, confirmed) && c < |commits| && commits[c].fate.Refused?
    requires i < |before| && before[i].handoff.None?
             && after == before[i := before[i].(handoff := Some(Handoff(c, commits[c].scope)))]
    ensures CommitsOk(commits[c := commits[c].(fate := Retained(i))], after, confirmed)
  {
    var now := commits[c := commits[c].(fate := Retained(i))];
    forall d | 0 <= d < |now| ensures CommitOk(now, after, confirmed, d) {
      assert CommitOk(commits, before, confirmed, d);
    }
    forall k | 0 <= k < |after| && after[k].handoff.Some? ensures HandoffOk(now, after, k) {
      if k != i { assert HandoffOk(commits, before, k); }
    }
  }

  lemma ReleasedCommit(commits: seq<RecoverySessions.Commit>, invocations: seq<Invocation>, confirmed: set<nat>, c: nat)
    requires CommitsOk(commits, invocations, confirmed) && c < |commits| && commits[c].fate.Retained? && c in confirmed
    ensures CommitsOk(commits[c := RecoverySessions.Commit(commits[c].scope, Released(commits[c].fate.writer), false)],
                      invocations, confirmed)
  {
    var now := commits[c := RecoverySessions.Commit(commits[c].scope, Released(commits[c].fate.writer), false)];
    forall d | 0 <= d < |now| ensures CommitOk(now, invocations, confirmed, d) {
      assert CommitOk(commits, invocations, confirmed, d);
    }
    forall i | 0 <= i < |invocations| && invocations[i].handoff.Some? ensures HandoffOk(now, invocations, i) {
      assert HandoffOk(commits, invocations, i);
    }
  }

  /** With no lease held, a commit's outcome is unproved exactly if the commit is
      still in flight or its transaction was refused. */
  lemma DrainedOutcomes(commits: seq<RecoverySessions.Commit>, scopeOf: map<nat, nat>, invocations: seq<Invocation>,
                        confirmed: set<nat>)
    requires CommitsOk(commits, invocations, confirmed) && InvocationsOk(scopeOf, None, confirmed, invocations)
    ensures forall c: nat :: Unknown(commits, confirmed, c) <==> Unattended(commits, c)
  {
    forall c: nat | c < |commits| ensures Unknown(commits, confirmed, c) <==> Unattended(commits, c) {
      assert CommitOk(commits, invocations, confirmed, c);
      if TakenOver(commits[c].fate) {
        var w := commits[c].fate.writer;
        assert InvocationOk(scopeOf, None, confirmed, invocations[w], w);
      }
    }
  }

  // ------------------------------------------------------------------------- the system

  datatype Event =
    | BindOwner
    | BindScope(context: nat, scope: nat)
    | CloseScope(scope: nat)
    | BeginWriter(context: nat)
    | BeginTransaction(scope: nat)
    | SendCommit(scope: nat)
    | CommitResolves(scope: nat)
    | CommitRejects(scope: nat, ended: bool, budget: bool)
    | DiscardTransaction(scope: nat, terminates: bool)
    | FinishWriter(context: nat)
    | Pause(context: nat, fault: PauseFault)
    | Microtask(f: Foreign)
    | Timer(f: Foreign)
    | OriginalDone(original: CommitAnswer, f: Foreign)
    | ReadDone(read: ReadAnswer, f: Foreign)
    | ConfirmationDone(inTransaction: bool, endThrows: bool, published: bool, f: Foreign)

  predicate Confirms(e: Event) {
    e.Microtask? || e.Timer? || e.OriginalDone? || e.ReadDone? || e.ConfirmationDone?
  }

  predicate Transacts(e: Event) {
    e.BeginTransaction? || e.SendCommit? || e.CommitResolves? || e.CommitRejects? || e.DiscardTransaction?
  }

  class System {
    const scopes: OperationBridge
    const adapter: Adapter
    const bridge: Bridge
    const scheduler: Scheduler
    var wakes: nat                // queued microtasks
    ghost var handled: seq<Event> // every event so far

    ghost predicate Valid()
      reads this, scopes, adapter, bridge, scheduler
    {
      && bridge.scopes == scopes && scheduler.bridge == bridge
      && scheduler.Valid() && adapter.Valid()
      && CommitsOk(adapter.commits, bridge.invocations, bridge.confirmed)
      && (scheduler.state.Idle? && bridge.queued != [] ==> wakes > 0)
    }

    constructor ()
      ensures Valid() && fresh(scopes) && fresh(bridge) && fresh(scheduler) && fresh(adapter)
      ensures bridge.active.None? && !bridge.ownerBound && bridge.invocations == [] && bridge.confirmed == {}
      ensures bridge.tickets == [] && bridge.queued == [] && scheduler.state.Idle? && scheduler.lastNowMs.None?
      ensures scopes.scopeOf == map[] && scopes.admissionOf == map[] && scopes.retired == {}
      ensures adapter.transactions == map[] && adapter.handedOff == {} && adapter.commits == []
              && adapter.inFlight == {} && wakes == 0 && handled == []
    {
      var operations := new OperationBridge();
      var retained := new Bridge(operations);
      var driver := new Scheduler(retained);
      var persistence := new Adapter();
      scopes, bridge, scheduler, adapter := operations, retained, driver, persistence;
      wakes, handled := 0, [];
    }

    /** RuntimeControl can report DRAINED only when no persistence lease is held. */
    predicate Drainable()
      reads bridge
    {
      bridge.active.None?
    }

    /** When a rejected commit's transaction is taken over: its budget can start a
        confirmation, no transaction of its scope was offered before, and the bridge's
        own guards. */
    ghost predicate TakesOver(scope: nat, budget: bool)
      requires Valid()
      reads this, scopes, adapter, bridge, scheduler
    {
      budget && scope !in adapter.handedOff && bridge.Accepts(scope)
    }

    // ------------------------------------------------------------------ writer events

    method BindOwner()
      requires Valid()
      modifies bridge`ownerBound, `handled
      ensures handled == old(handled) + [Event.BindOwner]
      ensures Valid() && bridge.ownerBound == (old(bridge.ownerBound) || bridge.active.None?)
    {
      handled := handled + [Event.BindOwner];
      var _ := bridge.BindRecoveryOwner();
    }

    method BindScope(context: nat, scope: nat)
      requires Valid()
      modifies scopes`scopeOf, scopes`admissionOf, `handled
      ensures handled == old(handled) + [Event.BindScope(context, scope)]
      ensures Valid()
      ensures var ok := context !in old(scopes.scopeOf) && scope !in old(scopes.admissionOf)
              && scope !in scopes.retired;
              && scopes.scopeOf == (if ok then old(scopes.scopeOf)[context := scope] else old(scopes.scopeOf))
              && scopes.admissionOf ==
                 (if ok then old(scopes.admissionOf)[scope := context] else old(scopes.admissionOf))
    {
      handled := handled + [Event.BindScope(context, scope)];
      ghost var before := scopes.scopeOf;
      var _ := scopes.Bind(context, scope);
      ScopesGrow(before, scopes.scopeOf, bridge.active, bridge.confirmed, bridge.invocations);
    }

    method CloseScope(scope: nat)
      requires Valid()
      modifies scopes`retired, `handled
      ensures handled == old(handled) + [Event.CloseScope(scope)]
      ensures Valid() && scopes.retired == old(scopes.retired) + {scope}
    {
      handled := handled + [Event.CloseScope(scope)];
      scopes.Retire(scope);
    }

    method BeginWriter(context: nat)
      requires Valid()
      modifies bridge`active, bridge`invocations, `handled
      ensures handled == old(handled) + [Event.BeginWriter(context)]
      ensures Valid()
      ensures Drainable() ==> old(Drainable())
      ensures old(bridge.active).None? && bridge.ownerBound ==>
                bridge.active == Some(|old(bridge.invocations)|)
                && bridge.invocations == old(bridge.invocations) + [Invocation(context, None, false, false, false)]
      ensures !(old(bridge.active).None? && bridge.ownerBound) ==>
                bridge.active == old(bridge.active) && bridge.invocations == old(bridge.invocations)
    {
      handled := handled + [Event.BeginWriter(context)];
      ghost var before := bridge.invocations;
      var _ := bridge.BeginIssuedPersistence(context);
      KeptHandoffs(adapter.commits, before, bridge.invocations, bridge.confirmed);
    }

    method FinishWriter(context: nat)
      requires Valid()
      modifies bridge`active, bridge`invocations, `handled
      ensures handled == old(handled) + [Event.FinishWriter(context)]
      ensures Valid()
      ensures (old(bridge.active).Some? && old(bridge.invocations)[old(bridge.active).value] ==
               Invocation(context, None, false, false, false)) ==>
                Drainable()
      ensures if old(bridge.active).Some? && old(bridge.invocations)[old(bridge.active).value].context == context
                 && !old(bridge.invocations)[old(bridge.active).value].finished
              then
                var inv := old(bridge.invocations)[old(bridge.active).value];
                && bridge.active == (if inv.handoff.None? then None else old(bridge.active))
                && bridge.invocations == old(bridge.invocations)[old(bridge.active).value :=
                     inv.(finished := true, leaseReleased := inv.leaseReleased || inv.handoff.None?)]
              else bridge.active == old(bridge.active) && bridge.invocations == old(bridge.invocations)
    {
      handled := handled + [Event.FinishWriter(context)];
      ghost var before := bridge.invocations;
      var _ := bridge.FinishIssuedPersistence(context);
      KeptHandoffs(adapter.commits, before, bridge.invocations, bridge.confirmed);
    }

    /** The context's finished writer holds a handoff and is not paused yet. */
    predicate Pausable(context: nat)
      reads bridge
    {
      && bridge.ownerBound && bridge.active.Some? && bridge.active.value < |bridge.invocations|
      && var inv := bridge.invocations[bridge.active.value];
         inv.context == context && inv.handoff.Some? && inv.finished && !inv.paused
    }

    method Pause(context: nat, fault: PauseFault)
      requires Valid()
      modifies this, bridge`invocations, bridge`tickets, bridge`queued
      ensures handled == old(handled) + [Event.Pause(context, fault)]
      ensures Valid() && bridge.active == old(bridge.active)
      ensures HandoffsKept(old(bridge.invocations), bridge.invocations)
      ensures old(Pausable(context)) && fault.NoFault? ==>
                && wakes == old(wakes) + 1
                && bridge.queued == old(bridge.queued) + [|old(bridge.tickets)|]
                && |bridge.tickets| == |old(bridge.tickets)| + 1 && old(bridge.tickets) <= bridge.tickets
      ensures !(old(Pausable(context)) && fault.NoFault?) ==>
                && wakes == old(wakes) && bridge.queued == old(bridge.queued) && bridge.tickets == old(bridge.tickets)
                && bridge.invocations == old(bridge.invocations)
    {
      handled := handled + [Event.Pause(context, fault)];
      ghost var before := bridge.invocations;
      var answer := bridge.PausePostCommitUnknown(context, fault);
      if answer.Paused? { wakes := wakes + 1; }
      KeptHandoffs(adapter.commits, before, bridge.invocations, bridge.confirmed);
    }

    // ------------------------------------------------------------- transaction events

    method BeginTransaction(scope: nat)
      requires Valid()
      modifies adapter`transactions, `handled
      ensures handled == old(handled) + [Event.BeginTransaction(scope)]
      ensures Valid()
      ensures adapter.transactions ==
                if scopes.LiveBinding(scope) && scope !in old(adapter.transactions)
                then old(adapter.transactions)[scope := Session(true, None)] else old(adapter.transactions)
    {
      handled := handled + [Event.BeginTransaction(scope)];
      var _ := adapter.Begin(scope, scopes.LiveBinding(scope));
    }

    method SendCommit(scope: nat)
      requires Valid()
      modifies adapter`transactions, adapter`inFlight, adapter`sent, adapter`commits, `handled
      ensures handled == old(handled) + [Event.SendCommit(scope)]
      ensures Valid() && NoneRefused(old(adapter.commits), adapter.commits)
      ensures scope in old(adapter.transactions) && old(adapter.transactions)[scope] == Session(true, None) ==>
                && adapter.commits == old(adapter.commits) + [RecoverySessions.Commit(scope, InFlight, true)]
                && adapter.inFlight == old(adapter.inFlight) + {scope}
                && adapter.transactions ==
                   old(adapter.transactions)[scope := Session(false, Some(|old(adapter.commits)|))]
      ensures !(scope in old(adapter.transactions) && old(adapter.transactions)[scope] == Session(true, None)) ==>
                adapter.commits == old(adapter.commits) && adapter.transactions == old(adapter.transactions)
    {
      handled := handled + [Event.SendCommit(scope)];
      ghost var before := adapter.commits;
      var _ := adapter.SendCommit(scope);
      ElsewhereCommits(before, adapter.commits, bridge.invocations, bridge.confirmed);
    }

    method CommitResolves(scope: nat)
      requires Valid()
      modifies adapter`transactions, adapter`inFlight, adapter`commits, `handled
      ensures handled == old(handled) + [Event.CommitResolves(scope)]
      ensures Valid() && NoneRefused(old(adapter.commits), adapter.commits)
      ensures adapter.inFlight == old(adapter.inFlight) - {scope}
      ensures scope in old(adapter.inFlight) ==>
                var c := old(adapter.transactions)[scope].commit.value;
                && c < |old(adapter.commits)|
                && adapter.commits == old(adapter.commits)[c := RecoverySessions.Commit(scope, Acknowledged, false)]
                && adapter.transactions == old(adapter.transactions) - {scope}
      ensures scope !in old(adapter.inFlight) ==>
                adapter.commits == old(adapter.commits) && adapter.transactions == old(adapter.transactions)
    {
      handled := handled + [Event.CommitResolves(scope)];
      ghost var before := adapter.commits;
      if scope in adapter.inFlight { adapter.Acknowledge(scope); }
      ElsewhereCommits(before, adapter.commits, bridge.invocations, bridge.confirmed);
    }

    /** The only way a commit becomes refused: its reply failed, and one of the
        guards of the takeover did. */
    method CommitRejects(scope: nat, ended: bool, budget: bool)
      requires Valid()
      modifies adapter`transactions, adapter`handedOff, adapter`inFlight, adapter`commits, bridge`invocations, `handled
      ensures handled == old(handled) + [Event.CommitRejects(scope, ended, budget)]
      ensures Valid()
      ensures scope !in old(adapter.inFlight) ==> adapter.commits == old(adapter.commits)
                                                  && bridge.invocations == old(bridge.invocations)
      ensures scope in old(adapter.inFlight) ==>
                var c := old(adapter.transactions)[scope].commit.value;
                && c < |old(adapter.commits)|
                && adapter.commits == old(adapter.commits)[c := RecoverySessions.Commit(scope,
                     if old(TakesOver(scope, budget)) then Retained(bridge.active.value) else Refused, !ended)]
                && (!old(TakesOver(scope, budget)) ==> bridge.invocations == old(bridge.invocations))
                && (old(TakesOver(scope, budget)) ==>
                      var i := bridge.active.value;
                      i < |old(bridge.invocations)|
                      && bridge.invocations ==
                         old(bridge.invocations)[i := old(bridge.invocations)[i].(handoff := Some(Handoff(c, scope)))])
    {
      handled := handled + [Event.CommitRejects(scope, ended, budget)];
      if scope !in adapter.inFlight { return; }
      ghost var before, invocations := adapter.commits, bridge.invocations;
      var handoff, offers := adapter.Reject(scope, ended, budget);
      ElsewhereCommits(before, adapter.commits, invocations, bridge.confirmed);
      if offers { Offer(scope, handoff); }
    }

    /** The adapter offers a refused commit's transaction, and the bridge takes it or not. */
    method Offer(scope: nat, handoff: nat)
      requires Valid() && handoff < |adapter.commits|
      requires adapter.commits[handoff].fate.Refused? && adapter.commits[handoff].scope == scope
      modifies adapter`commits, bridge`invocations
      ensures Valid()
      ensures if !old(bridge.Accepts(scope))
              then adapter.commits == old(adapter.commits) && bridge.invocations == old(bridge.invocations)
              else
                var i := bridge.active.value;
                && i < |old(bridge.invocations)|
                && adapter.commits ==
                   old(adapter.commits)[handoff := old(adapter.commits)[handoff].(fate := Retained(i))]
                && bridge.invocations == old(bridge.invocations)[i :=
                     old(bridge.invocations)[i].(handoff := Some(Handoff(handoff, scope)))]
    {
      ghost var invocations := bridge.invocations;
      var taken := bridge.ObserveRetained(Handoff(handoff, scope));
      if taken {
        TakenCommit(adapter.commits, invocations, bridge.invocations, bridge.confirmed, handoff, bridge.active.value);
        adapter.Take(handoff, bridge.active.value);
      }
    }

    method DiscardTransaction(scope: nat, terminates: bool)
      requires Valid()
      modifies adapter`transactions, `handled
      ensures handled == old(handled) + [Event.DiscardTransaction(scope, terminates)]
      ensures Valid()
      ensures adapter.transactions ==
                if scope in old(adapter.transactions) && old(adapter.transactions)[scope] == Session(true, None)
                   && terminates
                then old(adapter.transactions) - {scope} else old(adapter.transactions)
    {
      handled := handled + [Event.DiscardTransaction(scope, terminates)];
      adapter.Discard(scope, terminates);
    }

    // --------------------------------------------------------------- scheduler events

    method Microtask(f: Foreign)
      requires Valid()
      modifies this, scheduler, bridge`tickets, bridge`queued
      ensures handled == old(handled) + [Event.Microtask(f)]
      ensures Valid() && (old(scheduler.state).FailedClosed? ==> scheduler.state.FailedClosed?)
      ensures wakes == if old(wakes) > 0 then old(wakes) - 1 else 0
      ensures old(wakes) > 0 && old(scheduler.state).Idle? ==>
                && (scheduler.state.FailedClosed? <==>
                      !Trusted(old(scheduler.lastNowMs), f.clock) || (old(bridge.queued) != [] && !f.starts))
                && (!scheduler.state.FailedClosed? ==>
                      if old(bridge.queued) == [] then scheduler.state.Idle?
                      else scheduler.awaiting.TheCommit? && scheduler.terminal == Some(old(bridge.queued)[0]))
      ensures old(wakes) == 0 || !old(scheduler.state).Idle? ==>
                && scheduler.state == old(scheduler.state) && scheduler.awaiting == old(scheduler.awaiting)
                && scheduler.terminal == old(scheduler.terminal) && bridge.queued == old(bridge.queued)
      ensures scheduler.lastNowMs == old(scheduler.lastNowMs)
              || (f.clock.ClockMs? && scheduler.lastNowMs == Some(f.clock.ms))
    {
      handled := handled + [Event.Microtask(f)];
      if wakes > 0 {
        wakes := wakes - 1;
        scheduler.Wake(f);
      }
    }

    method Timer(f: Foreign)
      requires Valid()
      modifies scheduler, bridge`tickets, bridge`queued, `handled
      ensures handled == old(handled) + [Event.Timer(f)]
      ensures Valid() && (old(scheduler.state).FailedClosed? ==> scheduler.state.FailedClosed?)
      ensures old(scheduler.timerArmed) ==>
                if Trusted(old(scheduler.lastNowMs), f.clock) && f.starts
                then scheduler.awaiting == if old(scheduler.state).OriginalCommit? then TheCommit else TheRead
                else scheduler.state.FailedClosed?
      ensures !old(scheduler.timerArmed) ==>
                scheduler.state == old(scheduler.state) && scheduler.awaiting == old(scheduler.awaiting)
    {
      handled := handled + [Event.Timer(f)];
      if scheduler.timerArmed { scheduler.TimerFires(f); }
    }

    method OriginalDone(original: CommitAnswer, f: Foreign)
      requires Valid()
      modifies scheduler, bridge`tickets, bridge`confirmed, `handled
      ensures handled == old(handled) + [Event.OriginalDone(original, f)]
      ensures Valid() && (old(scheduler.state).FailedClosed? ==> scheduler.state.FailedClosed?)
      ensures old(scheduler.awaiting).TheCommit? && original.CommitConfirmed? && f.current && f.settles && f.cleaner ==>
                && scheduler.awaiting.TheConfirmation? && scheduler.terminal == old(scheduler.terminal)
                && scheduler.terminal.value < |bridge.tickets|
                && bridge.tickets[scheduler.terminal.value].handoff.id in bridge.confirmed
      ensures old(scheduler.awaiting).TheCommit? ==>
                && (scheduler.awaiting.TheConfirmation? <==>
                      original.CommitConfirmed? && f.current && f.settles && f.cleaner)
                && (scheduler.timerArmed <==>
                      original.NotConfirmed? && Trusted(old(scheduler.lastNowMs), f.clock) && f.timerArms)
                && (scheduler.state.FailedClosed? <==> !scheduler.awaiting.TheConfirmation? && !scheduler.timerArmed)
      ensures !old(scheduler.awaiting).TheCommit? ==>
                && scheduler.state == old(scheduler.state) && scheduler.awaiting == old(scheduler.awaiting)
                && scheduler.timerArmed == old(scheduler.timerArmed) && bridge.confirmed == old(bridge.confirmed)
      ensures scheduler.lastNowMs == old(scheduler.lastNowMs)
              || (f.clock.ClockMs? && scheduler.lastNowMs == Some(f.clock.ms))
    {
      handled := handled + [Event.OriginalDone(original, f)];
      ghost var before, tickets, queued := bridge.confirmed, bridge.tickets, bridge.queued;
      if scheduler.awaiting.TheCommit? {
        scheduler.CommitReturns(original, f);
        ProvedCommits(adapter.commits, bridge.invocations, bridge.active, queued, tickets, before, bridge.confirmed);
      }
    }

    method ReadDone(read: ReadAnswer, f: Foreign)
      requires Valid()
      modifies scheduler, bridge`tickets, bridge`confirmed, `handled
      ensures handled == old(handled) + [Event.ReadDone(read, f)]
      ensures Valid() && (old(scheduler.state).FailedClosed? ==> scheduler.state.FailedClosed?)
      ensures old(scheduler.awaiting).TheRead? && read.Matched? && f.current && f.settles && f.cleaner ==>
                && scheduler.awaiting.TheConfirmation? && scheduler.terminal == old(scheduler.terminal)
                && scheduler.terminal.value < |bridge.tickets|
                && bridge.tickets[scheduler.terminal.value].handoff.id in bridge.confirmed
      ensures old(scheduler.awaiting).TheRead? ==>
                && (scheduler.awaiting.TheConfirmation? <==> read.Matched? && f.current && f.settles && f.cleaner)
                && (scheduler.timerArmed <==>
                      read.StillUnknown? && Trusted(old(scheduler.lastNowMs), f.clock) && f.timerArms)
                && (scheduler.state.FailedClosed? <==> !scheduler.awaiting.TheConfirmation? && !scheduler.timerArmed)
      ensures !old(scheduler.awaiting).TheRead? ==>
                && scheduler.state == old(scheduler.state) && scheduler.awaiting == old(scheduler.awaiting)
                && scheduler.timerArmed == old(scheduler.timerArmed) && bridge.confirmed == old(bridge.confirmed)
    {
      handled := handled + [Event.ReadDone(read, f)];
      ghost var before, tickets, queued := bridge.confirmed, bridge.tickets, bridge.queued;
      if scheduler.awaiting.TheRead? {
        scheduler.ReadReturns(read, f);
        ProvedCommits(adapter.commits, bridge.invocations, bridge.active, queued, tickets, before, bridge.confirmed);
      }
    }

    /** The cleaner ends the retained session of the very transaction; the lease goes
        back only if that succeeded and the outcome was published. */
    method ConfirmationDone(inTransaction: bool, endThrows: bool, published: bool, f: Foreign)
      requires Valid()
      modifies scheduler, adapter`transactions, adapter`commits, bridge`active, bridge`invocations, bridge`tickets,
               bridge`queued, `handled
      ensures handled == old(handled) + [Event.ConfirmationDone(inTransaction, endThrows, published, f)]
      ensures Valid() && (old(scheduler.state).FailedClosed? ==> scheduler.state.FailedClosed?)
      ensures NoneRefused(old(adapter.commits), adapter.commits)
      ensures Drainable() && !old(Drainable()) ==> published && !inTransaction && !endThrows && old(scheduler.proved)
      ensures old(scheduler.awaiting).TheConfirmation? && (inTransaction || endThrows || !published) ==>
                scheduler.state.FailedClosed? && !Drainable()
      ensures old(scheduler.awaiting).TheConfirmation? ==>
                var h := old(bridge.tickets)[old(scheduler.terminal).value].handoff.id;
                && h < |old(adapter.commits)|
                && (Drainable() <==> old(adapter.commits)[h].held && !inTransaction && !endThrows && published)
                && (Drainable() ==> (scheduler.state.Idle? <==> Trusted(old(scheduler.lastNowMs), f.clock)))
                && adapter.commits ==
                   if old(adapter.commits)[h].held && !inTransaction && old(adapter.commits)[h].fate.Retained?
                   then old(adapter.commits)[h := RecoverySessions.Commit(
                          old(adapter.commits)[h].scope, Released(old(adapter.commits)[h].fate.writer), false)]
                   else old(adapter.commits)
      ensures !old(scheduler.awaiting).TheConfirmation? ==>
                && bridge.active == old(bridge.active) && adapter.commits == old(adapter.commits)
                && scheduler.state == old(scheduler.state)
    {
      handled := handled + [Event.ConfirmationDone(inTransaction, endThrows, published, f)];
      if !scheduler.awaiting.TheConfirmation? { return; }
      ghost var invocations := bridge.invocations;
      var cleaned := EndRetained(inTransaction, endThrows);
      scheduler.ConfirmationReturns(cleaned, published, f);
      KeptHandoffs(adapter.commits, invocations, bridge.invocations, bridge.confirmed);
    }

    /** The cleaner of the ticket whose confirmation is awaited. */
    method EndRetained(inTransaction: bool, endThrows: bool) returns (cleaned: bool)
      requires Valid() && scheduler.awaiting.TheConfirmation?
      modifies adapter`transactions, adapter`commits
      ensures Valid() && NoneRefused(old(adapter.commits), adapter.commits)
      ensures var h := bridge.tickets[scheduler.terminal.value].handoff.id;
              && h < |old(adapter.commits)|
              && cleaned == (old(adapter.commits)[h].held && !inTransaction && !endThrows)
              && adapter.commits ==
                 if old(adapter.commits)[h].held && !inTransaction && old(adapter.commits)[h].fate.Retained?
                 then old(adapter.commits)[h := RecoverySessions.Commit(
                        old(adapter.commits)[h].scope, Released(old(adapter.commits)[h].fate.writer), false)]
                 else old(adapter.commits)
    {
      var t := scheduler.terminal.value;
      var handoff := bridge.tickets[t].handoff;
      assert TicketOk(bridge.active, bridge.invocations, bridge.confirmed, bridge.queued, bridge.tickets[t], t);
      assert HandoffOk(adapter.commits, bridge.invocations, bridge.tickets[t].invocation);
      if adapter.commits[handoff.id].fate.Retained? {
        ReleasedCommit(adapter.commits, bridge.invocations, bridge.confirmed, handoff.id);
      }
      cleaned := adapter.ReleaseConfirmed(handoff.scope, handoff.id, inTransaction, endThrows);
    }

    // ----------------------------------------------------------------------- one event

    /** One event, in any state; one that cannot occur now changes nothing. Only a
        proved, cleaned and published outcome, or a writer that ends without a
        retained transaction, ever makes the system drainable; and a commit is
        refused exactly when its rejection meets a failing guard. */
    method Step(e: Event)
      requires Valid()
      modifies this, scopes, bridge, scheduler, adapter
      ensures Valid() && handled == old(handled) + [e]
      ensures old(scheduler.state).FailedClosed? ==> scheduler.state.FailedClosed?
      ensures Drainable() && !old(Drainable()) ==>
                || e.FinishWriter?
                || (e.ConfirmationDone? && !e.inTransaction && !e.endThrows && e.published && old(scheduler.proved))
      ensures NoneRefused(old(adapter.commits), adapter.commits)
              || (e.CommitRejects? && !old(TakesOver(e.scope, e.budget)))
      ensures e.CommitRejects? && e.scope in old(adapter.inFlight) && !old(TakesOver(e.scope, e.budget)) ==>
                var c := old(adapter.transactions)[e.scope].commit.value;
                c < |adapter.commits| && adapter.commits[c].fate.Refused? && adapter.commits[c].scope == e.scope
    {
      if Confirms(e) {
        Confirm(e);
      } else if Transacts(e) {
        Transact(e);
      } else {
        Write(e);
      }
    }

    /** Events of the writer's side. */
    method Write(e: Event)
      requires Valid() && !Confirms(e) && !Transacts(e)
      modifies this, scopes, bridge
      ensures handled == old(handled) + [e]
      ensures Valid() && scheduler.state == old(scheduler.state)
      ensures Drainable() && !old(Drainable()) ==> e.FinishWriter?
    {
      match e
      case BindOwner => BindOwner();
      case BindScope(context, scope) => BindScope(context, scope);
      case CloseScope(scope) => CloseScope(scope);
      case BeginWriter(context) => BeginWriter(context);
      case FinishWriter(context) => FinishWriter(context);
      case Pause(context, fault) => Pause(context, fault);
    }

    /** Events of the adapter's side. */
    method Transact(e: Event)
      requires Valid() && Transacts(e)
      modifies adapter, bridge`invocations, `handled
      ensures Valid() && handled == old(handled) + [e]
      ensures NoneRefused(old(adapter.commits), adapter.commits)
              || (e.CommitRejects? && !old(TakesOver(e.scope, e.budget)))
      ensures e.CommitRejects? && e.scope in old(adapter.inFlight) && !old(TakesOver(e.scope, e.budget)) ==>
                var c := old(adapter.transactions)[e.scope].commit.value;
                c < |adapter.commits| && adapter.commits[c].fate.Refused? && adapter.commits[c].scope == e.scope
    {
      match e
      case BeginTransaction(scope) => BeginTransaction(scope);
      case SendCommit(scope) => SendCommit(scope);
      case CommitResolves(scope) => CommitResolves(scope);
      case CommitRejects(scope, ended, budget) => CommitRejects(scope, ended, budget);
      case DiscardTransaction(scope, terminates) => DiscardTransaction(scope, terminates);
    }

    /** Events of the scheduler's side. */
    method Confirm(e: Event)
      requires Valid() && Confirms(e)
      modifies this, bridge, scheduler, adapter
      ensures handled == old(handled) + [e]
      ensures Valid() && NoneRefused(old(adapter.commits), adapter.commits)
      ensures old(scheduler.state).FailedClosed? ==> scheduler.state.FailedClosed?
      ensures Drainable() && !old(Drainable()) ==>
                e.ConfirmationDone? && !e.inTransaction && !e.endThrows && e.published && old(scheduler.proved)
    {
      match e
      case Microtask(f) => Microtask(f);
      case Timer(f) => Timer(f);
      case OriginalDone(original, f) => OriginalDone(original, f);
      case ReadDone(read, f) => ReadDone(read, f);
      case ConfirmationDone(inTransaction, endThrows, published,
                            f) => ConfirmationDone(inTransaction, endThrows, published, f);
    }
  }

  /** Every run of the system: at its end, and so at every point of it, at most one
      lease is held; every session a sent commit still needs is kept; and once no
      lease is held, a commit is unproved exactly if it is still in flight or its
      transaction was refused. */
  method RunSystem(events: seq<Event>) returns (system: System)
    ensures fresh(system) && system.Valid() && system.handled == events
    ensures var invocations := system.bridge.invocations;
            forall i, j | 0 <= i < |invocations| && 0 <= j < |invocations| ::
              !invocations[i].leaseReleased && !invocations[j].leaseReleased ==> i == j
    ensures forall c | 0 <= c < |system.adapter.commits| && system.adapter.commits[c].held ::
              Holding(system.adapter.transactions, system.adapter.commits, c)
    ensures system.Drainable() ==>
              forall c: nat :: Unknown(system.adapter.commits, system.bridge.confirmed, c) <==>
                                 Unattended(system.adapter.commits, c)
  {
    system := new System();
    var i := 0;
    while i < |events|
      invariant 0 <= i <= |events| && system.Valid() && system.handled == events[..i]
      invariant fresh(system) && fresh(system.scopes) && fresh(system.bridge) && fresh(system.scheduler)
                && fresh(system.adapter)
    {
      system.Step(events[i]);
      i := i + 1;
    }
    system.bridge.Guarantees();
    if system.Drainable() {
      DrainedOutcomes(system.adapter.commits, system.scopes.scopeOf, system.bridge.invocations,
                      system.bridge.confirmed);
    }
  }

  /** Writer 1 is active; scope 9 belongs to admission 2. */
  method ForeignScope() returns (system: System)
    ensures fresh(system) && fresh(system.adapter) && fresh(system.bridge) && system.Valid()
    ensures system.bridge.active == Some(0) && system.bridge.invocations == [Invocation(1, None, false, false, false)]
    ensures system.scopes.scopeOf == map[2 := 9] && system.scopes.LiveBinding(9)
    ensures system.adapter.inFlight == {} && system.adapter.transactions == map[] && system.adapter.commits == []
  {
    system := new System();
    system.BindOwner();
    system.BindScope(2, 9);
    system.BeginWriter(1);
  }

  /** The commit of that scope is out. */
  method ForeignCommit() returns (system: System)
    ensures fresh(system) && fresh(system.adapter) && fresh(system.bridge) && system.Valid()
    ensures system.bridge.active == Some(0) && system.bridge.invocations == [Invocation(1, None, false, false, false)]
    ensures system.scopes.scopeOf == map[2 := 9]
    ensures system.adapter.inFlight == {9} && 9 in system.adapter.transactions
            && system.adapter.transactions[9] == Session(false, Some(0))
    ensures system.adapter.commits == [RecoverySessions.Commit(9, InFlight, true)]
  {
    system := ForeignScope();
    system.BeginTransaction(9);
    system.SendCommit(9);
  }

  /** A run that drains on an unproved outcome: that commit is rejected, the bridge
      refuses the transaction of a scope that is not its writer's, and lets go. */
  method RefusedHandoffDrains() returns (system: System)
    ensures fresh(system) && system.Valid() && system.Drainable()
    ensures |system.adapter.commits| == 1 && system.adapter.commits[0].fate.Refused?
    ensures Unknown(system.adapter.commits, system.bridge.confirmed, 0)
  {
    system := ForeignCommit();
    system.CommitRejects(9, false, true);
    system.FinishWriter(1);
    assert CommitOk(system.adapter.commits, system.bridge.invocations, system.bridge.confirmed, 0);
  }

  // -------------------------------------------------------------- a run that succeeds

  const QUIET := Foreign(ClockMs(0), true, true, true, true, true)

  /** A writer of context 1 and scope 9 whose commit was sent and rejected; its
      transaction is taken over. */
  method OneTakenOver() returns (system: System)
    ensures fresh(system) && fresh(system.scopes) && fresh(system.adapter) && fresh(system.bridge)
    ensures fresh(system.scheduler) && system.Valid()
    ensures system.bridge.ownerBound && system.bridge.active == Some(0)
    ensures system.bridge.invocations == [Invocation(1, Some(Handoff(0, 9)), false, false, false)]
    ensures system.adapter.commits == [RecoverySessions.Commit(9, Retained(0), true)]
    ensures system.bridge.tickets == [] && system.bridge.queued == []
    ensures system.scheduler.state.Idle? && system.scheduler.lastNowMs.None?
  {
    system := OneInFlight();
    system.CommitRejects(9, false, true);
  }

  method OneBegun() returns (system: System)
    ensures fresh(system) && fresh(system.scopes) && fresh(system.adapter) && fresh(system.bridge)
    ensures fresh(system.scheduler) && system.Valid()
    ensures system.bridge.ownerBound && system.bridge.active == Some(0)
    ensures system.bridge.invocations == [Invocation(1, None, false, false, false)]
    ensures system.adapter.commits == [] && system.adapter.handedOff == {}
    ensures system.adapter.inFlight == {} && system.adapter.transactions == map[]
    ensures system.bridge.tickets == [] && system.bridge.queued == []
    ensures system.scopes.scopeOf == map[1 := 9] && system.scopes.LiveBinding(9) && system.scopes.retired == {}
    ensures system.scheduler.state.Idle? && system.scheduler.lastNowMs.None?
  {
    system := new System();
    system.BindOwner();
    system.BindScope(1, 9);
    system.BeginWriter(1);
  }

  method OneInFlight() returns (system: System)
    ensures fresh(system) && fresh(system.scopes) && fresh(system.adapter) && fresh(system.bridge)
    ensures fresh(system.scheduler) && system.Valid()
    ensures system.bridge.ownerBound && system.bridge.active == Some(0)
    ensures system.bridge.invocations == [Invocation(1, None, false, false, false)]
    ensures system.adapter.commits == [RecoverySessions.Commit(9, InFlight, true)] && system.adapter.handedOff == {}
    ensures 9 in system.adapter.inFlight
    ensures system.adapter.transactions == map[9 := Session(false, Some(0))]
    ensures system.bridge.tickets == [] && system.bridge.queued == []
    ensures system.scopes.scopeOf == map[1 := 9] && system.scopes.retired == {}
    ensures system.scheduler.state.Idle? && system.scheduler.lastNowMs.None?
  {
    system := OneBegun();
    system.BeginTransaction(9);
    system.SendCommit(9);
  }

  /** Its ticket is queued. */
  method OneQueued() returns (system: System)
    ensures fresh(system) && fresh(system.scopes) && fresh(system.adapter) && fresh(system.bridge)
    ensures fresh(system.scheduler) && system.Valid()
    ensures system.adapter.commits == [RecoverySessions.Commit(9, Retained(0), true)]
    ensures system.bridge.invocations != [] && system.bridge.active == Some(0)
    ensures system.bridge.invocations[0].handoff == Some(Handoff(0, 9))
    ensures system.bridge.queued == [0] && system.wakes > 0
    ensures system.scheduler.state.Idle? && system.scheduler.lastNowMs.None?
  {
    system := OneTakenOver();
    system.FinishWriter(1);
    system.Pause(1, NoFault);
  }

  /** Its confirmation is awaited, and its outcome proved. */
  method OneConfirming() returns (system: System)
    ensures fresh(system) && fresh(system.scopes) && fresh(system.adapter) && fresh(system.bridge)
    ensures fresh(system.scheduler) && system.Valid()
    ensures system.adapter.commits == [RecoverySessions.Commit(9, Retained(0), true)] && 0 in system.bridge.confirmed
    ensures system.scheduler.awaiting.TheConfirmation? && system.scheduler.terminal == Some(0)
    ensures system.bridge.tickets != [] && system.bridge.tickets[0].handoff == Handoff(0, 9)
    ensures Trusted(system.scheduler.lastNowMs, QUIET.clock)
  {
    system := OneQueued();
    system.Microtask(QUIET);
    system.OriginalDone(CommitConfirmed, QUIET);
    TicketHandoff(system.bridge.active, system.bridge.invocations, system.bridge.confirmed, system.bridge.queued,
                  system.bridge.tickets, 0);
  }

  lemma TicketHandoff(active: Option<nat>, invocations: seq<Invocation>, confirmed: set<nat>, queued: seq<nat>,
                      tickets: seq<Ticket>, t: nat)
    requires TicketsOk(active, invocations, confirmed, queued, tickets) && LiveIn(tickets, t)
    ensures active == Some(tickets[t].invocation) && tickets[t].invocation < |invocations|
    ensures invocations[tickets[t].invocation].handoff == Some(tickets[t].handoff)
  {
    assert TicketOk(active, invocations, confirmed, queued, tickets[t], t);
  }

  /** From a queued ticket, through the original sender's confirmation, the cleanup and
      the publication, to an idle and drainable system whose outcome is proved. */
  method ConfirmedDrains() returns (system: System)
    ensures fresh(system) && system.Valid() && system.Drainable() && system.scheduler.state.Idle?
    ensures |system.adapter.commits| == 1 && system.adapter.commits[0].fate.Released?
    ensures !Unknown(system.adapter.commits, system.bridge.confirmed, 0)
  {
    system := OneConfirming();
    system.ConfirmationDone(false, false, true, QUIET);
  }
}
