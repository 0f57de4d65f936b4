/** The owner of one HTTP response. Every call it makes into foreign code (response,
    clock, scheduler, renderer, release callback) may re-enter it with any events,
    and may throw; the adversary is a finite tree of such behaviours. */
module ResponseOwner {

  const DEADLINE_MS := 5000.0

  datatype State = Open | Claiming | Claimed | Closed

  datatype Kind = Respond | Deadline | Finish | Close

  /** An event, with the behaviour of the foreign calls made while it is handled. */
  datatype Trigger = Trigger(kind: Kind, calls: seq<Foreign>)

  /** One foreign call: the events it fires before it returns a number or throws. */
  datatype Foreign = Foreign(reentries: seq<Trigger>, outcome: Outcome)
  datatype Outcome = Threw | Returned(value: real)

  /** The owner's variables and what it has done to the outside. */
  datatype View = View(
    state: State,
    timerArmed: bool,
    listenersBound: bool,
    released: bool,
    ended: nat,          // calls of response.end
    releases: nat,       // calls of releaseHttp
    delays: seq<real>)   // delays handed to the scheduler

  predicate Sound(v: View) {
    && v.ended <= 1
    && v.releases == (if v.released then 1 else 0)
    && (v.state.Open? || v.state.Claiming? ==> !v.released && v.ended == 0)
    && (v.state.Claimed? ==> !v.released)
  }

  /** A closed owner at rest: released exactly once, nothing armed or bound. */
  predicate Settled(v: View) {
    v.state.Closed? && v.released && v.releases == 1 && v.ended <= 1 && !v.timerArmed && !v.listenersBound
  }

  /** What any re-entrant activity can do: only an open owner can be moved, and then
      it ends settled. */
  predicate MayBecome(before: View, after: View) {
    after == before || (before.state.Open? && Settled(after) && after.delays == before.delays)
  }

  /** Which of the two plans is written: the given one if it was obtained and rendered. */
  predicate Renders(calls: seq<Foreign>) {
    OutcomeAt(calls, 0).Returned? && OutcomeAt(calls, 1).Returned?
  }

  /** None of the calls that write the status and the headers throws. */
  predicate Writes(calls: seq<Foreign>) {
    forall k :: 5 <= k < 9 ==> OutcomeAt(calls, k).Returned?
  }

  /** Nothing re-enters the owner during these calls. */
  predicate Quiet(calls: seq<Foreign>) {
    forall k :: 0 <= k < |calls| ==> calls[k].reentries == []
  }

  /** The clock reading at construction is usable. */
  predicate ClockGood(calls: seq<Foreign>, registeredAt: real) {
    OutcomeAt(calls, 0).Returned? && OutcomeAt(calls, 0).value >= 0.0 && OutcomeAt(calls, 0).value >= registeredAt
  }

  /** Construction goes through: the clock is usable, the response is not closed
      whenever that is asked, both listeners are bound and the timer is scheduled. */
  predicate Opens(calls: seq<Foreign>, registeredAt: real) {
    && ClockGood(calls, registeredAt)
    && OutcomeAt(calls, 1) == Returned(0.0)
    && OutcomeAt(calls, 2).Returned? && OutcomeAt(calls, 3) == Returned(0.0)
    && OutcomeAt(calls, 6).Returned? && OutcomeAt(calls, 7) == Returned(0.0)
    && OutcomeAt(calls, 10).Returned?
  }

  /** Calls the adversary does not describe return quietly. */
  function OutcomeAt(calls: seq<Foreign>, k: nat): Outcome {
    if k < |calls| then calls[k].outcome else Returned(0.0)
  }

  function Max(a: real, b: real): real {
    if a >= b then a else b
  }

  class Owner {
    var state: State
    var timerArmed: bool
    var listenersBound: bool
    var released: bool
    var closeObservedDuringClaim: bool
    var ended: nat
    var releases: nat
    var delays: seq<real>
    var ownPlan: bool             // what was written is the given plan, not the fallback

    function Now(): View
      reads this
    {
      View(state, timerArmed, listenersBound, released, ended, releases, delays)
    }

    constructor ()
      ensures Now() == View(Open, false, false, false, 0, 0, [])
    {
      state := Open;
      timerArmed, listenersBound, released, closeObservedDuringClaim := false, false, false, false;
      ended, releases := 0, 0;
      delays := [];
      ownPlan := false;
    }

    // ------------------------------------------------------------- foreign calls

    method Call(calls: seq<Foreign>, k: nat) returns (outcome: Outcome)
      requires Sound(Now())
      modifies this
      ensures Sound(Now()) && MayBecome(old(Now()), Now())
      ensures outcome == OutcomeAt(calls, k)
      ensures Quiet(calls) ==> Now() == old(Now())
      ensures !old(state).Open? ==> ownPlan == old(ownPlan)
      decreases calls, 0
    {
      if k >= |calls| { return Returned(0.0); }
      var i := 0;
      while i < |calls[k].reentries|
        invariant Sound(Now()) && MayBecome(old(Now()), Now())
        invariant Quiet(calls) ==> Now() == old(Now())
        invariant !old(state).Open? ==> ownPlan == old(ownPlan)
      {
        var _ := Handle(calls[k].reentries[i]);
        i := i + 1;
      }
      return calls[k].outcome;
    }

    /** Any event, at any moment. Responding succeeds iff the owner was open, and
        whatever moves an open owner leaves it settled. */
    method Handle(t: Trigger) returns (accepted: bool)
      requires Sound(Now())
      modifies this
      ensures Sound(Now()) && MayBecome(old(Now()), Now())
      ensures old(state).Open? ==> Settled(Now())
      ensures accepted == (t.kind.Respond? && old(state).Open?)
      ensures !old(state).Open? ==> ownPlan == old(ownPlan)
      ensures old(state).Open? && (t.kind.Respond? || t.kind.Deadline?) ==>
                ownPlan == Renders(t.calls) && ended == (if Writes(t.calls) then 1 else 0)
      ensures old(state).Open? && (t.kind.Finish? || t.kind.Close?) ==> ended == 0
      decreases t
    {
      accepted := false;
      match t.kind
      case Respond => accepted := ClaimAndRespond(t.calls);
      case Deadline => var _ := ClaimAndRespond(t.calls);
      case Finish => CloseWithoutResponse(t.calls);
      case Close => CloseWithoutResponse(t.calls);
    }

    method ClearTimer(calls: seq<Foreign>, k: nat)
      requires Sound(Now()) && !state.Open?
      modifies this
      ensures Now() == old(Now()).(timerArmed := false)
      ensures !old(state).Open? ==> ownPlan == old(ownPlan)
      decreases calls, 1
    {
      if !timerArmed { return; }
      timerArmed := false;
      var _ := Call(calls, k);
    }

    method Unbind(calls: seq<Foreign>, k: nat)
      requires Sound(Now()) && !state.Open?
      modifies this
      ensures Now() == old(Now()).(listenersBound := false)
      ensures !old(state).Open? ==> ownPlan == old(ownPlan)
      decreases calls, 1
    {
      if !listenersBound { return; }
      listenersBound := false;
      var _ := Call(calls, k);
      var _ := Call(calls, k + 1);
    }

    method ReleaseOnce(calls: seq<Foreign>, k: nat)
      requires Sound(Now()) && state.Closed?
      modifies this
      ensures Now() == old(Now()).(released := true, releases := 1)
      ensures !old(state).Open? ==> ownPlan == old(ownPlan)
      decreases calls, 1
    {
      if released { return; }
      released := true;
      releases := releases + 1;
      var _ := Call(calls, k);
    }

    method CloseWithoutResponse(calls: seq<Foreign>)
      requires Sound(Now())
      modifies this
      ensures Sound(Now()) && MayBecome(old(Now()), Now())
      ensures old(state).Open? ==> Settled(Now()) && ended == 0
      ensures old(state).Claiming? ==> closeObservedDuringClaim
      ensures !old(state).Open? ==> ownPlan == old(ownPlan)
      decreases calls, 2
    {
      if state.Claiming? {
        closeObservedDuringClaim := true;
        return;
      }
      if !state.Open? { return; }
      state := Closed;
      ClearTimer(calls, 0);
      Unbind(calls, 1);
      ReleaseOnce(calls, 3);
    }

    /** tryRespond, and the deadline with its own plan: the first foreign calls
        obtain the plan, the fallback stands in if they throw. */
    method ClaimAndRespond(calls: seq<Foreign>) returns (claimed: bool)
      requires Sound(Now())
      modifies this
      ensures Sound(Now()) && MayBecome(old(Now()), Now())
      ensures claimed == old(state).Open?
      ensures claimed ==> Settled(Now())
      ensures !old(state).Open? ==> ownPlan == old(ownPlan)
      ensures claimed ==> ownPlan == Renders(calls) && ended == (if Writes(calls) then 1 else 0)
      decreases calls, 3
    {
      if !state.Open? { return false; }
      state := Claiming;
      closeObservedDuringClaim := false;
      var own := false;
      var plan := Call(calls, 0);
      if plan.Returned? {
        var rendered := Call(calls, 1);
        own := rendered.Returned?;
      }
      ownPlan := own;
      state := Claimed;
      ClearTimer(calls, 2);
      Unbind(calls, 3);
      WriteClaimed(calls);
      return true;
    }

    /** Status, three headers, end; the first that throws ends the writing. */
    method WriteClaimed(calls: seq<Foreign>)
      requires Sound(Now()) && state.Claimed? && ended == 0 && !timerArmed && !listenersBound
      modifies this
      ensures Settled(Now()) && Sound(Now()) && delays == old(delays)
      ensures !old(state).Open? ==> ownPlan == old(ownPlan)
      ensures ended == if Writes(calls) then 1 else 0
      decreases calls, 2
    {
      var k := 5;
      var threw := false;
      while k < 9 && !threw
        invariant 5 <= k <= 9 && Now() == old(Now()) && ownPlan == old(ownPlan)
        invariant forall j :: 5 <= j < (if threw then k - 1 else k) ==> OutcomeAt(calls, j).Returned?
        invariant threw ==> k > 5 && OutcomeAt(calls, k - 1).Threw?
      {
        var outcome := Call(calls, k);
        threw := outcome.Threw?;
        k := k + 1;
      }
      if !threw {
        ended := ended + 1;
        var _ := Call(calls, 9);
      }
      state := Closed;
      ReleaseOnce(calls, 10);
    }

    // --------------------------------------------------------------- construction

    /** Still open, or closed by a re-entrant event (listeners may be left bound). */
    predicate InProgress()
      reads this
    {
      Sound(Now()) && (state.Open? || Settled(Now().(listenersBound := false)))
    }

    /** `if (state !== 'OPEN' || responseIsClosed())` close, unbind and stop. */
    method StopIfClosed(calls: seq<Foreign>, k: nat) returns (threw: bool, stopped: bool)
      requires InProgress()
      modifies this
      ensures InProgress() && delays == old(delays)
      ensures stopped ==> !threw && Settled(Now())
      ensures !stopped ==> old(state).Open? && (Now() == old(Now()) || Settled(Now()))
      ensures threw <==> old(state).Open? && OutcomeAt(calls, k).Threw?
      ensures !stopped <==> old(state).Open? && (OutcomeAt(calls, k).Threw? || OutcomeAt(calls, k) == Returned(0.0))
      ensures Quiet(calls) && !stopped ==> Now() == old(Now())
    {
      var closed := true;
      if state.Open? {
        var outcome := Call(calls, k);
        if outcome.Threw? { return true, false; }
        closed := outcome.value != 0.0;
      }
      if !closed { return false, false; }
      CloseWithoutResponse(calls);
      Unbind(calls, k + 1);
      return false, true;
    }

    /** Registering one listener, then looking whether that closed the owner. */
    method Listen(calls: seq<Foreign>, k: nat) returns (threw: bool, stopped: bool)
      requires InProgress()
      modifies this
      ensures InProgress() && delays == old(delays)
      ensures stopped ==> !threw && Settled(Now())
      ensures !threw && !stopped ==> (state.Open? && Now() == old(Now())) || Settled(Now())
      ensures OutcomeAt(calls, k).Threw? ==> threw
      ensures threw ==> OutcomeAt(calls, k).Threw? || OutcomeAt(calls, k + 1).Threw?
      ensures Quiet(calls) && old(state).Open? ==>
                && (threw <==> OutcomeAt(calls, k).Threw? || OutcomeAt(calls, k + 1).Threw?)
                && (!threw && !stopped <==> OutcomeAt(calls, k).Returned? && OutcomeAt(calls, k + 1) == Returned(0.0))
                && (!stopped ==> Now() == old(Now()))
    {
      var outcome := Call(calls, k);
      if outcome.Threw? { return true, false; }
      threw, stopped := StopIfClosed(calls, k + 1);
    }

    /** Arms the deadline for what is left of five seconds since registration. */
    method ArmDeadline(calls: seq<Foreign>, now: real, registeredAt: real) returns (threw: bool)
      requires Sound(Now()) && (state.Open? || Settled(Now())) && now >= registeredAt
      modifies this
      ensures delays == old(delays) + [Max(0.0, DEADLINE_MS - (now - registeredAt))]
      ensures InProgress()
      ensures !threw ==> Settled(Now()) || (state.Open? && timerArmed && listenersBound == old(listenersBound))
      ensures state.Open? ==> old(state).Open?
      ensures threw <==> OutcomeAt(calls, 10).Threw?
      ensures Quiet(calls) ==> state == old(state)
    {
      delays := delays + [Max(0.0, DEADLINE_MS - (now - registeredAt))];
      var handle := Call(calls, 10);
      if handle.Threw? { return true; }
      timerArmed := true;
      if !state.Open? { ClearTimer(calls, 11); }
      return false;
    }

    /** The part of createHttpResponseOwner inside its try block. */
    method Arm(calls: seq<Foreign>, registeredAt: real) returns (threw: bool)
      requires Now() == View(Open, false, false, false, 0, 0, [])
      modifies this
      ensures InProgress()
      ensures !threw ==> Settled(Now()) || (state.Open? && timerArmed && listenersBound && |delays| == 1)
      ensures |delays| == 0 || (OutcomeAt(calls, 0).Returned? && OutcomeAt(calls, 0).value >= registeredAt
                                && delays == [Max(0.0, DEADLINE_MS - (OutcomeAt(calls, 0).value - registeredAt))])
      ensures !ClockGood(calls, registeredAt) ==> threw
      ensures Quiet(calls) ==> (!threw && state.Open? <==> Opens(calls, registeredAt))
    {
      var clock := Call(calls, 0);
      if clock.Threw? || clock.value < 0.0 || clock.value < registeredAt { return true; }
      var closed := Call(calls, 1);
      if closed.Threw? { return true; }
      if closed.value != 0.0 {
        CloseWithoutResponse(calls);
        return false;
      }
      listenersBound := true;
      var stopped: bool;
      threw, stopped := Listen(calls, 2);
      if threw || stopped { return threw; }
      threw, stopped := Listen(calls, 6);
      if threw || stopped { return threw; }
      threw := ArmDeadline(calls, clock.value, registeredAt);
    }

    /** createHttpResponseOwner: on success the owner is open with one armed timer,
        or already settled; on failure it never released and never answered. */
    method Construct(calls: seq<Foreign>, registeredAt: real) returns (ok: bool)
      requires Now() == View(Open, false, false, false, 0, 0, [])
      modifies this
      ensures ok ==> Settled(Now()) || (Sound(Now()) && state.Open? && timerArmed && listenersBound && |delays| == 1)
      ensures !ok ==> state.Closed? && !released && releases == 0 && ended == 0 && !timerArmed && !listenersBound
      ensures |delays| <= 1 && forall i :: 0 <= i < |delays| ==> 0.0 <= delays[i] <= DEADLINE_MS
      ensures Quiet(calls) ==> (ok && state.Open? <==> Opens(calls, registeredAt))
      ensures state.Open? ==> ok && ClockGood(calls, registeredAt)
    {
      var threw := Arm(calls, registeredAt);
      if !threw { return true; }
      state := Closed;
      ClearTimer(calls, 12);
      Unbind(calls, 13);
      return released;
    }
  }

  /** Whole life of an owner under any events: it is answered at most once, and once
      closed it has released exactly once and stays as it is. */
  method Live(calls: seq<Foreign>, registeredAt: real, events: seq<Trigger>)
    returns (owner: Owner, ok: bool, answered: nat)
    ensures ok ==> Sound(owner.Now()) && (owner.state.Open? || Settled(owner.Now()))
    ensures ok && events != [] ==> Settled(owner.Now())
    ensures !ok ==> owner.releases == 0 && owner.ended == 0
    ensures answered <= 1
    ensures Quiet(calls) ==>
              (answered == 1 <==> Opens(calls, registeredAt) && events != [] && events[0].kind.Respond?)
    ensures Quiet(calls) && Opens(calls, registeredAt) && events != [] ==>
              owner.ended == if (events[0].kind.Respond? || events[0].kind.Deadline?) && Writes(events[0].calls)
                             then 1 else 0
    ensures forall i :: 0 <= i < |owner.delays| ==> 0.0 <= owner.delays[i] <= DEADLINE_MS
  {
    owner := new Owner();
    answered := 0;
    ok := owner.Construct(calls, registeredAt);
    if !ok { return; }
    ghost var wasOpen := owner.state.Open?;
    var i := 0;
    while i < |events|
      invariant 0 <= i <= |events|
      invariant Sound(owner.Now()) && (owner.state.Open? || Settled(owner.Now()))
      invariant i > 0 ==> Settled(owner.Now())
      invariant i == 0 ==> answered == 0 && owner.state.Open? == wasOpen
      invariant i > 0 ==> (answered == 1 <==> wasOpen && events[0].kind.Respond?)
      invariant answered <= 1
      invariant i > 0 && wasOpen ==>
                  owner.ended == if (events[0].kind.Respond? || events[0].kind.Deadline?) && Writes(events[0].calls)
                                 then 1 else 0
      invariant forall k :: 0 <= k < |owner.delays| ==> 0.0 <= owner.delays[k] <= DEADLINE_MS
    {
      var accepted := owner.Handle(events[i]);
      if accepted { answered := answered + 1; }
      i := i + 1;
    }
  }
}
