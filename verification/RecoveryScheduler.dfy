/** The scheduler that confirms a paused writer by alternating the original commit
    and the canonical read, one method per stretch between awaits. */
module RecoveryScheduler {
  import opened Base
  import opened RecoveryBridge

  datatype State = Idle | OriginalCommit | CanonicalRead | FailedClosed

  datatype Command = Commit | Read

  datatype Clock = ClockThrew | ClockMs(ms: int)

  /** What the foreign parts of one stretch do: clock readings, command creation,
      the timer, and the registry settlement before cleanup. */
  datatype Foreign = Foreign(clock: Clock, starts: bool, timerArms: bool, current: bool, settles: bool, cleaner: bool)

  datatype CommitAnswer = CommitThrew | CommitConfirmed | NotConfirmed(attempt: nat)
  datatype ReadAnswer = ReadThrew | Matched | StillUnknown

  datatype Awaiting = Nothing | TheCommit | TheRead | TheConfirmation

  /** Only the outcome of one of these tickets' handoffs was proved, if any. */
  ghost predicate ProvesAtMost(before: set<nat>, after: set<nat>, tickets: seq<Ticket>) {
    && before <= after
    && forall id :: id in after && id !in before ==> exists t :: 0 <= t < |tickets| && tickets[t].handoff.id == id
  }

  ghost predicate Alternates(commands: seq<Command>) {
    forall k :: 0 <= k < |commands| ==> commands[k] == if k % 2 == 0 then Commit else Read
  }

  /** A reading that was returned, is not negative and does not run backwards. */
  predicate Trusted(last: Option<int>, clock: Clock) {
    clock.ClockMs? && clock.ms >= 0 && (last.Some? ==> clock.ms >= last.value)
  }

  class Scheduler {
    const bridge: Bridge
    var state: State
    var terminal: Option<nat>
    var timerArmed: bool
    var timerDelayMs: nat               // what the armed timer was scheduled with
    var driving: bool
    var lastNowMs: Option<int>
    var awaiting: Awaiting
    ghost var commands: seq<Command>    // sent for the claimed ticket
    ghost var proved: bool              // its outcome was answered as confirmed

    ghost predicate Valid()
      reads this, bridge, bridge.scopes
    {
      && bridge.Valid()
      && Alternates(commands)
      && (driving <==> !awaiting.Nothing?)
      && match terminal
         case None => !driving && !timerArmed && (state.Idle? || state.FailedClosed?) && commands == [] && !proved
         case Some(t) =>
           && bridge.Live(t) && bridge.tickets[t].claimed
           && driving != timerArmed
           && (proved <==> awaiting.TheConfirmation?)
           && (awaiting.TheConfirmation? ==> bridge.tickets[t].confirming)
           && (timerArmed ==> timerDelayMs == 2000 || (timerDelayMs == 1000 && state.CanonicalRead?))
           && match state
              case OriginalCommit => |commands| % 2 == (if timerArmed then 0 else 1) && !awaiting.TheRead?
              case CanonicalRead => (|commands| % 2 == (if timerArmed then 1 else 0)) && |commands| > 0
                && !awaiting.TheCommit?
              case _ => false
    }

    constructor (bridge: Bridge)
      requires bridge.Valid() && bridge.tickets == []
      ensures Valid() && this.bridge == bridge && state.Idle? && terminal.None? && lastNowMs.None?
    {
      this.bridge := bridge;
      state, terminal := Idle, None;
      timerArmed, timerDelayMs, driving := false, 0, false;
      lastNowMs := None;
      awaiting := Nothing;
      commands, proved := [], false;
    }

    // ----------------------------------------------------------------------- pieces

    method ReadNow(clock: Clock) returns (ok: bool)
      modifies `lastNowMs
      ensures ok == Trusted(old(lastNowMs), clock)
      ensures lastNowMs == if ok then Some(clock.ms) else old(lastNowMs)
    {
      if clock.ClockThrew? || clock.ms < 0 || (lastNowMs.Some? && clock.ms < lastNowMs.value) { return false; }
      lastNowMs := Some(clock.ms);
      return true;
    }

    /** Fails for good: no timer, no work, and the claimed ticket ends unsafely. */
    method FailClosed(current: bool)
      requires bridge.Valid() && (terminal.Some? ==> terminal.value < |bridge.tickets|)
      modifies this, bridge`tickets
      ensures Valid() && state.FailedClosed? && !timerArmed && awaiting.Nothing?
      ensures bridge.active == old(bridge.active) && bridge.queued == old(bridge.queued)
      ensures bridge.tickets == if old(terminal).Some? && current && old(bridge.Live(terminal.value))
                                   && old(bridge.tickets)[old(terminal).value].claimed
                                then old(bridge.tickets)[old(terminal).value :=
                                       old(bridge.tickets)[old(terminal).value].(terminal := true)]
                                else old(bridge.tickets)
      ensures lastNowMs == old(lastNowMs)
    {
      timerArmed := false;
      var held := terminal;
      terminal, driving, awaiting := None, false, Nothing;
      state := FailedClosed;
      commands, proved := [], false;
      if held.Some? { var _ := bridge.FailClosed(held.value, current); }
    }

    /** One timer at a time, with the prescribed delay. */
    method Arm(delayMs: nat, next: State, f: Foreign)
      requires bridge.Valid() && terminal.Some? && !timerArmed && !driving && awaiting.Nothing? && !proved
      requires bridge.Live(terminal.value) && bridge.tickets[terminal.value].claimed
      requires Alternates(commands) && |commands| > 0
      requires next == if |commands| % 2 == 1 then CanonicalRead else OriginalCommit
      requires delayMs == 2000 || (delayMs == 1000 && next.CanonicalRead?)
      modifies this, bridge`tickets
      ensures Valid() && awaiting.Nothing?
      ensures timerArmed <==> Trusted(old(lastNowMs), f.clock) && f.timerArms
      ensures !timerArmed ==> state.FailedClosed?
      ensures timerArmed ==>
                && timerDelayMs == delayMs && state == next && terminal == old(terminal)
                && commands == old(commands) && bridge.tickets == old(bridge.tickets)
      ensures lastNowMs == old(lastNowMs) || (f.clock.ClockMs? && lastNowMs == Some(f.clock.ms))
    {
      var now := ReadNow(f.clock);
      if !now || !f.timerArms {
        FailClosed(f.current);
        return;
      }
      state := next;
      timerArmed, timerDelayMs := true, delayMs;
    }

    /** Everything drive does before its first await. */
    method Drive(f: Foreign)
      requires Valid() && !timerArmed && !driving
      requires terminal.None? ==> state.Idle?
      modifies this, bridge`tickets, bridge`queued
      ensures Valid() && !timerArmed
      ensures !state.FailedClosed? && terminal.None? ==> bridge.queued == [] && state.Idle?
      ensures state.FailedClosed? <==>
                || !Trusted(old(lastNowMs), f.clock)
                || ((old(terminal).Some? || old(bridge.queued) != []) && !f.starts)
      ensures !state.FailedClosed? ==>
                if old(terminal).None? && old(bridge.queued) == [] then state.Idle? && terminal.None?
                else
                  && terminal == (if old(terminal).Some? then old(terminal) else Some(old(bridge.queued)[0]))
                  && awaiting == if state.OriginalCommit? then TheCommit else TheRead
      ensures !state.FailedClosed? && old(terminal).None? && old(bridge.queued) != [] ==> commands == [Commit]
      ensures lastNowMs == old(lastNowMs) || (f.clock.ClockMs? && lastNowMs == Some(f.clock.ms))
    {
      driving := true;
      var now := ReadNow(f.clock);
      if !now {
        driving := false;
        FailClosed(f.current);
        return;
      }
      if terminal.None? {
        if bridge.queued == [] {
          driving := false;
          state := Idle;
          return;
        }
        var t := bridge.queued[0];
        var claimed := bridge.Claim(t);
        terminal := Some(t);
        state := OriginalCommit;
      }
      Send(f);
    }

    /** Creates and sends the command the state calls for. */
    method Send(f: Foreign)
      requires bridge.Valid() && terminal.Some? && driving && !timerArmed && awaiting.Nothing? && !proved
               && Alternates(commands)
      requires bridge.Live(terminal.value) && bridge.tickets[terminal.value].claimed
      requires state == if |commands| % 2 == 0 then OriginalCommit else CanonicalRead
      modifies this, bridge`tickets
      ensures Valid() && !timerArmed
      ensures state.FailedClosed? <==> !f.starts
      ensures !state.FailedClosed? ==>
                awaiting == (if old(state).OriginalCommit? then TheCommit else TheRead)
                && commands == old(commands) + [if old(state).OriginalCommit? then Commit else Read]
                && terminal == old(terminal) && state == old(state)
      ensures bridge.queued == old(bridge.queued)
      ensures lastNowMs == old(lastNowMs)
    {
      if !f.starts {
        FailClosed(f.current);
        return;
      }
      if state.OriginalCommit? {
        commands := commands + [Commit];
        awaiting := TheCommit;
      } else {
        commands := commands + [Read];
        awaiting := TheRead;
      }
    }

    // ----------------------------------------------------------------------- events

    method Wake(f: Foreign)
      requires Valid()
      modifies this, bridge`tickets, bridge`queued
      ensures Valid()
      ensures old(state).FailedClosed? ==> state.FailedClosed?
      ensures state.Idle? ==> bridge.queued == []
      ensures !old(state).Idle? ==>
                state == old(state) && terminal == old(terminal) && awaiting == old(awaiting)
                  && timerArmed == old(timerArmed)
                && commands == old(commands) && bridge.queued == old(bridge.queued)
      ensures old(state).Idle? ==>
                && (state.FailedClosed? <==>
                      !Trusted(old(lastNowMs), f.clock) || (old(bridge.queued) != [] && !f.starts))
                && (!state.FailedClosed? && old(bridge.queued) != [] ==>
                      state.OriginalCommit? && terminal == Some(old(bridge.queued)[0]) && awaiting.TheCommit?
                      && commands == [Commit])
                && (!state.FailedClosed? && old(bridge.queued) == [] ==> state.Idle?)
      ensures lastNowMs == old(lastNowMs) || (f.clock.ClockMs? && lastNowMs == Some(f.clock.ms))
    {
      if state.FailedClosed? || terminal.Some? || timerArmed || driving { return; }
      Drive(f);
    }

    method TimerFires(f: Foreign)
      requires Valid() && timerArmed
      modifies this, bridge`tickets, bridge`queued
      ensures Valid() && !timerArmed && !state.Idle?
      ensures state.FailedClosed? <==> !Trusted(old(lastNowMs), f.clock) || !f.starts
      ensures !state.FailedClosed? ==>
                && state == old(state) && terminal == old(terminal)
                && awaiting == (if state.OriginalCommit? then TheCommit else TheRead)
                && commands == old(commands) + [if state.OriginalCommit? then Commit else Read]
      ensures lastNowMs == old(lastNowMs) || (f.clock.ClockMs? && lastNowMs == Some(f.clock.ms))
    {
      timerArmed := false;
      driving := true;
      var now := ReadNow(f.clock);
      if now { Send(f); } else { FailClosed(f.current); }
    }

    /** The original sender answered: confirmation follows COMMIT_CONFIRMED only;
        otherwise the canonical read comes after one second the first time, two
        seconds later on. */
    method CommitReturns(answer: CommitAnswer, f: Foreign)
      requires Valid() && awaiting.TheCommit?
      modifies this, bridge`tickets, bridge`confirmed
      ensures Valid()
      ensures awaiting.TheConfirmation? <==> answer.CommitConfirmed? && f.current && f.settles && f.cleaner
      ensures timerArmed <==> answer.NotConfirmed? && Trusted(old(lastNowMs), f.clock) && f.timerArms
      ensures timerArmed ==> state.CanonicalRead? && timerDelayMs == if answer.attempt == 0 then 1000 else 2000
      ensures state.FailedClosed? <==> !awaiting.TheConfirmation? && !timerArmed
      ensures !state.FailedClosed? ==> terminal == old(terminal)
      ensures answer.CommitConfirmed? ==> old(bridge.tickets)[old(terminal).value].handoff.id in bridge.confirmed
      ensures bridge.queued == old(bridge.queued)
              && ProvesAtMost(old(bridge.confirmed), bridge.confirmed, old(bridge.tickets))
      ensures lastNowMs == old(lastNowMs) || (f.clock.ClockMs? && lastNowMs == Some(f.clock.ms))
    {
      awaiting, driving := Nothing, false;
      match answer
      case CommitThrew => FailClosed(f.current);
      case CommitConfirmed => CompleteConfirmed(f);
      case NotConfirmed(attempt) =>
        Arm(if attempt == 0 then 1000 else 2000, CanonicalRead, f);
    }

    /** The canonical read answered: MATCHED confirms, anything else goes back to
        the original sender after two seconds. */
    method ReadReturns(answer: ReadAnswer, f: Foreign)
      requires Valid() && awaiting.TheRead?
      modifies this, bridge`tickets, bridge`confirmed
      ensures Valid()
      ensures awaiting.TheConfirmation? <==> answer.Matched? && f.current && f.settles && f.cleaner
      ensures timerArmed <==> answer.StillUnknown? && Trusted(old(lastNowMs), f.clock) && f.timerArms
      ensures timerArmed ==> state.OriginalCommit? && timerDelayMs == 2000
      ensures state.FailedClosed? <==> !awaiting.TheConfirmation? && !timerArmed
      ensures !state.FailedClosed? ==> terminal == old(terminal)
      ensures answer.Matched? ==> old(bridge.tickets)[old(terminal).value].handoff.id in bridge.confirmed
      ensures bridge.queued == old(bridge.queued)
              && ProvesAtMost(old(bridge.confirmed), bridge.confirmed, old(bridge.tickets))
      ensures lastNowMs == old(lastNowMs) || (f.clock.ClockMs? && lastNowMs == Some(f.clock.ms))
    {
      awaiting, driving := Nothing, false;
      match answer
      case ReadThrew => FailClosed(f.current);
      case Matched => CompleteConfirmed(f);
      case StillUnknown =>
        Arm(2000, OriginalCommit, f);
    }

    /** completeConfirmed up to its await. */
    method CompleteConfirmed(f: Foreign)
      requires bridge.Valid() && terminal.Some? && bridge.Live(terminal.value) && bridge.tickets[terminal.value].claimed
      requires !timerArmed && !driving && awaiting.Nothing? && !proved && Alternates(commands)
      requires state == (if |commands| % 2 == 1 then OriginalCommit else CanonicalRead) && |commands| > 0
      modifies this, bridge`tickets, bridge`confirmed
      ensures Valid() && !timerArmed
      ensures awaiting.TheConfirmation? <==> f.current && f.settles && f.cleaner
      ensures state.FailedClosed? <==> !awaiting.TheConfirmation?
      ensures awaiting.TheConfirmation? ==> terminal == old(terminal)
      ensures old(bridge.tickets)[old(terminal).value].handoff.id in bridge.confirmed
      ensures bridge.queued == old(bridge.queued)
              && ProvesAtMost(old(bridge.confirmed), bridge.confirmed, old(bridge.tickets))
      ensures lastNowMs == old(lastNowMs)
    {
      bridge.Prove(bridge.tickets[terminal.value].handoff);
      var started := bridge.StartConfirmed(terminal.value, f.current, f.settles, f.cleaner);
      if !started {
        FailClosed(f.current);
        return;
      }
      awaiting, driving := TheConfirmation, true;
      proved := true;
    }

    /** confirmedPersisted settled: done and idle again, or closed for good. */
    method ConfirmationReturns(cleaned: bool, published: bool, f: Foreign)
      requires Valid() && awaiting.TheConfirmation?
      modifies this, bridge`active, bridge`invocations, bridge`tickets, bridge`queued
      ensures Valid()
      ensures cleaned && published ==> bridge.active.None?
      ensures !(cleaned && published) ==> state.FailedClosed? && bridge.active == old(bridge.active)
                                          && bridge.active.Some?
      ensures cleaned && published ==>
                (state.Idle? <==> Trusted(old(lastNowMs), f.clock)) && (state.FailedClosed? <==> !state.Idle?)
      ensures state.Idle? ==> bridge.queued == []
      ensures HandoffsKept(old(bridge.invocations), bridge.invocations) && bridge.confirmed == old(bridge.confirmed)
      ensures lastNowMs == old(lastNowMs) || (f.clock.ClockMs? && lastNowMs == Some(f.clock.ms))
    {
      var t := terminal.value;
      assert TicketOk(bridge.active, bridge.invocations, bridge.confirmed, bridge.queued, bridge.tickets[t], t);
      EmptyUnlessMember(bridge.queued);
      var ok := bridge.FinishConfirmed(t, cleaned, published);
      awaiting, driving := Nothing, false;
      if !ok {
        FailClosed(f.current);
        return;
      }
      terminal := None;
      state := Idle;
      commands, proved := [], false;
      Wake(f);
    }
  }
}
