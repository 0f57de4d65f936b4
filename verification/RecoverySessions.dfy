/** The adapter's transactions while a writer runs in a bound scope: when a session
    is ended, when it is kept, and when a rejected commit is offered for recovery. */
module RecoverySessions {
  import opened Base

  /** roundOpen: commands may still be sent; commit: the number of the commit whose
      sender was invoked, if any. */
  datatype Session = Session(roundOpen: bool, commit: Option<nat>)

  /** What became of a commit that was sent. */
  datatype Fate =
    | InFlight
    | Acknowledged
    | Refused                   // rejected, and nobody took the transaction over
    | Retained(writer: nat)     // rejected, and handed to the recovery of that writer
    | Released(writer: nat)     // its retained session was ended

  /** held: the adapter still has the session it was sent on. */
  datatype Commit = Commit(scope: nat, fate: Fate, held: bool)

  ghost predicate Holding(transactions: map<nat, Session>, commits: seq<Commit>, c: nat)
    requires c < |commits|
  {
    commits[c].scope in transactions && transactions[commits[c].scope] == Session(false, Some(c))
  }

  /** A session is kept exactly as long as the commit sent on it needs it. */
  ghost predicate SessionsOk(transactions: map<nat, Session>, commits: seq<Commit>) {
    && (forall s :: s in transactions && transactions[s].commit.Some? ==>
          transactions[s].commit.value < |commits| && commits[transactions[s].commit.value].scope == s
          && commits[transactions[s].commit.value].held)
    && (forall c :: 0 <= c < |commits| && commits[c].held ==> Holding(transactions, commits, c))
    && (forall c :: 0 <= c < |commits| && (commits[c].fate.Acknowledged? || commits[c].fate.Released?) ==>
          !commits[c].held)
    && (forall c :: 0 <= c < |commits| && commits[c].fate.InFlight? ==> commits[c].held)
  }

  class Adapter {
    var transactions: map<nat, Session>
    var handedOff: set<nat>           // scopes whose transaction was offered once
    var inFlight: set<nat>            // scopes awaiting the reply to their commit
    var sent: nat
    ghost var commits: seq<Commit>

    ghost predicate Valid()
      reads this
    {
      && |commits| == sent
      && SessionsOk(transactions, commits)
      && forall s :: s in inFlight <==>
           s in transactions && transactions[s].commit.Some? && commits[transactions[s].commit.value].fate.InFlight?
    }

    constructor ()
      ensures Valid() && commits == [] && transactions == map[] && handedOff == {} && inFlight == {}
    {
      transactions, handedOff, inFlight, sent, commits := map[], {}, {}, 0, [];
    }

    /** begin: the scope's transaction, opened only for a live scope with a budget binding. */
    method Begin(scope: nat, bound: bool) returns (ok: bool)
      requires Valid()
      modifies `transactions
      ensures Valid()
      ensures ok <==> bound || scope in old(transactions)
      ensures transactions ==
                if ok && scope !in old(transactions) then old(transactions)[scope := Session(true, None)]
                  else old(transactions)
    {
      if scope in transactions { return true; }
      if !bound { return false; }
      transactions := transactions[scope := Session(true, None)];
      return true;
    }

    /** executeInitialCommit up to its await: once the sender runs, the commit is out. */
    method SendCommit(scope: nat) returns (ok: bool)
      requires Valid()
      modifies `transactions, `inFlight, `sent, `commits
      ensures Valid()
      ensures ok <==> scope in old(transactions) && old(transactions)[scope] == Session(true, None)
      ensures transactions == if ok then old(transactions)[scope := Session(false, Some(old(sent)))]
              else old(transactions)
      ensures commits == if ok then old(commits) + [Commit(scope, InFlight, true)] else old(commits)
      ensures inFlight == if ok then old(inFlight) + {scope} else old(inFlight)
    {
      if scope !in transactions || transactions[scope] != Session(true, None) { return false; }
      transactions := transactions[scope := Session(false, Some(sent))];
      inFlight, sent := inFlight + {scope}, sent + 1;
      commits := commits + [Commit(scope, InFlight, true)];
      return true;
    }

    /** The commit resolved, so its session ends. */
    method Acknowledge(scope: nat)
      requires Valid() && scope in inFlight
      modifies `transactions, `inFlight, `commits
      ensures Valid()
      ensures var c := old(transactions)[scope].commit.value;
              && transactions == old(transactions) - {scope}
              && commits == old(commits)[c := Commit(scope, Acknowledged, false)]
      ensures inFlight == old(inFlight) - {scope}
    {
      ghost var c := transactions[scope].commit.value;
      transactions, inFlight := transactions - {scope}, inFlight - {scope};
      commits := commits[c := Commit(scope, Acknowledged, false)];
    }

    /** The commit's outcome is unknown to the adapter. The session stays, unless
        ending it was what threw; a scope's transaction is offered once, and only
        while its budget can start a confirmation. */
    method Reject(scope: nat, ended: bool, budget: bool) returns (handoff: nat, offers: bool)
      requires Valid() && scope in inFlight
      modifies `transactions, `handedOff, `inFlight, `commits
      ensures Valid()
      ensures old(transactions)[scope].commit == Some(handoff) && handoff < |commits|
      ensures offers == (scope !in old(handedOff) && budget)
      ensures handedOff == if offers then old(handedOff) + {scope} else old(handedOff)
      ensures transactions == if ended then old(transactions) - {scope} else old(transactions)
      ensures commits == old(commits)[handoff := Commit(scope, Refused, !ended)]
      ensures inFlight == old(inFlight) - {scope}
    {
      handoff := transactions[scope].commit.value;
      offers := scope !in handedOff && budget;
      if offers { handedOff := handedOff + {scope}; }
      inFlight := inFlight - {scope};
      if ended { transactions := transactions - {scope}; }
      commits := commits[handoff := Commit(scope, Refused, !ended)];
    }

    /** The offer was taken by a writer. */
    ghost method Take(handoff: nat, writer: nat)
      requires Valid() && handoff < |commits| && commits[handoff].fate.Refused?
      modifies `commits
      ensures Valid() && commits == old(commits)[handoff := old(commits)[handoff].(fate := Retained(writer))]
    {
      commits := commits[handoff := commits[handoff].(fate := Retained(writer))];
    }

    /** discard and fail: a transaction whose commit was never sent is aborted, once
        its termination succeeds; one whose commit was sent is not touched. */
    method Discard(scope: nat, terminates: bool)
      requires Valid()
      modifies `transactions
      ensures Valid()
      ensures transactions ==
                if scope in old(transactions) && old(transactions)[scope].commit.None?
                  && old(transactions)[scope].roundOpen && terminates
                then old(transactions) - {scope} else old(transactions)
    {
      if scope in transactions && transactions[scope].commit.None? && transactions[scope].roundOpen && terminates {
        transactions := transactions - {scope};
      }
    }

    /** releaseG10cConfirmedRetainedTransaction: only the very session the handoff
        was made for, once it is inactive; a failing end is not retried. */
    method ReleaseConfirmed(scope: nat, handoff: nat, active: bool, endThrows: bool) returns (ok: bool)
      requires Valid() && handoff < |commits| && commits[handoff].scope == scope
      requires commits[handoff].fate.Retained? || commits[handoff].fate.Released?
      modifies `transactions, `commits
      ensures Valid()
      ensures ok <==> old(commits)[handoff].held && !active && !endThrows
      ensures transactions == if old(commits)[handoff].held
              && !active then old(transactions) - {scope} else old(transactions)
      ensures commits == if old(commits)[handoff].held && !active
                         then old(commits)[handoff := Commit(scope, Released(old(commits)[handoff].fate.writer), false)]
                         else old(commits)
    {
      if scope !in transactions || transactions[scope] != Session(false, Some(handoff)) { return false; }
      if active { return false; }
      transactions := transactions - {scope};
      commits := commits[handoff := Commit(scope, Released(commits[handoff].fate.writer), false)];
      return !endThrows;
    }
  }
}
