/** How a process run obtains the write claim: the once-only ticket in a directory,
    the compare-and-set on the metadata document, resets, crashes, power losses and
    lost replies, in any interleaving. */
module WriteAuthority {
  import opened Base

  datatype Ticket = Ticket(id: nat, epoch: nat, run: nat)

  /** Where one process is in claimConsumption and then claimOnce. */
  datatype Phase =
    | Starting
    | Validated(ticket: Ticket)
    | MarkerCreated(ticket: Ticket)
    | MarkerSynced(ticket: Ticket)
    | EntrySynced(ticket: Ticket)      // directory synced: the marker is durable
    | Unlinked(ticket: Ticket)
    | Consumed(ticket: Ticket)         // final sync done, token minted
    | CasSent(ticket: Ticket)          // the token is spent
    | Claimed(ticket: Ticket)
    | Ended

  /** The claim record and every compare-and-set ever applied, by reset generation. */
  datatype Applied = Applied(generation: nat, process: nat, ticket: Ticket)

  datatype World = World(
    epoch: nat,
    claim: Option<nat>,
    generation: nat,
    ticketFile: Option<Ticket>,
    markers: set<nat>,          // used-markers as processes see them
    durable: set<nat>,          // those a power loss cannot take back
    phases: seq<Phase>,
    pending: map<nat, Ticket>,  // compare-and-sets the server may still apply, by process
    applied: seq<Applied>,
    minted: seq<(nat, nat)>,    // (ticket id, process) of every token minted
    claimed: seq<nat>)          // processes that were told CLAIMED

  datatype Action =
    | PlaceTicket(ticket: Ticket)
    | Launch
    | ReadTicket(p: nat, run: nat)
    | CreateMarker(p: nat)
    | SyncMarker(p: nat)
    | SyncEntry(p: nat)
    | Unlink(p: nat)
    | SyncUnlink(p: nat)
    | SendCas(p: nat)
    | ApplyCas(p: nat)
    | Reply(p: nat)
    | Crash(p: nat)                       // also every I/O error and every lost reply
    | PowerLoss(kept: set<nat>, restored: Option<Ticket>)
    | Reset(newEpoch: nat)

  function At(w: World, p: nat): Phase {
    if p < |w.phases| then w.phases[p] else Ended
  }

  function Move(w: World, p: nat, next: Phase): World
    requires p < |w.phases|
  {
    w.(phases := w.phases[p := next])
  }

  predicate AppliedFor(w: World, p: nat) {
    exists k :: 0 <= k < |w.applied| && w.applied[k].process == p
  }

  /** One atomic step; an action that is not enabled changes nothing. */
  function Step(w: World, a: Action): World {
    match a
    case PlaceTicket(t) => w.(ticketFile := Some(t))
    case Launch => w.(phases := w.phases + [Starting])
    case ReadTicket(p, run) =>
      if At(w, p).Starting? && w.ticketFile.Some? && w.ticketFile.value.run == run
      then Move(w, p, Validated(w.ticketFile.value)) else w
    case CreateMarker(p) =>
      if !At(w, p).Validated? then w
      else if At(w, p).ticket.id in w.markers then Move(w, p, Ended)     // TICKET_ALREADY_USED
      else Move(w.(markers := w.markers + {At(w, p).ticket.id}), p, MarkerCreated(At(w, p).ticket))
    case SyncMarker(p) => if At(w, p).MarkerCreated? then Move(w, p, MarkerSynced(At(w, p).ticket)) else w
    case SyncEntry(p) =>
      if At(w, p).MarkerSynced?
      then Move(w.(durable := w.durable + {At(w, p).ticket.id}), p, EntrySynced(At(w, p).ticket)) else w
    case Unlink(p) =>
      if At(w, p).EntrySynced? then Move(w.(ticketFile := None), p, Unlinked(At(w, p).ticket)) else w
    case SyncUnlink(p) =>
      if At(w, p).Unlinked?
      then Move(w.(minted := w.minted + [(At(w, p).ticket.id, p)]), p, Consumed(At(w, p).ticket)) else w
    case SendCas(p) =>
      if At(w, p).Consumed? then Move(w.(pending := w.pending[p := At(w, p).ticket]), p, CasSent(At(w, p).ticket))
        else w
    case ApplyCas(p) =>
      // the server matches { datasetEpoch, writeRunClaim: null } and sets the claim
      if p !in w.pending then w
      else
        var t := w.pending[p];
        var served := w.(pending := w.pending - {p});
        if w.epoch == t.epoch && w.claim.None?
        then served.(claim := Some(t.run), applied := w.applied + [Applied(w.generation, p, t)])
        else served
    case Reply(p) =>
      // a post-image is CLAIMED; no match is CLAIM_HELD, EPOCH_MISMATCH or CLAIM_UNKNOWN
      if !At(w, p).CasSent? || p in w.pending then w
      else if AppliedFor(w, p) then Move(w.(claimed := w.claimed + [p]), p, Claimed(At(w, p).ticket))
      else Move(w, p, Ended)
    case Crash(p) => if p < |w.phases| then Move(w, p, Ended) else w
    case PowerLoss(kept, restored) =>
      w.(markers := w.durable + (kept * w.markers),
         ticketFile := restored,
         phases := seq(|w.phases|, i => Ended))
    case Reset(newEpoch) =>
      // the reset transaction re-checks the epoch and clears the claim
      if newEpoch == w.epoch then w
      else w.(epoch := newEpoch, claim := None, generation := w.generation + 1)
  }

  function Run(w: World, actions: seq<Action>): World {
    if actions == [] then w else Step(Run(w, actions[..|actions| - 1]), actions[|actions| - 1])
  }

  predicate Initial(w: World) {
    && w.claim.None? && w.durable <= w.markers
    && w.phases == [] && w.pending == map[] && w.applied == [] && w.minted == [] && w.claimed == []
  }

  // -------------------------------------------------------------------- invariant

  /** The process holds the marker it created and has not minted its token yet. */
  predicate Holding(phase: Phase) {
    phase.MarkerCreated? || phase.MarkerSynced? || phase.EntrySynced? || phase.Unlinked?
  }

  predicate Spent(phase: Phase) {
    phase.CasSent? || phase.Claimed? || phase.Ended?
  }

  /** Per reset generation at most one compare-and-set was applied, and the claim
      records the one of the current generation. */
  predicate ClaimOk(w: World) {
    && (forall j, k :: 0 <= j < k < |w.applied| ==> w.applied[j].generation < w.applied[k].generation)
    && (forall k :: 0 <= k < |w.applied| ==> w.applied[k].generation <= w.generation)
    && (w.claim.None? ==> forall k :: 0 <= k < |w.applied| ==> w.applied[k].generation < w.generation)
    && (w.claim.Some? ==>
          |w.applied| > 0 && w.applied[|w.applied| - 1].generation == w.generation
          && w.claim.value == w.applied[|w.applied| - 1].ticket.run)
  }

  predicate MarkersOk(w: World) {
    && w.durable <= w.markers
    && (forall p :: 0 <= p < |w.phases| && Holding(w.phases[p]) ==> w.phases[p].ticket.id in w.markers)
    && (forall p :: 0 <= p < |w.phases| && (w.phases[p].EntrySynced? || w.phases[p].Unlinked?) ==>
          w.phases[p].ticket.id in w.durable)
    && (forall p, q :: 0 <= p < q < |w.phases| && Holding(w.phases[p]) && Holding(w.phases[q]) ==>
          w.phases[p].ticket.id != w.phases[q].ticket.id)
    && (forall k :: 0 <= k < |w.minted| ==> w.minted[k].0 in w.durable)
    && (forall k, p :: 0 <= k < |w.minted| && 0 <= p < |w.phases| && Holding(w.phases[p]) ==>
          w.minted[k].0 != w.phases[p].ticket.id)
    && (forall j, k :: 0 <= j < k < |w.minted| ==> w.minted[j].0 != w.minted[k].0)
  }

  predicate TokensOk(w: World) {
    && (forall p :: 0 <= p < |w.phases| && (w.phases[p].Consumed? || w.phases[p].CasSent?) ==>
          (w.phases[p].ticket.id, p) in w.minted)
    && (forall p :: p in w.pending ==> p < |w.phases| && Spent(w.phases[p]) && (w.pending[p].id, p) in w.minted)
    && (forall k :: 0 <= k < |w.applied| ==>
          w.applied[k].process < |w.phases| && Spent(w.phases[w.applied[k].process])
            && w.applied[k].process !in w.pending
          && (w.applied[k].ticket.id, w.applied[k].process) in w.minted)
    && (forall j, k :: 0 <= j < k < |w.applied| ==> w.applied[j].process != w.applied[k].process)
    && (forall k :: 0 <= k < |w.claimed| ==>
          w.claimed[k] < |w.phases| && AppliedFor(w, w.claimed[k])
          && (w.phases[w.claimed[k]].Claimed? || w.phases[w.claimed[k]].Ended?))
    && (forall j, k :: 0 <= j < k < |w.claimed| ==> w.claimed[j] != w.claimed[k])
  }

  /** Only who was told CLAIMED is in that phase. */
  predicate ToldOk(w: World) {
    forall p :: 0 <= p < |w.phases| && w.phases[p].Claimed? ==> p in w.claimed
  }

  /** The claims of the current generation are by tickets of the current epoch. */
  predicate EpochOk(w: World) {
    forall k :: 0 <= k < |w.applied| && w.applied[k].generation == w.generation ==> w.applied[k].ticket.epoch == w.epoch
  }

  predicate Inv(w: World) {
    ClaimOk(w) && MarkersOk(w) && TokensOk(w) && ToldOk(w) && EpochOk(w)
  }

  lemma EpochKept(w: World, a: Action)
    requires ClaimOk(w) && EpochOk(w)
    ensures EpochOk(Step(w, a))
  {
  }

  lemma ToldKept(w: World, a: Action)
    requires ToldOk(w)
    ensures ToldOk(Step(w, a))
  {
    var v := Step(w, a);
    assert w.claimed <= v.claimed;
    if a.Reply? { assert v.claimed == w.claimed || v.claimed == w.claimed + [a.p]; }
  }

  lemma ApplyKeepsClaim(w: World, p: nat)
    requires ClaimOk(w)
    ensures ClaimOk(Step(w, ApplyCas(p)))
  {
  }

  lemma ResetKeepsClaim(w: World, newEpoch: nat)
    requires ClaimOk(w)
    ensures var v := Step(w, Reset(newEpoch));
            && ClaimOk(v)
            && (newEpoch == w.epoch ==> v == w)
            && (newEpoch != w.epoch ==>
                  v.epoch == newEpoch && v.claim.None?
                    && forall k :: 0 <= k < |v.applied| ==> v.applied[k].generation < v.generation)
  {
  }

  /** Only the server's compare-and-set and the reset touch the claim. */
  lemma OthersLeaveClaim(w: World, a: Action)
    requires !a.ApplyCas? && !a.Reset?
    ensures var v := Step(w, a); v.claim == w.claim && v.applied == w.applied && v.generation == w.generation
  {
  }

  lemma ClaimKept(w: World, a: Action)
    requires ClaimOk(w)
    ensures ClaimOk(Step(w, a))
  {
    if a.ApplyCas? {
      ApplyKeepsClaim(w, a.p);
    } else if a.Reset? {
      ResetKeepsClaim(w, a.newEpoch);
    } else {
      OthersLeaveClaim(w, a);
    }
  }

  /** Nothing starts to hold a marker, and the markers stay. */
  lemma FewerHolders(w: World, v: World)
    requires MarkersOk(w)
    requires v.markers == w.markers && v.durable == w.durable && v.minted == w.minted
    requires forall p :: 0 <= p < |v.phases| && Holding(v.phases[p]) ==> p < |w.phases| && v.phases[p] == w.phases[p]
    ensures MarkersOk(v)
  {
  }

  lemma CreateKeepsMarkers(w: World, p: nat)
    requires MarkersOk(w) && At(w, p).Validated? && At(w, p).ticket.id !in w.markers
    ensures MarkersOk(Step(w, CreateMarker(p)))
  {
  }

  lemma SyncsKeepMarkers(w: World, p: nat)
    requires MarkersOk(w)
    ensures MarkersOk(Step(w, SyncMarker(p))) && MarkersOk(Step(w, SyncEntry(p))) && MarkersOk(Step(w, Unlink(p)))
  {
    AdvanceKeepsMarkers(w, p, Step(w, SyncMarker(p)));
    AdvanceKeepsMarkers(w, p, Step(w, SyncEntry(p)));
    AdvanceKeepsMarkers(w, p, Step(w, Unlink(p)));
  }

  /** One holder advances with the same ticket, which is durable once it must be. */
  lemma AdvanceKeepsMarkers(w: World, p: nat, v: World)
    requires MarkersOk(w) && v.markers == w.markers && v.minted == w.minted && w.durable <= v.durable <= v.markers
    requires v.phases == w.phases ||
             (p < |w.phases| && Holding(w.phases[p]) && Holding(At(v, p)) && v.phases == w.phases[p := At(v, p)]
              && At(v, p).ticket == w.phases[p].ticket
              && (At(v, p).EntrySynced? || At(v, p).Unlinked? ==> At(v, p).ticket.id in v.durable))
    ensures MarkersOk(v)
  {
  }

  lemma MintKeepsMarkers(w: World, p: nat)
    requires MarkersOk(w) && At(w, p).Unlinked?
    ensures MarkersOk(Step(w, SyncUnlink(p)))
  {
  }

  lemma PowerLossKeepsMarkers(w: World, kept: set<nat>, restored: Option<Ticket>)
    requires MarkersOk(w)
    ensures MarkersOk(Step(w, PowerLoss(kept, restored)))
  {
  }

  lemma MarkersKept(w: World, a: Action)
    requires MarkersOk(w)
    ensures MarkersOk(Step(w, a))
  {
    match a
    case CreateMarker(p) =>
      if At(w, p).Validated? && At(w, p).ticket.id !in w.markers {
        CreateKeepsMarkers(w, p);
      } else {
        FewerHolders(w, Step(w, a));
      }
    case SyncMarker(p) => SyncsKeepMarkers(w, p);
    case SyncEntry(p) => SyncsKeepMarkers(w, p);
    case Unlink(p) => SyncsKeepMarkers(w, p);
    case SyncUnlink(p) => if At(w, p).Unlinked? { MintKeepsMarkers(w, p); }
    case PowerLoss(kept, restored) => PowerLossKeepsMarkers(w, kept, restored);
    case _ => OtherActionsKeepMarkers(w, a);
  }

  /** Steps outside the ticket directory, and those before the marker. */
  lemma OtherActionsKeepMarkers(w: World, a: Action)
    requires MarkersOk(w)
    requires a.PlaceTicket? || a.Launch? || a.ReadTicket? || a.SendCas? || a.ApplyCas? || a.Reply? || a.Crash?
             || a.Reset?
    ensures MarkersOk(Step(w, a))
  {
    FewerHolders(w, Step(w, a));
  }

  lemma SendKeepsTokens(w: World, p: nat)
    requires TokensOk(w) && At(w, p).Consumed?
    ensures TokensOk(Step(w, SendCas(p)))
  {
  }

  /** The compare-and-set is no longer pending, whether it matched or not. */
  lemma ServedKeepsTokens(w: World, p: nat)
    requires TokensOk(w) && p in w.pending
    ensures TokensOk(w.(pending := w.pending - {p}))
  {
  }

  lemma AppliedKeepsTokens(w: World, p: nat, t: Ticket, claim: Option<nat>)
    requires TokensOk(w) && p < |w.phases| && Spent(w.phases[p]) && (t.id, p) in w.minted && p !in w.pending
    requires !AppliedFor(w, p)
    ensures TokensOk(w.(claim := claim, applied := w.applied + [Applied(w.generation, p, t)]))
  {
    var v := w.(claim := claim, applied := w.applied + [Applied(w.generation, p, t)]);
    forall k | 0 <= k < |w.claimed| ensures AppliedFor(v, w.claimed[k]) {
      assert AppliedFor(w, w.claimed[k]);
      var j :| 0 <= j < |w.applied| && w.applied[j].process == w.claimed[k];
      assert v.applied[j].process == w.claimed[k];
    }
  }

  lemma ApplyKeepsTokens(w: World, p: nat)
    requires TokensOk(w) && p in w.pending
    ensures TokensOk(Step(w, ApplyCas(p)))
  {
    var t := w.pending[p];
    var served := w.(pending := w.pending - {p});
    ServedKeepsTokens(w, p);
    if w.epoch == t.epoch && w.claim.None? { AppliedKeepsTokens(served, p, t, Some(t.run)); }
  }

  lemma MintKeepsTokens(w: World, p: nat)
    requires TokensOk(w) && At(w, p).Unlinked?
    ensures TokensOk(Step(w, SyncUnlink(p)))
  {
    var v := Step(w, SyncUnlink(p));
    assert forall q :: AppliedFor(w, q) <==> AppliedFor(v, q);
    assert forall m :: m in w.minted ==> m in v.minted;
    assert v.minted[|w.minted|] in v.minted;
  }

  /** No token is gained, and only phases before the token or the end are entered. */
  lemma NoNewTokens(w: World, v: World)
    requires TokensOk(w)
    requires v.minted == w.minted && v.pending == w.pending && v.applied == w.applied && v.claimed == w.claimed
    requires |w.phases| <= |v.phases|
    requires forall p :: 0 <= p < |v.phases| && (v.phases[p].Consumed? || v.phases[p].CasSent?) ==>
                           p < |w.phases| && v.phases[p] == w.phases[p]
    requires forall p :: 0 <= p < |w.phases| && Spent(w.phases[p]) ==> v.phases[p] == w.phases[p] || v.phases[p].Ended?
    ensures TokensOk(v)
  {
    assert forall q :: AppliedFor(w, q) <==> AppliedFor(v, q);
  }

  lemma WinKeepsTokens(w: World, p: nat)
    requires TokensOk(w) && At(w, p).CasSent? && p !in w.pending && AppliedFor(w, p)
    ensures TokensOk(Move(w.(claimed := w.claimed + [p]), p, Claimed(At(w, p).ticket)))
  {
    var v := Move(w.(claimed := w.claimed + [p]), p, Claimed(At(w, p).ticket));
    assert forall k :: 0 <= k < |w.claimed| ==> w.claimed[k] != p;
    forall k | 0 <= k < |v.claimed| ensures AppliedFor(v, v.claimed[k]) {
      assert AppliedFor(w, v.claimed[k]);
    }
  }

  lemma ReplyKeepsTokens(w: World, p: nat)
    requires TokensOk(w)
    ensures TokensOk(Step(w, Reply(p)))
  {
    if At(w, p).CasSent? && p !in w.pending && AppliedFor(w, p) {
      WinKeepsTokens(w, p);
    } else {
      NoNewTokens(w, Step(w, Reply(p)));
    }
  }

  lemma DirectoryKeepsTokens(w: World, a: Action)
    requires TokensOk(w)
    requires a.ReadTicket? || a.CreateMarker? || a.SyncMarker? || a.SyncEntry? || a.Unlink?
    ensures TokensOk(Step(w, a))
  {
    NoNewTokens(w, Step(w, a));
  }

  lemma TokensKept(w: World, a: Action)
    requires TokensOk(w)
    ensures TokensOk(Step(w, a))
  {
    match a
    case SendCas(p) => if At(w, p).Consumed? { SendKeepsTokens(w, p); }
    case ApplyCas(p) => if p in w.pending { ApplyKeepsTokens(w, p); }
    case Reply(p) => ReplyKeepsTokens(w, p);
    case SyncUnlink(p) => if At(w, p).Unlinked? { MintKeepsTokens(w, p); }
    case PlaceTicket(_) => NoNewTokens(w, Step(w, a));
    case Launch => NoNewTokens(w, Step(w, a));
    case Crash(p) => NoNewTokens(w, Step(w, a));
    case PowerLoss(_, _) => NoNewTokens(w, Step(w, a));
    case Reset(_) => NoNewTokens(w, Step(w, a));
    case _ => DirectoryKeepsTokens(w, a);
  }

  lemma StepInv(w: World, a: Action)
    requires Inv(w)
    ensures Inv(Step(w, a))
  {
    ClaimKept(w, a);
    MarkersKept(w, a);
    TokensKept(w, a);
    ToldKept(w, a);
    EpochKept(w, a);
  }

  lemma {:induction false} RunInv(w: World, actions: seq<Action>)
    requires Initial(w)
    ensures Inv(Run(w, actions))
  {
    if actions != [] {
      RunInv(w, actions[..|actions| - 1]);
      StepInv(Run(w, actions[..|actions| - 1]), actions[|actions| - 1]);
    }
  }

  /** Who was told CLAIMED stays told so. */
  lemma ClaimedGrows(w: World, a: Action)
    ensures w.claimed <= Step(w, a).claimed
  {
  }

  // ------------------------------------------------------------------- the claims

  /** Under any interleaving of processes, crashes, power losses, lost replies and
      resets, a ticket is consumed at most once. */
  lemma TicketConsumedOnce(w: World, actions: seq<Action>, j: nat, k: nat)
    requires Initial(w)
    requires j < |Run(w, actions).minted| && k < |Run(w, actions).minted|
    requires Run(w, actions).minted[j].0 == Run(w, actions).minted[k].0
    ensures j == k
  {
    RunInv(w, actions);
  }

  /** The compare-and-set a process was told it won. */
  ghost function WonBy(w: World, p: nat): Applied
    requires AppliedFor(w, p)
  {
    var k :| 0 <= k < |w.applied| && w.applied[k].process == p;
    w.applied[k]
  }

  /** Between two resets at most one process run is told CLAIMED; it holds a ticket
      nobody else consumed, for the epoch and run the metadata then named. */
  lemma OneClaimPerReset(w: World, actions: seq<Action>, p: nat, q: nat)
    requires Initial(w)
    requires p in Run(w, actions).claimed && q in Run(w, actions).claimed
    ensures AppliedFor(Run(w, actions), p) && AppliedFor(Run(w, actions), q)
    ensures var v := Run(w, actions);
            && (WonBy(v, p).generation == WonBy(v, q).generation ==> p == q)
            && (WonBy(v, p).ticket.id == WonBy(v, q).ticket.id ==> p == q)
            && (WonBy(v, p).generation == v.generation ==>
                  v.claim == Some(WonBy(v, p).ticket.run) && WonBy(v, p).ticket.epoch == v.epoch)
  {
    RunInv(w, actions);
    WinnersAgree(Run(w, actions), p, q);
  }

  lemma WinnersAgree(v: World, p: nat, q: nat)
    requires Inv(v) && p in v.claimed && q in v.claimed
    ensures AppliedFor(v, p) && AppliedFor(v, q)
    ensures WonBy(v, p).generation == WonBy(v, q).generation ==> p == q
    ensures WonBy(v, p).ticket.id == WonBy(v, q).ticket.id ==> p == q
    ensures WonBy(v, p).generation == v.generation ==>
              v.claim == Some(WonBy(v, p).ticket.run) && WonBy(v, p).ticket.epoch == v.epoch
  {
    var a := WinnerApplied(v, p);
    var b := WinnerApplied(v, q);
    if v.applied[a].ticket.id == v.applied[b].ticket.id { SameTicketSameProcess(v, a, b); }
    if v.applied[a].generation == v.applied[b].generation { SameGenerationSameCas(v, a, b); }
    if v.applied[a].generation == v.generation { CurrentGenerationHolds(v, a); }
  }

  /** Who was told CLAIMED had its compare-and-set applied. */
  lemma WinnerApplied(v: World, p: nat) returns (a: nat)
    requires TokensOk(v) && p in v.claimed
    ensures AppliedFor(v, p) && a < |v.applied| && v.applied[a] == WonBy(v, p) && v.applied[a].process == p
  {
    var i :| 0 <= i < |v.claimed| && v.claimed[i] == p;
    a :| 0 <= a < |v.applied| && v.applied[a] == WonBy(v, p);
  }

  lemma SameGenerationSameCas(v: World, a: nat, b: nat)
    requires ClaimOk(v) && a < |v.applied| && b < |v.applied| && v.applied[a].generation == v.applied[b].generation
    ensures a == b
  {
  }

  lemma CurrentGenerationHolds(v: World, a: nat)
    requires ClaimOk(v) && a < |v.applied| && v.applied[a].generation == v.generation
    ensures v.claim == Some(v.applied[a].ticket.run)
  {
  }

  lemma SameTicketSameProcess(v: World, a: nat, b: nat)
    requires Inv(v) && a < |v.applied| && b < |v.applied| && v.applied[a].ticket.id == v.applied[b].ticket.id
    ensures v.applied[a].process == v.applied[b].process
  {
  }

  // --------------------------------------------------------- epochs, winning, being told

  /** The server applies a pending compare-and-set exactly if the dataset's epoch is
      its ticket's and no claim is set; it is answered once, and a loser changes
      nothing else. */
  lemma CasWinsIff(w: World, p: nat)
    requires Inv(w) && p in w.pending
    ensures var v := Step(w, ApplyCas(p));
            && p !in v.pending
            && (AppliedFor(v, p) <==> w.epoch == w.pending[p].epoch && w.claim.None?)
            && (AppliedFor(v, p) ==> v.claim == Some(w.pending[p].run) && WonBy(v, p).ticket == w.pending[p]
                                     && WonBy(v, p).generation == w.generation)
            && (!AppliedFor(v, p) ==> v == w.(pending := v.pending))
  {
    var v := Step(w, ApplyCas(p));
    assert !AppliedFor(w, p);
    if w.epoch == w.pending[p].epoch && w.claim.None? {
      assert v.applied[|w.applied|].process == p;
      assert forall k :: 0 <= k < |w.applied| ==> v.applied[k] == w.applied[k] && w.applied[k].process != p;
    }
  }

  /** An answered process is told CLAIMED exactly if its compare-and-set was applied. */
  lemma ReplyTellsIff(w: World, p: nat)
    requires Inv(w) && At(w, p).CasSent? && p !in w.pending
    ensures var v := Step(w, Reply(p));
            && (p in v.claimed <==> AppliedFor(w, p))
            && (At(v, p).Claimed? <==> AppliedFor(w, p)) && (At(v, p).Ended? <==> !AppliedFor(w, p))
  {
    assert p !in w.claimed;
  }

  /** A reset is what changes the epoch, and begins a generation. */
  lemma {:induction false} GenerationHasOneEpoch(w: World, actions: seq<Action>, k: nat)
    requires k <= |actions|
    ensures Run(w, actions[..k]).generation <= Run(w, actions).generation
    ensures Run(w, actions[..k]).generation == Run(w, actions).generation ==>
              Run(w, actions[..k]).epoch == Run(w, actions).epoch
  {
    var n := |actions| - 1;
    if k <= n {
      assert actions[..n][..k] == actions[..k];
      GenerationHasOneEpoch(w, actions[..n], k);
    } else {
      assert actions[..k] == actions;
    }
  }

  /** Every compare-and-set ever applied carried the epoch that the dataset had
      throughout its generation. */
  lemma {:induction false} AppliedInItsEpoch(w: World, actions: seq<Action>, a: nat, k: nat)
    requires Initial(w) && a < |Run(w, actions).applied| && k <= |actions|
    requires Run(w, actions[..k]).generation == Run(w, actions).applied[a].generation
    ensures Run(w, actions[..k]).epoch == Run(w, actions).applied[a].ticket.epoch
  {
    if k == |actions| {
      RunInv(w, actions);
      assert actions[..k] == actions;
    } else {
      var n := |actions| - 1;
      var front := actions[..n];
      assert front[..k] == actions[..k];
      var before := Run(w, front);
      AppliedGrows(before, actions[n]);
      if a < |before.applied| {
        assert Run(w, actions).applied[a] == before.applied[a];
        AppliedInItsEpoch(w, front, a, k);
      } else {
        GenerationHasOneEpoch(w, front, k);
      }
    }
  }

  /** A step applies at most one compare-and-set, for the epoch of that moment. */
  lemma AppliedGrows(w: World, a: Action)
    ensures var v := Step(w, a);
            && w.applied <= v.applied && |v.applied| <= |w.applied| + 1
            && (|w.applied| < |v.applied| ==>
                  v.applied[|w.applied|].generation == w.generation && v.applied[|w.applied|].ticket.epoch == w.epoch)
  {
  }

  /** Every ticket a process carries, has sent or has won with names the run that the
      process asked for when it read it. */
  predicate ReadByRun(w: World, actions: seq<Action>) {
    && (forall p :: 0 <= p < |w.phases| && Carries(w.phases[p]) ==> ReadTicket(p, w.phases[p].ticket.run) in actions)
    && (forall p :: p in w.pending ==> ReadTicket(p, w.pending[p].run) in actions)
    && (forall k :: 0 <= k < |w.applied| ==> ReadTicket(w.applied[k].process, w.applied[k].ticket.run) in actions)
  }

  predicate Carries(phase: Phase) {
    !phase.Starting? && !phase.Ended?
  }

  lemma {:induction false} TicketWasForItsRun(w: World, actions: seq<Action>)
    requires Initial(w)
    ensures ReadByRun(Run(w, actions), actions)
  {
    if actions != [] {
      var n := |actions| - 1;
      TicketWasForItsRun(w, actions[..n]);
      ReadByRunKept(Run(w, actions[..n]), actions[..n], actions[n]);
      assert actions == actions[..n] + [actions[n]];
    }
  }

  lemma ReadByRunKept(w: World, actions: seq<Action>, a: Action)
    requires ReadByRun(w, actions)
    ensures ReadByRun(Step(w, a), actions + [a])
  {
    assert forall b :: b in actions ==> b in actions + [a];
    assert a in actions + [a];
  }

  /** The claim in the metadata is the one this process made. */
  predicate MadeTheClaim(v: World, p: nat) {
    v.claim.Some? && |v.applied| > 0 && v.applied[|v.applied| - 1].process == p
  }

  /** A process told CLAIMED made the current claim exactly if no reset came after
      its compare-and-set. */
  lemma ClaimedHoldsIff(v: World, p: nat)
    requires Inv(v) && p in v.claimed
    ensures AppliedFor(v, p)
    ensures MadeTheClaim(v, p) <==> WonBy(v, p).generation == v.generation
  {
    var a := WinnerApplied(v, p);
    var last := |v.applied| - 1;
    if v.applied[a].generation == v.generation {
      CurrentGenerationHolds(v, a);
      SameGenerationSameCas(v, a, last);
    }
  }

  /** One process consumes a ticket and has its claim applied; a reset comes before
      the reply. */
  function LateClaim(t: Ticket, newEpoch: nat): seq<Action> {
    [PlaceTicket(t), Launch, ReadTicket(0, t.run), CreateMarker(0), SyncMarker(0), SyncEntry(0),
     Unlink(0), SyncUnlink(0), SendCas(0), ApplyCas(0), Reset(newEpoch), Reply(0)]
  }

  lemma RunNext(w: World, actions: seq<Action>, k: nat)
    requires k < |actions|
    ensures Run(w, actions[..k + 1]) == Step(Run(w, actions[..k]), actions[k])
  {
    assert actions[..k + 1][..k] == actions[..k];
  }

  function Three(w: World, a: Action, b: Action, c: Action): World {
    Step(Step(Step(w, a), b), c)
  }

  /** Three actions on, from a known world. */
  lemma RunThree(w: World, actions: seq<Action>, k: nat, v: World)
    requires k + 3 <= |actions| && Run(w, actions[..k]) == v
    ensures Run(w, actions[..k + 3]) == Three(v, actions[k], actions[k + 1], actions[k + 2])
  {
    RunNext(w, actions, k);
    RunNext(w, actions, k + 1);
    RunNext(w, actions, k + 2);
  }

  lemma Reads(w: World, t: Ticket)
    requires Initial(w)
    ensures Three(w, PlaceTicket(t), Launch, ReadTicket(0, t.run)) ==
            w.(ticketFile := Some(t), phases := [Validated(t)])
  {
  }

  lemma Marks(w: World, t: Ticket)
    requires w.phases == [Validated(t)] && t.id !in w.markers
    ensures Three(w, CreateMarker(0), SyncMarker(0), SyncEntry(0)) ==
              w.(markers := w.markers + {t.id}, durable := w.durable + {t.id}, phases := [EntrySynced(t)])
  {
  }

  lemma Sends(w: World, t: Ticket)
    requires w.phases == [EntrySynced(t)] && w.minted == [] && w.pending == map[]
    ensures Three(w, Unlink(0), SyncUnlink(0), SendCas(0)) ==
              w.(ticketFile := None, phases := [CasSent(t)], minted := [(t.id, 0)], pending := map[0 := t])
  {
  }

  lemma AnsweredLate(w: World, t: Ticket, newEpoch: nat)
    requires w.phases == [CasSent(t)] && w.pending == map[0 := t] && w.applied == [] && w.claimed == []
    requires w.epoch == t.epoch && newEpoch != w.epoch && w.claim.None?
    ensures var v := Three(w, ApplyCas(0), Reset(newEpoch), Reply(0));
            v.claimed == [0] && v.claim.None? && v.applied == [Applied(w.generation, 0, t)]
              && v.generation == w.generation + 1
  {
    var reset := Step(Step(w, ApplyCas(0)), Reset(newEpoch));
    assert reset.pending == map[] && reset.applied == [Applied(w.generation, 0, t)];
    assert reset.applied[0].process == 0;
  }

  /** The reply may arrive after a later reset: from any initial world, the process is
      told CLAIMED for a generation that is over. */
  lemma ClaimMayArriveLate(w: World, t: Ticket, newEpoch: nat)
    requires Initial(w) && w.epoch == t.epoch && t.id !in w.markers && newEpoch != w.epoch
    ensures var v := Run(w, LateClaim(t, newEpoch));
            0 in v.claimed && !MadeTheClaim(v, 0) && AppliedFor(v, 0) && WonBy(v, 0).generation < v.generation
  {
    var a := LateClaim(t, newEpoch);
    SentAfterNine(w, t, a);
    RunThree(w, a, 9, SentWorld(w, t));
    AnsweredLate(SentWorld(w, t), t, newEpoch);
    assert a[..12] == a;
    assert Run(w, a).applied[0].process == 0;
  }

  /** The world in which one process has consumed its ticket and sent its claim. */
  function SentWorld(w: World, t: Ticket): World {
    w.(markers := w.markers + {t.id}, durable := w.durable + {t.id}, ticketFile := None, phases := [CasSent(t)],
       minted := [(t.id, 0)], pending := map[0 := t])
  }

  function ReadWorld(w: World, t: Ticket): World {
    w.(ticketFile := Some(t), phases := [Validated(t)])
  }

  function MarkedWorld(w: World, t: Ticket): World {
    w.(ticketFile := Some(t), markers := w.markers + {t.id}, durable := w.durable + {t.id}, phases := [EntrySynced(t)])
  }

  predicate Claims(a: seq<Action>, t: Ticket) {
    && |a| >= 9
    && a[0] == PlaceTicket(t) && a[1] == Launch && a[2] == ReadTicket(0, t.run)
    && a[3] == CreateMarker(0) && a[4] == SyncMarker(0) && a[5] == SyncEntry(0)
    && a[6] == Unlink(0) && a[7] == SyncUnlink(0) && a[8] == SendCas(0)
  }

  lemma ReadAfterThree(w: World, t: Ticket, a: seq<Action>)
    requires Initial(w) && Claims(a, t)
    ensures Run(w, a[..3]) == ReadWorld(w, t)
  {
    assert a[..0] == [];
    Reads(w, t);
    RunThree(w, a, 0, w);
  }

  lemma MarkedAfterSix(w: World, t: Ticket, a: seq<Action>)
    requires Initial(w) && Claims(a, t) && t.id !in w.markers
    ensures Run(w, a[..6]) == MarkedWorld(w, t)
  {
    ReadAfterThree(w, t, a);
    Marks(ReadWorld(w, t), t);
    RunThree(w, a, 3, ReadWorld(w, t));
  }

  lemma SentAfterNine(w: World, t: Ticket, a: seq<Action>)
    requires Initial(w) && Claims(a, t) && t.id !in w.markers
    ensures Run(w, a[..9]) == SentWorld(w, t)
  {
    MarkedAfterSix(w, t, a);
    Sends(MarkedWorld(w, t), t);
    RunThree(w, a, 6, MarkedWorld(w, t));
  }

  /** One process, undisturbed from its ticket to its answer. */
  function Undisturbed(t: Ticket): seq<Action> {
    LateClaim(t, 0)[..10] + [Reply(0)]
  }

  /** An undisturbed process with an unused ticket is told CLAIMED exactly if the ticket
      is of the dataset's epoch; then the claim is its run, otherwise there is none. */
  lemma UndisturbedClaim(w: World, t: Ticket)
    requires Initial(w) && t.id !in w.markers
    ensures var v := Run(w, Undisturbed(t));
            && (0 in v.claimed <==> w.epoch == t.epoch)
            && v.claim == (if w.epoch == t.epoch then Some(t.run) else None)
            && (w.epoch == t.epoch ==> At(v, 0) == Claimed(t))
  {
    var a := Undisturbed(t);
    SentAfterNine(w, t, a);
    RunNext(w, a, 9);
    RunNext(w, a, 10);
    Answered(SentWorld(w, t), t);
    assert a[..11] == a;
  }

  lemma Answered(w: World, t: Ticket)
    requires w.phases == [CasSent(t)] && w.pending == map[0 := t] && w.applied == [] && w.claimed == [] && w.claim.None?
    ensures var v := Step(Step(w, ApplyCas(0)), Reply(0));
            && v.claimed == (if w.epoch == t.epoch then [0] else [])
            && v.claim == (if w.epoch == t.epoch then Some(t.run) else None)
            && (w.epoch == t.epoch ==> v.phases == [Claimed(t)])
  {
    var applied := Step(w, ApplyCas(0));
    assert applied.pending == map[];
    if w.epoch == t.epoch { assert applied.applied[0].process == 0; }
  }
}
