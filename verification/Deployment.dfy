/** From the claim to the open gate: processes, resets and crashes together with the
    gates of the processes that were told CLAIMED, in any order of events. */
module Deployment {
  import opened Base
  import opened WriteAuthority
  import opened Bootstrap

  /** What the holder of a claim can ask of the engine; tokens are named by index. */
  datatype GateEvent =
    | Create(process: nat)
    | TakeAuthority(r: nat)
    | Compose(authority: nat, composes: bool)
    | Complete(r: nat, registryReceipt: nat, provenance: bool)
    | Mark(r: nat, proof: nat, callback: Callback)
    | Authorize(r: nat, receipt: nat, callback: Callback)
    | Look(r: nat, lifecycleCurrent: bool)
    | Shut(r: nat)

  datatype Event = Outside(action: Action) | Gate(gate: GateEvent)

  /** If p's claim is of the current generation, it is the one set, and its ticket is of
      the current epoch. */
  ghost predicate OfItsEpoch(w: World, p: nat)
    requires AppliedFor(w, p)
  {
    WonBy(w, p).generation == w.generation ==>
      w.claim == Some(WonBy(w, p).ticket.run) && WonBy(w, p).ticket.epoch == w.epoch
  }

  /** A callback that shuts its gate down and yet answers "current". */
  predicate Contradicts(e: Event) {
    e.Gate? && (e.gate.Mark? || e.gate.Authorize?) && e.gate.callback == Callback(true, true)
  }

  // ------------------------------------------------------------------ the gates' history

  /** Every ended gate stays ended, and every shut one shut, from then on. */
  predicate EndsStayThroughout(history: seq<seq<Runtime>>) {
    forall i, j :: 0 <= i <= j < |history| ==> EndsStay(history[i], history[j])
  }

  lemma Longer(history: seq<seq<Runtime>>, next: seq<Runtime>)
    requires history != []
    ensures EndsStayThroughout(history + [next]) <==> EndsStayThroughout(history)
                                                      && EndsStay(history[|history| - 1], next)
  {
    var longer, n := history + [next], |history|;
    assert forall i :: 0 <= i < n ==> longer[i] == history[i];
    if EndsStayThroughout(longer) {
      assert EndsStay(longer[n - 1], longer[n]);
      forall i, j | 0 <= i <= j < n ensures EndsStay(history[i], history[j]) {
        assert EndsStay(longer[i], longer[j]);
      }
    }
    if EndsStayThroughout(history) && EndsStay(history[n - 1], next) {
      forall i, j | 0 <= i <= j < n + 1 ensures EndsStay(longer[i], longer[j]) {
        if j == n && i < n { assert EndsStay(history[i], history[n - 1]); }
      }
    }
  }

  /** The runtimes opened so far: each spent its only receipt. */
  predicate OpenedOk(opens: seq<nat>, receipts: seq<Token>, runtimes: nat) {
    && (forall k :: 0 <= k < |opens| ==> opens[k] < runtimes && Used(receipts, opens[k]))
    && (forall i, j :: 0 <= i < j < |opens| ==> opens[i] != opens[j])
  }

  predicate OpenOnesListed(runtimes: seq<Runtime>, opens: seq<nat>) {
    forall r :: 0 <= r < |runtimes| && runtimes[r].gate.Open? ==> r in opens
  }

  predicate ClaimsOk(runtimes: seq<Runtime>, claimed: seq<nat>) {
    forall r :: 0 <= r < |runtimes| ==> runtimes[r].claim in claimed
  }

  predicate SameGates(before: seq<Runtime>, after: seq<Runtime>) {
    && |before| == |after|
    && forall r :: 0 <= r < |before| ==> after[r].gate == before[r].gate && after[r].claim == before[r].claim
  }

  function WorldAudit(w: World): Audit {
    if Inv(w) then Passed else Flawed
  }

  function EngineAudit(v: View): Audit {
    if Sound(v) then Passed else Flawed
  }

  lemma WorldStaysSound(w: World, a: Action)
    requires WorldAudit(w).Passed?
    ensures WorldAudit(WriteAuthority.Step(w, a)).Passed?
    ensures forall p :: p in w.claimed ==> p in WriteAuthority.Step(w, a).claimed
  {
    StepInv(w, a);
    ClaimedGrows(w, a);
  }

  class Deployment {
    const engine: Engine
    var world: World
    ghost var history: seq<seq<Runtime>>
    ghost var opens: seq<nat>            // runtimes in the order their gates opened
    ghost var lost: bool                 // some shutdown was overwritten
    ghost var handled: seq<Event>        // every event so far

    ghost predicate Valid()
      reads this, engine
    {
      Check().Passed?
    }

    ghost function Check(): Audit
      reads this, engine
    {
      if
        && EngineAudit(engine.Now()).Passed? && WorldAudit(world).Passed?
        && ClaimsOk(engine.runtimes, world.claimed)
        && OpenedOk(opens, engine.receipts, |engine.runtimes|) && OpenOnesListed(engine.runtimes, opens)
        && history != [] && history[|history| - 1] == engine.runtimes
        && (EndsStayThroughout(history) <==> !lost)
      then Passed else Flawed
    }

    constructor (start: World)
      requires Initial(start)
      ensures Valid() && fresh(engine) && world == start && opens == [] && !lost && engine.runtimes == []
      ensures engine.usedClaims == {} && engine.authorities == [] && engine.registryReceipts == []
              && engine.proofs == [] && engine.receipts == [] && handled == []
    {
      engine := new Engine();
      world := start;
      opens, lost, handled := [], false, [];
      history := [[]];
      new;
      history := [engine.runtimes];
    }

    ghost method Observe()
      requires history != []
      modifies `history, `lost
      ensures history == old(history) + [engine.runtimes]
      ensures lost == (old(lost) || !EndsStay(old(history)[|old(history)| - 1], engine.runtimes))
      ensures (EndsStayThroughout(old(history)) <==> !old(lost)) ==> (EndsStayThroughout(history) <==> !lost)
    {
      Longer(history, engine.runtimes);
      lost := lost || !EndsStay(history[|history| - 1], engine.runtimes);
      history := history + [engine.runtimes];
    }

    /** The process that owns runtime r still runs and was told CLAIMED. */
    predicate Alive(r: nat)
      reads this, engine
    {
      r < |engine.runtimes| && At(world, engine.runtimes[r].claim).Claimed?
    }

    method Act(a: Action)
      requires Valid()
      modifies `world, `handled
      ensures Valid() && world == WriteAuthority.Step(old(world), a)
      ensures handled == old(handled) + [Outside(a)]
    {
      handled := handled + [Outside(a)];
      WorldStaysSound(world, a);
      world := WriteAuthority.Step(world, a);
    }

    method StartGate(process: nat)
      requires Valid()
      modifies engine`runtimes, engine`usedClaims, `history, `lost, `handled
      ensures Valid() && lost == old(lost) && handled == old(handled) + [Gate(Create(process))]
      ensures var starts := At(world, process).Claimed? && process !in old(engine.usedClaims);
              engine.runtimes == old(engine.runtimes) + if starts then [Runtime(process, Composing, false, false)]
                else []
    {
      handled := handled + [Gate(Create(process))];
      if !At(world, process).Claimed? { return; }
      ghost var before := engine.runtimes;
      assert process in world.claimed;
      var _ := engine.CreateBootstrap(process);
      Observe();
    }

    /** A composition step goes through: its runtime is alive and still composing, and
        the token it spends is unused and its own. */
    predicate Proceeds(e: GateEvent)
      reads this, engine
    {
      match e
      case TakeAuthority(r) => Alive(r) && engine.runtimes[r].gate.Composing? && !engine.runtimes[r].authorityTaken
      case Compose(a, composes) =>
        && a < |engine.authorities| && !engine.authorities[a].used && Alive(engine.authorities[a].runtime)
        && engine.runtimes[engine.authorities[a].runtime].gate.Composing? && composes
      case Complete(r, receipt, provenance) =>
        && Alive(r) && engine.runtimes[r].gate.Composing? && provenance
        && receipt < |engine.registryReceipts| && engine.registryReceipts[receipt] == Token(r, false)
      case Mark(r, proof, callback) =>
        && Alive(r) && engine.runtimes[r].gate.Composing? && callback.current
        && proof < |engine.proofs| && engine.proofs[proof] == Token(r, false)
      case Authorize(r, receipt, callback) =>
        && Alive(r) && engine.runtimes[r].gate.Authorizable? && callback.current
        && receipt < |engine.receipts| && engine.receipts[receipt] == Token(r, false)
      case _ => false
    }

    /** The token a step that goes through adds. */
    function Minting(e: GateEvent): seq<Token>
      reads this, engine
    {
      if !Proceeds(e) then []
      else
        match e
        case TakeAuthority(r) => [Token(r, false)]
        case Compose(a, _) => [Token(engine.authorities[a].runtime, false)]
        case Complete(r, _, _) => [Token(r, false)]
        case Mark(r, _, _) => [Token(r, false)]
        case _ => []
    }

    method Shape(e: GateEvent)
      requires Valid()
      requires e.TakeAuthority? || e.Compose? || e.Complete?
      modifies engine`runtimes, engine`authorities, engine`registryReceipts, engine`proofs, `history, `lost, `handled
      ensures Valid() && lost == old(lost) && handled == old(handled) + [Gate(e)]
      ensures |engine.runtimes| == |old(engine.runtimes)|
      ensures e.TakeAuthority? ==> engine.authorities == old(engine.authorities + Minting(e))
      ensures e.Compose? ==> engine.registryReceipts == old(engine.registryReceipts + Minting(e))
      ensures e.Complete? ==> engine.proofs == old(engine.proofs + Minting(e))
      ensures !e.TakeAuthority? && !e.Compose? ==> engine.authorities == old(engine.authorities)
      ensures e.TakeAuthority? ==> engine.registryReceipts == old(engine.registryReceipts)
      ensures !e.Complete? ==> engine.proofs == old(engine.proofs)
      ensures old(Proceeds(e)) ==> SameGates(old(engine.runtimes), engine.runtimes)
    {
      handled := handled + [Gate(e)];
      ShapeGate(e);
      Observe();
      assert history[|history| - 1] == engine.runtimes;
    }

    method ShapeGate(e: GateEvent)
      requires Valid() && (e.TakeAuthority? || e.Compose? || e.Complete?)
      modifies engine`runtimes, engine`authorities, engine`registryReceipts, engine`proofs
      ensures EngineAudit(engine.Now()).Passed?
      ensures EndsStay(old(engine.runtimes), engine.runtimes) && SameClaims(old(engine.runtimes), engine.runtimes)
      ensures OpensAtMost(old(engine.runtimes), engine.runtimes, None)
      ensures e.TakeAuthority? ==> engine.authorities == old(engine.authorities + Minting(e))
      ensures e.Compose? ==> engine.registryReceipts == old(engine.registryReceipts + Minting(e))
      ensures e.Complete? ==> engine.proofs == old(engine.proofs + Minting(e))
      ensures !e.TakeAuthority? && !e.Compose? ==> engine.authorities == old(engine.authorities)
      ensures e.TakeAuthority? ==> engine.registryReceipts == old(engine.registryReceipts)
      ensures !e.Complete? ==> engine.proofs == old(engine.proofs)
      ensures old(Proceeds(e)) ==> SameGates(old(engine.runtimes), engine.runtimes)
    {
      match e
      case TakeAuthority(r) =>
        if Alive(r) { var _ := engine.TakeRegistryAuthority(r); }
      case Compose(authority, composes) =>
        if authority < |engine.authorities| && Alive(engine.authorities[authority].runtime) {
          var _ := engine.ComposeRegistry(authority, composes);
        }
      case Complete(r, receipt, provenance) =>
        if Alive(r) && receipt < |engine.registryReceipts| {
          var _ := engine.CompleteComposition(r, receipt, provenance);
        }
    }

    method LookAt(e: GateEvent)
      requires Valid() && (e.Look? || e.Shut?)
      modifies engine`runtimes, `history, `lost, `handled
      ensures Valid() && lost == old(lost) && handled == old(handled) + [Gate(e)]
      ensures !old(Alive(e.r)) ==> engine.runtimes == old(engine.runtimes)
      ensures old(Alive(e.r)) ==>
                var gate := old(engine.runtimes)[e.r].gate;
                var shuts := e.Shut? || (gate.Open? && !e.lifecycleCurrent && old(engine.runtimes)[e.r].watched);
                engine.runtimes == if shuts
                  then old(engine.runtimes)[e.r := old(engine.runtimes)[e.r].(gate := Shutdown)]
                                   else old(engine.runtimes)
    {
      handled := handled + [Gate(e)];
      if Alive(e.r) {
        if e.Look? {
          var _ := engine.GetState(e.r, e.lifecycleCurrent);
        } else {
          engine.BeginShutdown(e.r);
        }
      }
      Observe();
    }

    /** Mark completes the composition of r exactly as the engine does, if r is alive. */
    method MarkGate(r: nat, proof: nat, callback: Callback) returns (ghost during: seq<Runtime>)
      requires Valid() && Alive(r) && proof < |engine.proofs|
      modifies engine`runtimes, engine`proofs, engine`receipts
      ensures EngineAudit(engine.Now()).Passed? && SameClaims(old(engine.runtimes), engine.runtimes)
      ensures OpenedOk(opens, engine.receipts, |engine.runtimes|) && OpenOnesListed(engine.runtimes, opens)
      ensures EndsStay(old(engine.runtimes), during)
      ensures EndsStay(during, engine.runtimes) || callback == Callback(true, true)
      ensures engine.receipts == old(engine.receipts + Minting(Mark(r, proof, callback)))
      ensures old(Proceeds(Mark(r, proof, callback))) ==>
                r < |engine.runtimes| && engine.runtimes[r].gate.Authorizable?
    {
      ghost var receipts := engine.receipts;
      var receipt;
      receipt, during := engine.MarkCompositionComplete(r, proof, callback);
      OpenedGrows(opens, receipts, engine.receipts, |engine.runtimes|);
    }

    method MarkComplete(r: nat, proof: nat, callback: Callback)
      requires Valid()
      modifies engine`runtimes, engine`proofs, engine`receipts, `history, `lost, `handled
      ensures Valid() && (lost && !old(lost) ==> callback == Callback(true, true))
      ensures var e := Mark(r, proof, callback);
              && handled == old(handled) + [Gate(e)] && engine.receipts == old(engine.receipts + Minting(e))
              && SameClaims(old(engine.runtimes), engine.runtimes)
              && (old(Proceeds(e)) ==> r < |engine.runtimes| && engine.runtimes[r].gate.Authorizable?)
    {
      handled := handled + [Gate(Mark(r, proof, callback))];
      if !Alive(r) || proof >= |engine.proofs| { return; }
      ghost var during := MarkGate(r, proof, callback);
      Seen(during);
    }

    /** The gates right after a callback and now. */
    ghost method Seen(during: seq<Runtime>)
      requires history != [] && (EndsStayThroughout(history) <==> !lost)
      modifies `history, `lost
      ensures history == old(history) + [during, engine.runtimes] && (EndsStayThroughout(history) <==> !lost)
      ensures lost == (old(lost) || !EndsStay(old(history)[|old(history)| - 1], during)
                       || !EndsStay(during, engine.runtimes))
    {
      Longer(history, during);
      Longer(history + [during], engine.runtimes);
      lost := lost || !EndsStay(history[|history| - 1], during) || !EndsStay(during, engine.runtimes);
      history := history + [during] + [engine.runtimes];
    }

    method AuthorizeGate(r: nat, receipt: nat, callback: Callback)
      requires Valid()
      modifies engine`runtimes, engine`receipts, `history, `lost, `opens, `handled
      ensures Valid() && (lost && !old(lost) ==> callback == Callback(true, true))
      ensures var e := Authorize(r, receipt, callback);
              && handled == old(handled) + [Gate(e)]
              && opens == old(opens) + (if old(Proceeds(e)) then [r] else [])
              && (old(Proceeds(e)) ==> r < |engine.runtimes| && engine.runtimes[r].gate.Open?)
    {
      handled := handled + [Gate(Authorize(r, receipt, callback))];
      if !Alive(r) || receipt >= |engine.receipts| { return; }
      ghost var during := OpenGate(r, receipt, callback);
      Seen(during);
    }

    method OpenGate(r: nat, receipt: nat, callback: Callback) returns (ghost during: seq<Runtime>)
      requires Valid() && r < |engine.runtimes| && receipt < |engine.receipts|
      modifies engine`runtimes, engine`receipts, `opens
      ensures EngineAudit(engine.Now()).Passed? && SameClaims(old(engine.runtimes), engine.runtimes)
      ensures OpenedOk(opens, engine.receipts, |engine.runtimes|) && OpenOnesListed(engine.runtimes, opens)
      ensures var nowOpens := old(engine.runtimes)[r].gate.Authorizable?
                             && old(engine.receipts)[receipt] == Token(r, false) && callback.current;
              && opens == old(opens) + (if nowOpens then [r] else [])
              && (nowOpens ==> r < |engine.runtimes| && engine.runtimes[r].gate.Open?)
      ensures EndsStay(old(engine.runtimes), during)
      ensures EndsStay(during, engine.runtimes) || callback == Callback(true, true)
    {
      ghost var receipts := engine.receipts;
      assert RuntimeOk(engine.Now(), r);
      var nowOpen;
      nowOpen, during := engine.AuthorizeReady(r, receipt, callback);
      if nowOpen {
        OpenedOnce(opens, receipts, receipt, r, |engine.runtimes|);
        opens := opens + [r];
      }
    }

    method Step(e: Event)
      requires Valid()
      modifies this, engine
      ensures Valid() && (lost && !old(lost) ==> Contradicts(e))
      ensures handled == old(handled) + [e]
      ensures world == if e.Outside? then WriteAuthority.Step(old(world), e.action) else old(world)
      ensures opens == old(opens)
              || (e.Gate? && e.gate.Authorize? && opens == old(opens) + [e.gate.r] && old(Alive(e.gate.r)))
    {
      match e
      case Outside(action) => Act(action);
      case Gate(gate) =>
        match gate {
          case Create(process) => StartGate(process);
          case Mark(r, proof, callback) => MarkComplete(r, proof, callback);
          case Authorize(r, receipt, callback) => AuthorizeGate(r, receipt, callback);
          case Look(_, _) => LookAt(gate);
          case Shut(_) => LookAt(gate);
          case _ => Shape(gate);
        }
    }
  }

  lemma OpenedGrows(opens: seq<nat>, before: seq<Token>, after: seq<Token>, runtimes: nat)
    requires OpenedOk(opens, before, runtimes) && before <= after
    ensures OpenedOk(opens, after, runtimes)
  {
    forall k | 0 <= k < |opens| ensures Used(after, opens[k]) {
      var i :| 0 <= i < |before| && before[i] == Token(opens[k], true);
      assert after[i] == Token(opens[k], true);
    }
  }

  /** Opening spends a receipt, so it happens once for each runtime. */
  lemma OpenedOnce(opens: seq<nat>, receipts: seq<Token>, receipt: nat, r: nat, runtimes: nat)
    requires OpenedOk(opens, receipts, runtimes) && r < runtimes && receipt < |receipts|
             && receipts[receipt] == Token(r, false)
    requires AtMostOne(receipts, r)
    ensures OpenedOk(opens + [r], receipts[receipt := Token(r, true)], runtimes)
  {
    Bootstrap.Spent(receipts, receipt);
    NotUsedTwice(receipts, receipt);
  }

  /** Every run from any initial world: each open gate has its chain and its claim, each
      gate opens at most once, no two gates that ever opened were claimed between the
      same two resets, and ended gates stay ended unless a callback both shut its own
      gate down and answered "current". */
  method RunDeployment(start: World, events: seq<Event>) returns (d: Deployment)
    requires Initial(start)
    ensures fresh(d) && d.Valid() && d.handled == events && d.world == Run(start, ActionsOf(events))
    ensures forall r: nat | r < |d.engine.runtimes| && d.engine.runtimes[r].gate.Open? ::
              FullChain(d.engine.Now(), r) && d.engine.runtimes[r].claim in d.world.claimed
    ensures forall r: nat | r < |d.engine.runtimes| && d.engine.runtimes[r].gate.Open? :: r in d.opens
    ensures forall i | 0 <= i < |d.opens| ::
              var p := d.engine.runtimes[d.opens[i]].claim;
              AppliedFor(d.world, p) && OfItsEpoch(d.world, p)
    ensures forall i, j | 0 <= i < |d.opens| && 0 <= j < |d.opens| && i != j ::
              var p, q := d.engine.runtimes[d.opens[i]].claim, d.engine.runtimes[d.opens[j]].claim;
              && d.opens[i] != d.opens[j] && AppliedFor(d.world, p) && AppliedFor(d.world, q)
              && WonBy(d.world, p).generation != WonBy(d.world, q).generation
    ensures (forall k :: 0 <= k < |events| ==> !Contradicts(events[k])) ==> EndsStayThroughout(d.history)
  {
    d := Drive(start, events);
    forall r: nat | r < |d.engine.runtimes| && d.engine.runtimes[r].gate.Open? ensures FullChain(d.engine.Now(), r) {
      OpenNeedsTheChain(d.engine.Now(), r);
    }
    OpenedByClaims(d.world, d.opens, d.engine.runtimes);
  }

  /** Every gate that opened has the claim of its own generation and epoch; two of them
      are of different generations. */
  lemma OpenedByClaims(w: World, opens: seq<nat>, runtimes: seq<Runtime>)
    requires Inv(w) && ClaimsOk(runtimes, w.claimed)
    requires forall r, s :: 0 <= r < s < |runtimes| ==> runtimes[r].claim != runtimes[s].claim
    requires forall k :: 0 <= k < |opens| ==> opens[k] < |runtimes|
    requires forall i, j :: 0 <= i < j < |opens| ==> opens[i] != opens[j]
    ensures forall i | 0 <= i < |opens| ::
              var p := runtimes[opens[i]].claim; AppliedFor(w, p) && OfItsEpoch(w, p)
    ensures forall i, j | 0 <= i < |opens| && 0 <= j < |opens| && i != j ::
              var p, q := runtimes[opens[i]].claim, runtimes[opens[j]].claim;
              && opens[i] != opens[j] && AppliedFor(w, p) && AppliedFor(w, q)
              && WonBy(w, p).generation != WonBy(w, q).generation
  {
    forall i | 0 <= i < |opens|
      ensures var p := runtimes[opens[i]].claim; AppliedFor(w, p) && OfItsEpoch(w, p)
    {
      WinnersAgree(w, runtimes[opens[i]].claim, runtimes[opens[i]].claim);
    }
    forall i, j | 0 <= i < |opens| && 0 <= j < |opens| && i != j
      ensures var p, q := runtimes[opens[i]].claim, runtimes[opens[j]].claim;
              && opens[i] != opens[j] && AppliedFor(w, p) && AppliedFor(w, q)
              && WonBy(w, p).generation != WonBy(w, q).generation
    {
      WinnersAgree(w, runtimes[opens[i]].claim, runtimes[opens[j]].claim);
    }
  }

  /** What happened outside the gates. */
  function ActionsOf(events: seq<Event>): seq<Action> {
    if events == [] then []
    else
      var last := events[|events| - 1];
      ActionsOf(events[..|events| - 1]) + if last.Outside? then [last.action] else []
  }

  predicate SomeContradicts(events: seq<Event>) {
    exists m :: 0 <= m < |events| && Contradicts(events[m])
  }

  lemma OneMoreEvent(start: World, events: seq<Event>)
    requires events != []
    ensures var n := |events| - 1;
            var before := Run(start, ActionsOf(events[..n]));
            Run(start, ActionsOf(events)) == if events[n].Outside? then WriteAuthority.Step(before, events[n].action)
                                             else before
    ensures events[..|events| - 1] + [events[|events| - 1]] == events
    ensures SomeContradicts(events) <==> SomeContradicts(events[..|events| - 1]) || Contradicts(events[|events| - 1])
  {
    var n := |events| - 1;
    if events[n].Outside? {
      RunOneMore(start, ActionsOf(events[..n]), events[n].action);
    } else {
      assert ActionsOf(events[..n]) + [] == ActionsOf(events[..n]);
    }
  }

  lemma RunOneMore(start: World, actions: seq<Action>, a: Action)
    ensures Run(start, actions + [a]) == WriteAuthority.Step(Run(start, actions), a)
  {
    assert (actions + [a])[..|actions|] == actions;
  }

  method Drive(start: World, events: seq<Event>) returns (d: Deployment)
    requires Initial(start)
    ensures d.handled == events && d.world == Run(start, ActionsOf(events))
    ensures fresh(d) && fresh(d.engine) && d.Valid()
    ensures d.lost ==> SomeContradicts(events)
  {
    if events == [] {
      d := new Deployment(start);
      return;
    }
    var n := |events| - 1;
    d := Drive(start, events[..n]);
    OneMoreEvent(start, events);
    d.Step(events[n]);
  }

  method ActAll(d: Deployment, actions: seq<Action>)
    requires d.Valid()
    modifies d`world, d`handled
    ensures d.Valid() && d.world == Run(old(d.world), actions)
    decreases |actions|
  {
    if actions == [] { return; }
    var n := |actions| - 1;
    ActAll(d, actions[..n]);
    d.Act(actions[n]);
  }

  /** An undisturbed process with an unused ticket opens its gate exactly if the ticket
      is of the dataset's epoch. */
  method OneComposition(start: World, t: Ticket) returns (d: Deployment)
    requires Initial(start) && t.id !in start.markers
    ensures d.Valid() && d.opens == if start.epoch == t.epoch then [0] else []
  {
    d := new Deployment(start);
    ActAll(d, Undisturbed(t));
    UndisturbedClaim(start, t);
    if At(d.world, 0).Claimed? { Composed(d); }
  }

  method Composed(d: Deployment)
    requires d.Valid() && At(d.world, 0).Claimed? && d.opens == []
    requires d.engine.runtimes == [] && d.engine.usedClaims == {} && d.engine.authorities == []
    requires d.engine.registryReceipts == [] && d.engine.proofs == [] && d.engine.receipts == []
    modifies d, d.engine
    ensures d.Valid() && d.opens == [0]
  {
    Registered(d);
    Proved(d);
    Marked(d);
    Opened(d);
  }

  method Opened(d: Deployment)
    requires d.Valid() && At(d.world, 0).Claimed? && d.opens == [] && d.engine.receipts == [Token(0, false)]
    requires |d.engine.runtimes| == 1 && d.engine.runtimes[0].claim == 0 && d.engine.runtimes[0].gate.Authorizable?
    modifies d, d.engine
    ensures d.Valid() && d.opens == [0]
  {
    d.AuthorizeGate(0, 0, Callback(true, false));
  }

  predicate ComposingOne(runtimes: seq<Runtime>) {
    |runtimes| == 1 && runtimes[0].gate.Composing? && runtimes[0].claim == 0
  }

  method Registered(d: Deployment)
    requires d.Valid() && At(d.world, 0).Claimed?
    requires d.engine.runtimes == [] && d.engine.usedClaims == {} && d.engine.authorities == []
    modifies d, d.engine
    ensures d.Valid() && d.opens == old(d.opens) && d.world == old(d.world)
    ensures d.engine.receipts == old(d.engine.receipts) && d.engine.registryReceipts == old(d.engine.registryReceipts)
            && d.engine.proofs == old(d.engine.proofs)
    ensures ComposingOne(d.engine.runtimes) && d.engine.authorities == [Token(0, false)]
  {
    Started(d);
    d.Shape(TakeAuthority(0));
  }

  method Started(d: Deployment)
    requires d.Valid() && At(d.world, 0).Claimed? && d.engine.runtimes == [] && d.engine.usedClaims == {}
    modifies d`history, d`lost, d`handled, d.engine`runtimes, d.engine`usedClaims
    ensures d.Valid() && d.engine.runtimes == [Runtime(0, Composing, false, false)]
  {
    d.StartGate(0);
  }

  method Proved(d: Deployment)
    requires d.Valid() && At(d.world, 0).Claimed? && ComposingOne(d.engine.runtimes)
    requires d.engine.authorities == [Token(0, false)] && d.engine.registryReceipts == [] && d.engine.proofs == []
    modifies d, d.engine
    ensures d.Valid() && d.opens == old(d.opens) && d.world == old(d.world)
    ensures d.engine.receipts == old(d.engine.receipts)
    ensures ComposingOne(d.engine.runtimes) && d.engine.proofs == [Token(0, false)]
  {
    d.Shape(Compose(0, true));
    d.Shape(Complete(0, 0, true));
  }

  method Marked(d: Deployment)
    requires d.Valid() && At(d.world, 0).Claimed? && ComposingOne(d.engine.runtimes)
    requires d.engine.receipts == [] && d.engine.proofs == [Token(0, false)]
    modifies d, d.engine
    ensures d.Valid() && d.opens == old(d.opens) && d.world == old(d.world) && d.engine.receipts == [Token(0, false)]
    ensures |d.engine.runtimes| == 1 && d.engine.runtimes[0].claim == 0 && d.engine.runtimes[0].gate.Authorizable?
  {
    d.MarkComplete(0, 0, Callback(true, false));
  }
}
