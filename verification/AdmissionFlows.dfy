/** The request flows of the admission handler for requests that do not write: what
    each path does with the leases it took, while arbitrary other requests run at
    every await. */
module AdmissionFlows {
  import opened Base
  import opened ResourceLedger
  import ResponseOwner

  const ANCILLARY := {Scrypt, QueryDb, CanonicalReplay, OriginalConfirm}

  /** What other requests do to the ledger while this one is suspended. */
  datatype Act = Admit(class_: Class) | Take(pool: Pool) | Give(id: nat, expected: set<Pool>)

  /** One suspension: other requests' acts, and the events (deadline, finish, close)
      that reach this request's response meanwhile. */
  datatype Await = Await(acts: seq<Act>, events: seq<ResponseOwner.Trigger>)

  /** The leases this request holds: others can neither forge nor return them. */
  ghost predicate Same(before: map<nat, LeaseState>, after: map<nat, LeaseState>, mine: set<nat>) {
    forall id :: id in mine && id in before ==> id in after && after[id] == before[id]
  }

  method Others(ledger: Ledger, mine: set<nat>, acts: seq<Act>)
    requires ledger.Valid()
    modifies ledger
    ensures ledger.Valid() && Same(old(ledger.leases), ledger.leases, mine)
    ensures old(ledger.leases).Keys <= ledger.leases.Keys
    ensures acts == [] ==> ledger.leases == old(ledger.leases)
  {
    var i := 0;
    while i < |acts|
      invariant 0 <= i <= |acts|
      invariant ledger.Valid() && Same(old(ledger.leases), ledger.leases, mine)
      invariant old(ledger.leases).Keys <= ledger.leases.Keys
      invariant acts == [] ==> ledger.leases == old(ledger.leases)
    {
      match acts[i] {
        case Admit(c) => var _ := ledger.TryAcquire(c);
        case Take(p) => var _ := ledger.TryAcquireAncillary(p);
        case Give(id, expected) =>
          // a lease is an unforgeable object: others cannot name this request's
          if id !in mine { var _ := ledger.Release(id, expected); }
      }
      i := i + 1;
    }
  }

  predicate Holds(leases: map<nat, LeaseState>, id: nat, pools: set<Pool>, active: bool) {
    id in leases && leases[id].pool in pools && leases[id].active == active
  }

  lemma InactiveTwice(leases: map<nat, LeaseState>, id: nat)
    requires id in leases
    ensures Inactive(Inactive(leases, id), id) == Inactive(leases, id)
  {
  }

  /** Returning an http lease leaves the ancillary pools as they are. */
  lemma AncillaryStays(leases: map<nat, LeaseState>, http: nat)
    requires http in leases && leases[http].pool in HTTP_POOLS
    ensures forall p :: p in ANCILLARY ==> ActiveIn(Inactive(leases, http), p) == ActiveIn(leases, p)
  {
  }

  function Inactive(leases: map<nat, LeaseState>, id: nat): map<nat, LeaseState>
    requires id in leases
  {
    leases[id := leases[id].(active := false)]
  }

  // ------------------------------------------------------------------- the response

  /** Between two events: open, or closed with its one release done. */
  predicate AtRest(v: ResponseOwner.View) {
    ResponseOwner.Sound(v) && (v.state.Open? || ResponseOwner.Settled(v))
  }

  /** The http lease is out exactly until the response owner has released. */
  predicate Answering(leases: map<nat, LeaseState>, http: nat, v: ResponseOwner.View) {
    AtRest(v) && Holds(leases, http, HTTP_POOLS, v.releases == 0)
  }

  /** What an event makes of an owner at rest; answered if it ended the response. */
  function Closing(v: ResponseOwner.View, answered: bool): ResponseOwner.View {
    if !v.state.Open? then v
    else v.(state := ResponseOwner.Closed, timerArmed := false, listenersBound := false, released := true,
            releases := 1,
            ended := if answered then 1 else 0)
  }

  /** One event of the owner; the lease goes back in its release callback. */
  method Deliver(ledger: Ledger, http: nat, owner: ResponseOwner.Owner, t: ResponseOwner.Trigger)
    requires ledger.Valid() && Answering(ledger.leases, http, owner.Now())
    modifies ledger, owner
    ensures ledger.Valid() && Answering(ledger.leases, http, owner.Now()) && ResponseOwner.Settled(owner.Now())
    ensures owner.Now() == Closing(old(owner.Now()), owner.ended == 1)
    ensures old(owner.state).Open? ==>
              owner.ended == if (t.kind.Respond? || t.kind.Deadline?) && ResponseOwner.Writes(t.calls) then 1 else 0
    ensures ledger.leases == Inactive(old(ledger.leases), http)
  {
    var before := owner.releases;
    var _ := owner.Handle(t);
    if owner.releases > before {
      var released := ledger.Release(http, HTTP_POOLS);
      assert released.Ok?;
    }
  }

  /** respond: a closed owner refuses, and nothing it throws escapes. */
  method Respond(ledger: Ledger, http: nat, owner: ResponseOwner.Owner, calls: seq<ResponseOwner.Foreign>)
    requires ledger.Valid() && Answering(ledger.leases, http, owner.Now())
    modifies ledger, owner
    ensures ledger.Valid() && Answering(ledger.leases, http, owner.Now()) && ResponseOwner.Settled(owner.Now())
    ensures ledger.leases == Inactive(old(ledger.leases), http)
    ensures old(owner.state).Open? ==> owner.ended == if ResponseOwner.Writes(calls) then 1 else 0
  {
    Deliver(ledger, http, owner, ResponseOwner.Trigger(ResponseOwner.Respond, calls));
  }

  /** createHttpResponseOwner over an admitted http lease. */
  method CreateOwner(ledger: Ledger, http: nat, calls: seq<ResponseOwner.Foreign>, registeredAt: real)
    returns (owner: Option<ResponseOwner.Owner>)
    requires ledger.Valid() && Holds(ledger.leases, http, HTTP_POOLS, true)
    modifies ledger
    ensures ledger.Valid()
    ensures owner.None? ==> ledger.leases == old(ledger.leases)
    ensures owner.Some? ==>
              && fresh(owner.value) && Answering(ledger.leases, http, owner.value.Now())
              && ledger.leases == if owner.value.releases == 0 then old(ledger.leases)
                 else Inactive(old(ledger.leases), http)
    ensures ResponseOwner.Quiet(calls) ==>
              (owner.Some? && owner.value.state.Open? <==> ResponseOwner.Opens(calls, registeredAt))
    ensures owner.Some? && owner.value.state.Open? ==> ResponseOwner.ClockGood(calls, registeredAt)
  {
    var made := new ResponseOwner.Owner();
    var ok := made.Construct(calls, registeredAt);
    if !ok { return None; }
    if made.releases > 0 {
      var released := ledger.Release(http, HTTP_POOLS);
      assert released.Ok?;
    }
    return Some(made);
  }

  // ------------------------------------------------------------ scripted outcomes

  datatype Rate = RateAllowed | RateLimited | RateThrew
  datatype Validation = ValidationThrew | ValidationRejected | Validated
  datatype Call = Returned(value: bool) | CallThrew
  datatype Lookup = LookupThrew | Absent | Joined | Replay

  /** How one request that does not write turns out. */
  datatype Script = Script(
    clock: Option<real>,                        // None: the monotonic clock threw
    construction: seq<ResponseOwner.Foreign>,
    peer: bool,
    firstVeto: Call,
    validating: Await,
    validation: Validation,
    secondVeto: Call,
    rate: Rate,
    permission: Call,
    working: Await,
    lookup: Lookup,
    reply: seq<ResponseOwner.Foreign>)

  datatype Ancillary = Ancillary(pool: Pool, lease: nat)

  /** An admitted request with a response owner. */
  class Request {
    const ledger: Ledger
    const owner: ResponseOwner.Owner
    const http: nat
    const validation: nat
    var taken: Option<Ancillary>   // the ancillary lease it took
    var worked: bool               // its business work was issued
    ghost var foreign: set<nat>    // leases others took meanwhile
    ghost var awaited: seq<Await>  // where it let others run
    ghost const base: set<nat>     // leases issued before it

    constructor (ledger: Ledger, owner: ResponseOwner.Owner, http: nat, validation: nat, ghost base: set<nat>)
      ensures this.ledger == ledger && this.owner == owner && this.http == http && this.validation == validation
      ensures this.base == base && taken.None? && !worked && foreign == {} && awaited == []
    {
      this.ledger, this.owner, this.http, this.validation := ledger, owner, http, validation;
      this.base := base;
      taken, worked, foreign, awaited := None, false, {}, [];
    }

    function Mine(): (r: set<nat>)
      reads this
      ensures http in r && validation in r && (taken.Some? ==> taken.value.lease in r)
    {
      {http, validation} + (if taken.Some? then {taken.value.lease} else {})
    }

    /** The http lease is out until the owner closes, the validation and the ancillary
        lease as given, and it took no other. */
    ghost predicate Ready(validating: bool, holding: bool)
      reads this, ledger, owner
    {
      && ledger.Valid()
      && Answering(ledger.leases, http, owner.Now())
      && Holds(ledger.leases, validation, VALIDATION_POOLS, validating)
      && (holding ==> taken.Some?)
      && (taken.Some? ==> taken.value.pool in ANCILLARY
                          && Holds(ledger.leases, taken.value.lease, {taken.value.pool}, holding))
      && foreign !! base
      && ledger.leases.Keys == base + foreign + Mine()
    }

    ghost predicate Done()
      reads this, ledger, owner
    {
      Ready(false, false) && ResponseOwner.Settled(owner.Now())
    }

    /** Its ancillary lease, if any, is of the one pool. */
    ghost predicate Took(p: Pool)
      reads this
    {
      taken.Some? ==> taken.value.pool == p
    }

    method Suspend(a: Await, validating: bool, ghost holding: bool)
      requires Ready(validating, holding)
      modifies ledger, owner, `foreign, `awaited
      ensures Ready(validating, holding) && awaited == old(awaited) + [a]
      ensures a.acts == [] ==> forall p :: p in ANCILLARY ==>
                                             ActiveIn(ledger.leases, p) == ActiveIn(old(ledger.leases), p)
    {
      awaited := awaited + [a];
      Yield(a.acts, validating, holding);
      Receive(a.events, validating, holding);
    }

    method Receive(events: seq<ResponseOwner.Trigger>, validating: bool, ghost holding: bool)
      requires Ready(validating, holding)
      modifies ledger, owner
      ensures Ready(validating, holding)
      ensures forall p :: p in ANCILLARY ==> ActiveIn(ledger.leases, p) == ActiveIn(old(ledger.leases), p)
    {
      ghost var before := ledger.leases;
      AncillaryStays(before, http);
      var i := 0;
      while i < |events|
        invariant Ready(validating, holding)
        invariant ledger.leases == before || ledger.leases == Inactive(before, http)
      {
        InactiveTwice(before, http);
        Deliver(ledger, http, owner, events[i]);
        i := i + 1;
      }
    }

    method Yield(acts: seq<Act>, validating: bool, ghost holding: bool)
      requires Ready(validating, holding)
      modifies ledger, `foreign
      ensures Ready(validating, holding)
      ensures acts == [] ==> ledger.leases == old(ledger.leases)
    {
      Others(ledger, Mine(), acts);
      foreign := foreign + (ledger.leases.Keys - old(ledger.leases).Keys);
    }

    /** safeReleaseValidation; on every path it is the first return of the lease. */
    method ReleaseValidation(ghost holding: bool)
      requires Ready(true, holding)
      modifies ledger
      ensures Ready(false, holding)
    {
      var r := ledger.Release(validation, VALIDATION_POOLS);
      assert r.Ok?;
    }

    method Answer(calls: seq<ResponseOwner.Foreign>, validating: bool, ghost holding: bool)
      requires Ready(validating, holding)
      modifies ledger, owner
      ensures Ready(validating, holding) && ResponseOwner.Settled(owner.Now())
    {
      Respond(ledger, http, owner, calls);
    }

    method ReleaseAndAnswer(calls: seq<ResponseOwner.Foreign>)
      requires Ready(true, false)
      modifies ledger, owner
      ensures Done()
    {
      ReleaseValidation(false);
      Answer(calls, false, false);
    }

    method TakeAncillary(p: Pool, validating: bool) returns (ok: bool)
      requires Ready(validating, false) && taken.None? && p in ANCILLARY
      modifies ledger, `taken
      ensures ok <==> |ActiveIn(old(ledger.leases), p)| < Limit(p)
      ensures Ready(validating, ok) && taken.Some? == ok && Took(p)
    {
      var lease := ledger.TryAcquireAncillary(p);
      if lease.None? { return false; }
      taken := Some(Ancillary(p, lease.value));
      return true;
    }

    method GiveAncillary(p: Pool, validating: bool)
      requires Ready(validating, true) && Took(p)
      modifies ledger
      ensures Ready(validating, false)
    {
      var r := ledger.Release(taken.value.lease, {p});
      assert r.Ok?;
    }

    /** runLogin: the scrypt lease spans exactly the validation await. */
    method RunLogin(s: Script)
      requires Ready(true, false) && taken.None? && !worked
      modifies ledger, owner, `taken, `worked, `foreign, `awaited
      ensures worked <==> taken.Some? && s.validation.Validated?
      ensures awaited == old(awaited) + if !taken.Some? then [] else if worked then [s.validating, s.working]
                                        else [s.validating]
      ensures Done() && Took(Scrypt)
      ensures taken.Some? <==> s.peer && s.rate.RateAllowed? && |ActiveIn(old(ledger.leases), Scrypt)| < Limit(Scrypt)
    {
      if !s.peer || !s.rate.RateAllowed? {
        ReleaseAndAnswer(s.reply);
        return;
      }
      var scrypt := TakeAncillary(Scrypt, true);
      if !scrypt {
        ReleaseAndAnswer(s.reply);
        return;
      }
      LoginUnder(s);
    }

    /** The scrypt lease is held; a valid login goes on to its work without it. */
    method LoginUnder(s: Script)
      requires Ready(true, true) && Took(Scrypt) && !worked
      modifies ledger, owner, `worked, `foreign, `awaited
      ensures Done() && Took(Scrypt)
      ensures worked <==> s.validation.Validated?
      ensures awaited == old(awaited) + if worked then [s.validating, s.working] else [s.validating]
    {
      Suspend(s.validating, true, true);
      GiveAncillary(Scrypt, true);
      ReleaseValidation(false);
      if s.validation.Validated? {
        worked := true;
        Suspend(s.working, false, false);
      }
      Answer(s.reply, false, false);
    }

    /** runQuery: two maintenance vetoes, the rate, the database lease, the work. */
    method RunQuery(s: Script)
      requires Ready(true, false) && taken.None? && !worked
      modifies ledger, owner, `taken, `worked, `foreign, `awaited
      ensures worked <==> taken.Some? && !s.permission.CallThrew?
      ensures awaited == old(awaited) + if s.firstVeto != Returned(false) then []
                                        else if worked then [s.validating, s.working] else [s.validating]
      ensures Done() && Took(QueryDb)
      ensures taken.Some? ==> s.firstVeto == s.secondVeto == Returned(false) && s.validation.Validated?
                              && s.rate.RateAllowed?
      ensures s.validating.acts == [] ==>
                (taken.Some? <==>
                   && s.firstVeto == s.secondVeto == Returned(false) && s.validation.Validated? && s.rate.RateAllowed?
                   && |ActiveIn(old(ledger.leases), QueryDb)| < Limit(QueryDb))
    {
      if s.firstVeto != Returned(false) {
        ReleaseAndAnswer(s.reply);
        return;
      }
      Suspend(s.validating, true, false);
      if !s.validation.Validated? || s.secondVeto != Returned(false) || !s.rate.RateAllowed? {
        ReleaseAndAnswer(s.reply);
        return;
      }
      ReadIfFree(s);
    }

    method ReadIfFree(s: Script)
      requires Ready(true, false) && taken.None? && !worked
      modifies ledger, owner, `taken, `worked, `foreign, `awaited
      ensures Done() && Took(QueryDb)
      ensures taken.Some? <==> |ActiveIn(old(ledger.leases), QueryDb)| < Limit(QueryDb)
      ensures worked <==> taken.Some? && !s.permission.CallThrew?
      ensures awaited == old(awaited) + if worked then [s.working] else []
    {
      var queryDb := TakeAncillary(QueryDb, true);
      if !queryDb {
        ReleaseAndAnswer(s.reply);
        return;
      }
      ReadUnder(s);
    }

    /** The database lease is held; the work runs if the read permission is given. */
    method ReadUnder(s: Script)
      requires Ready(true, true) && Took(QueryDb) && !worked
      modifies ledger, owner, `worked, `foreign, `awaited
      ensures Done() && Took(QueryDb)
      ensures worked <==> !s.permission.CallThrew?
      ensures awaited == old(awaited) + if worked then [s.working] else []
    {
      if s.permission.CallThrew? {
        GiveAncillary(QueryDb, true);
        ReleaseAndAnswer(s.reply);
        return;
      }
      worked := true;
      Suspend(s.working, true, true);
      Answer(s.reply, true, true);
      GiveAncillary(QueryDb, true);
      ReleaseValidation(false);
    }

    /** handleReplay: the stored answer is rendered under one canonicalReplay lease;
        without one the answer is "unconfirmed". */
    method HandleReplay(calls: seq<ResponseOwner.Foreign>, validating: bool)
      requires Ready(validating, false) && taken.None?
      modifies ledger, owner, `taken
      ensures Ready(validating, false) && ResponseOwner.Settled(owner.Now()) && Took(CanonicalReplay)
      ensures taken.Some? <==> |ActiveIn(old(ledger.leases), CanonicalReplay)| < Limit(CanonicalReplay)
    {
      var capacity := TakeAncillary(CanonicalReplay, validating);
      if !capacity {
        Answer(calls, validating, false);
        return;
      }
      Respond(ledger, http, owner, calls);
      GiveAncillary(CanonicalReplay, validating);
    }

    /** runExistingOnly: rate, registry lookup, answer or replay; the validation lease
        goes back last, on every path. */
    method RunExistingOnly(s: Script)
      requires Ready(true, false) && taken.None?
      modifies ledger, owner, `taken, `foreign, `awaited
      ensures Done() && Took(CanonicalReplay)
      ensures taken.Some? ==> s.validation.Validated? && s.rate.RateAllowed? && s.lookup.Replay?
      ensures awaited == old(awaited) + [s.validating]
      ensures s.validating.acts == [] ==>
                (taken.Some? <==>
                   && s.validation.Validated? && s.rate.RateAllowed? && s.lookup.Replay?
                   && |ActiveIn(old(ledger.leases), CanonicalReplay)| < Limit(CanonicalReplay))
    {
      Suspend(s.validating, true, false);
      if !s.validation.Validated? {
        ReleaseAndAnswer(s.reply);
        return;
      }
      if s.rate.RateAllowed? && s.lookup.Replay? {
        HandleReplay(s.reply, true);
      } else {
        Answer(s.reply, true, false);
      }
      ReleaseValidation(false);
    }

    /** runNonWriter. */
    method Run(c: Class, s: Script)
      requires Ready(true, false) && taken.None? && !worked
      modifies ledger, owner, `taken, `worked, `foreign, `awaited
      ensures worked ==> taken.Some? && taken.value.pool == (if c.Login? then Scrypt else QueryDb)
      ensures ledger.Valid() && foreign !! base
      ensures forall id :: id in ledger.leases && ledger.leases[id].active ==> id in base || id in foreign
    {
      match c {
        case Login => RunLogin(s);
        case ExistingOnly => RunExistingOnly(s);
        case _ => RunQuery(s);
      }
    }
  }

  /** releaseBundleBeforeOwner. */
  method ReleaseBundle(ledger: Ledger, b: Bundle)
    requires ledger.Valid() && b.origin.None?
    requires Holds(ledger.leases, b.http, HTTP_POOLS, true)
             && Holds(ledger.leases, b.validation, VALIDATION_POOLS, true)
    modifies ledger
    ensures ledger.Valid()
    ensures ledger.leases == Inactive(Inactive(old(ledger.leases), b.http), b.validation)
  {
    var http := ledger.Release(b.http, HTTP_POOLS);
    var validation := ledger.Release(b.validation, VALIDATION_POOLS);
    assert http.Ok? && validation.Ok?;
  }

  /** startNonWriter: with a bad clock or a throwing construction the bundle goes
      straight back; otherwise there is a request with an owner. */
  method StartNonWriter(ledger: Ledger, b: Bundle, s: Script, ghost base: set<nat>) returns (request: Option<Request>)
    requires ledger.Valid() && b.origin.None? && b.http != b.validation
             && ledger.leases.Keys == base + {b.http, b.validation}
    requires Holds(ledger.leases, b.http, HTTP_POOLS, true)
             && Holds(ledger.leases, b.validation, VALIDATION_POOLS, true)
    modifies ledger
    ensures ledger.Valid()
    ensures s.clock.None? || s.clock.value < 0.0 ==> request.None?
    ensures ResponseOwner.Quiet(s.construction) ==>
              (request.Some? && request.value.owner.state.Open? <==>
                 s.clock.Some? && s.clock.value >= 0.0 && ResponseOwner.Opens(s.construction, s.clock.value))
    ensures request.None? ==> ledger.leases == Inactive(Inactive(old(ledger.leases), b.http), b.validation)
    ensures request.Some? ==>
              var r := request.value;
              && fresh(r) && fresh(r.owner) && r.ledger == ledger && r.base == base
              && r.http == b.http && r.validation == b.validation && r.taken.None? && !r.worked && r.Ready(true, false)
              && (ledger.leases == old(ledger.leases) || ledger.leases == Inactive(old(ledger.leases), b.http))
  {
    if s.clock.None? || s.clock.value < 0.0 {
      ReleaseBundle(ledger, b);
      return None;
    }
    var owner := CreateOwner(ledger, b.http, s.construction, s.clock.value);
    if owner.None? {
      ReleaseBundle(ledger, b);
      return None;
    }
    var r := new Request(ledger, owner.value, b.http, b.validation, base);
    return Some(r);
  }

  /** A whole request, from TryAcquire to its end: whatever happens, the only leases
      out that were not issued before it are other requests'. */
  method Serve(ledger: Ledger, c: Class, s: Script) returns (admitted: bool, ghost foreign: set<nat>)
    requires ledger.Valid() && !PlanFor(c).origin
    modifies ledger
    ensures ledger.Valid()
    ensures !admitted ==> ledger.leases == old(ledger.leases)
    ensures admitted <==>
              && |ActiveIn(old(ledger.leases), PlanFor(c).http)| < Limit(PlanFor(c).http)
              && |ActiveIn(old(ledger.leases), PlanFor(c).validation)| < Limit(PlanFor(c).validation)
    ensures forall id :: id in ledger.leases && ledger.leases[id].active ==> id in old(ledger.leases) || id in foreign
    ensures foreign !! old(ledger.leases).Keys
  {
    foreign := {};
    var bundle := ledger.TryAcquire(c);
    if bundle.None? { return false, {}; }
    assert ledger.leases.Keys == old(ledger.leases).Keys + {bundle.value.http, bundle.value.validation};
    var started := StartNonWriter(ledger, bundle.value, s, old(ledger.leases).Keys);
    if started.None? { return true, {}; }
    var request := started.value;
    request.Run(c, s);
    return true, request.foreign;
  }
}
