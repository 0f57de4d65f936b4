/** Admission resources: fixed pools of leases. */
module ResourceLedger {
  import opened Base

  datatype Pool =
    | HttpOrdinary | HttpRetry
    | ValidationWrite | ValidationLogin | ValidationQuery | ValidationRetry
    | Origin
    | Scrypt | QueryDb | CanonicalReplay | OriginalConfirm

  function Limit(p: Pool): nat {
    match p
    case HttpOrdinary => 28
    case HttpRetry => 4
    case ValidationWrite => 4
    case ValidationLogin => 1
    case ValidationQuery => 1
    case ValidationRetry => 2
    case Origin => 32
    case Scrypt => 1
    case QueryDb => 1
    case CanonicalReplay => 2
    case OriginalConfirm => 1
  }

  const ALL_POOLS := {HttpOrdinary, HttpRetry, ValidationWrite, ValidationLogin, ValidationQuery, ValidationRetry,
                      Origin, Scrypt, QueryDb, CanonicalReplay, OriginalConfirm}
  const HTTP_POOLS := {HttpOrdinary, HttpRetry}
  const VALIDATION_POOLS := {ValidationWrite, ValidationLogin, ValidationQuery, ValidationRetry}

  datatype Class = Management | NormalRecognition | Login | Query | ExistingOnly

  datatype Plan = Plan(http: Pool, validation: Pool, origin: bool)

  function PlanFor(c: Class): Plan {
    match c
    case Management => Plan(HttpOrdinary, ValidationWrite, true)
    case NormalRecognition => Plan(HttpOrdinary, ValidationWrite, true)
    case Login => Plan(HttpOrdinary, ValidationLogin, false)
    case Query => Plan(HttpOrdinary, ValidationQuery, false)
    case ExistingOnly => Plan(HttpRetry, ValidationRetry, false)
  }

  /** Status retrieval has pools of its own, each kind of validation too, only writers
      take an origin lease, and there is one for each http lease. */
  lemma Reservations(c: Class, d: Class)
    ensures PlanFor(c).origin <==> c.Management? || c.NormalRecognition?
    ensures PlanFor(c).http == PlanFor(d).http <==> (c.ExistingOnly? <==> d.ExistingOnly?)
    ensures PlanFor(c).validation == PlanFor(d).validation <==> c == d || (PlanFor(c).origin && PlanFor(d).origin)
    ensures Limit(PlanFor(c).http) >= Limit(PlanFor(c).validation)
    ensures PlanFor(c).http in HTTP_POOLS && PlanFor(c).validation in VALIDATION_POOLS
    ensures Limit(HttpOrdinary) + Limit(HttpRetry) == Limit(Origin) == 32
  {
  }

  datatype LeaseError = InvalidLease | AlreadyReleased

  datatype LeaseState = LeaseState(pool: Pool, active: bool)

  datatype Bundle = Bundle(http: nat, validation: nat, origin: Option<nat>)

  function ActiveIn(leases: map<nat, LeaseState>, p: Pool): set<nat> {
    set id | id in leases && leases[id].pool == p && leases[id].active
  }

  class Ledger {
    var used: map<Pool, nat>
    var leases: map<nat, LeaseState>
    var next: nat

    /** Every pool's count is the number of its active leases, within its limit. */
    ghost predicate Valid()
      reads this
    {
      && PoolsOk(used, leases)
      && (forall id :: id in leases ==> id < next)
    }

    constructor ()
      ensures Valid() && leases == map[]
    {
      used := map p | p in ALL_POOLS :: 0;
      leases := map[];
      next := 0;
      new;
      forall p: Pool ensures PoolOk(used, leases, p) {
        assert p in ALL_POOLS by { EveryPool(p); }
        assert ActiveIn(leases, p) == {};
      }
    }

    method Mint(p: Pool) returns (id: nat)
      requires Valid() && p in used && used[p] < Limit(p)
      modifies this
      ensures Valid()
      ensures id !in old(leases) && leases == old(leases)[id := LeaseState(p, true)]
      ensures used == old(used)[p := old(used)[p] + 1]
    {
      id := next;
      MintCounts(used, leases, p, id);
      next := next + 1;
      leases := leases[id := LeaseState(p, true)];
      used := used[p := used[p] + 1];
    }

    /** A lease can be returned once, and only to the kind of pool it came from. */
    method Release(id: nat, expected: set<Pool>) returns (r: Result<(), LeaseError>)
      requires Valid()
      modifies this
      ensures Valid() && next == old(next)
      ensures r == ReleaseAnswer(old(leases), id, expected)
      ensures leases == if r.Ok? then old(leases)[id := old(leases)[id].(active := false)] else old(leases)
    {
      if id !in leases || leases[id].pool !in expected { return Err(InvalidLease); }
      if !leases[id].active { return Err(AlreadyReleased); }
      var p := leases[id].pool;
      ReleaseCounts(used, leases, id);
      leases := leases[id := LeaseState(p, false)];
      used := used[p := used[p] - 1];
      return Ok(());
    }

    method TryAcquireAncillary(p: Pool) returns (lease: Option<nat>)
      requires Valid()
      modifies this
      ensures Valid()
      ensures lease.None? <==> |ActiveIn(old(leases), p)| >= Limit(p)
      ensures lease.None? ==> leases == old(leases)
      ensures lease.Some? ==> lease.value !in old(leases) && leases == old(leases)[lease.value := LeaseState(p, true)]
    {
      assert PoolOk(used, leases, p);
      if used[p] >= Limit(p) { return None; }
      var id := Mint(p);
      return Some(id);
    }

    /** All the leases of a class, or none if any of its pools is full. */
    method TryAcquire(c: Class) returns (bundle: Option<Bundle>)
      requires Valid()
      modifies this
      ensures Valid()
      ensures var plan := PlanFor(c);
              bundle.None? <==>
                || |ActiveIn(old(leases), plan.http)| >= Limit(plan.http)
                || |ActiveIn(old(leases), plan.validation)| >= Limit(plan.validation)
                || (plan.origin && |ActiveIn(old(leases), Origin)| >= Limit(Origin))
      ensures bundle.None? ==> leases == old(leases)
      ensures bundle.Some? ==> Grants(old(leases), leases, bundle.value, PlanFor(c))
    {
      var plan := PlanFor(c);
      assert PoolOk(used, leases, plan.http) && PoolOk(used, leases, plan.validation) && PoolOk(used, leases, Origin);
      if used[plan.http] >= Limit(plan.http) { return None; }
      if used[plan.validation] >= Limit(plan.validation) { return None; }
      if plan.origin && used[Origin] >= Limit(Origin) { return None; }
      var http := Mint(plan.http);
      var validation := Mint(plan.validation);
      if !plan.origin { return Some(Bundle(http, validation, None)); }
      var origin := Mint(Origin);
      return Some(Bundle(http, validation, Some(origin)));
    }
  }

  ghost predicate PoolOk(used: map<Pool, nat>, leases: map<nat, LeaseState>, p: Pool) {
    p in used && used[p] == |ActiveIn(leases, p)| <= Limit(p)
  }

  ghost predicate PoolsOk(used: map<Pool, nat>, leases: map<nat, LeaseState>) {
    forall p: Pool :: PoolOk(used, leases, p)
  }

  lemma EveryPool(p: Pool)
    ensures p in ALL_POOLS
  {
  }

  function ReleaseAnswer(leases: map<nat, LeaseState>, id: nat, expected: set<Pool>): Result<(), LeaseError> {
    if id !in leases || leases[id].pool !in expected then Err(InvalidLease)
    else if !leases[id].active then Err(AlreadyReleased)
    else Ok(())
  }

  /** The bundle's leases are new and active, and nothing else changed. */
  ghost predicate Grants(before: map<nat, LeaseState>, after: map<nat, LeaseState>, b: Bundle, plan: Plan) {
    && b.http !in before && b.validation !in before && b.http != b.validation
    && (b.origin.Some? <==> plan.origin)
    && (b.origin.Some? ==> b.origin.value !in before && b.origin.value != b.http && b.origin.value != b.validation)
    && after == before[b.http := LeaseState(plan.http, true)][b.validation := LeaseState(plan.validation, true)]
                + (if b.origin.Some? then map[b.origin.value := LeaseState(Origin, true)] else map[])
  }

  lemma MintCounts(used: map<Pool, nat>, leases: map<nat, LeaseState>, p: Pool, id: nat)
    requires PoolsOk(used, leases) && id !in leases && p in used && used[p] < Limit(p)
    ensures PoolsOk(used[p := used[p] + 1], leases[id := LeaseState(p, true)])
  {
    var after, counts := leases[id := LeaseState(p, true)], used[p := used[p] + 1];
    forall q: Pool ensures PoolOk(counts, after, q) {
      assert PoolOk(used, leases, q);
      MintedActive(leases, p, id, q);
    }
  }

  lemma MintedActive(leases: map<nat, LeaseState>, p: Pool, id: nat, q: Pool)
    requires id !in leases
    ensures |ActiveIn(leases[id := LeaseState(p, true)], q)| == |ActiveIn(leases, q)| + (if q == p then 1 else 0)
  {
    MintedSet(leases, p, id, q);
  }

  lemma MintedSet(leases: map<nat, LeaseState>, p: Pool, id: nat, q: Pool)
    requires id !in leases
    ensures ActiveIn(leases[id := LeaseState(p, true)], q) == ActiveIn(leases, q) + (if q == p then {id} else {})
    ensures id !in ActiveIn(leases, q)
  {
  }

  lemma ReleaseCounts(used: map<Pool, nat>, leases: map<nat, LeaseState>, id: nat)
    requires PoolsOk(used, leases) && id in leases && leases[id].active
    ensures leases[id].pool in used && used[leases[id].pool] > 0
    ensures PoolsOk(used[leases[id].pool := used[leases[id].pool] - 1],
                    leases[id := LeaseState(leases[id].pool, false)])
  {
    var p := leases[id].pool;
    assert PoolOk(used, leases, p) && id in ActiveIn(leases, p);
    var after, counts := leases[id := LeaseState(p, false)], used[p := used[p] - 1];
    forall q: Pool ensures PoolOk(counts, after, q) {
      assert PoolOk(used, leases, q);
      if q == p {
        assert ActiveIn(after, q) == ActiveIn(leases, q) - {id};
      } else {
        assert ActiveIn(after, q) == ActiveIn(leases, q);
      }
    }
  }
}
