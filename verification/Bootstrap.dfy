/** The bootstrap gate: from one claimed run, through one registry authority, one
    registry receipt, one production proof and one receipt, to OPEN. Tokens of
    several runtimes exist side by side; mixing them fails the gate. */
module Bootstrap {
  import opened Base

  datatype Gate = Composing | Authorizable | Open | Shutdown | Failed

  /** A predicate the engine calls back; it may itself begin the shutdown. */
  datatype Callback = Callback(current: bool, shutsDown: bool)

  datatype Runtime = Runtime(claim: nat, gate: Gate, authorityTaken: bool, watched: bool)

  /** An authority, registry receipt, proof or receipt of one runtime. */
  datatype Token = Token(runtime: nat, used: bool)

  predicate Used(tokens: seq<Token>, runtime: nat) {
    exists k :: 0 <= k < |tokens| && tokens[k] == Token(runtime, true)
  }

  predicate AtMostOne(tokens: seq<Token>, runtime: nat) {
    forall j, k :: 0 <= j < k < |tokens| ==> !(tokens[j].runtime == runtime && tokens[k].runtime == runtime)
  }

  predicate Has(tokens: seq<Token>, runtime: nat) {
    exists k :: 0 <= k < |tokens| && tokens[k].runtime == runtime
  }

  /** Everything OPEN took: each kind of token once, of this very runtime. */
  predicate FullChain(e: View, r: nat) {
    Used(e.authorities, r) && Used(e.registryReceipts, r) && Used(e.proofs, r) && Used(e.receipts, r)
  }

  datatype View = View(
    runtimes: seq<Runtime>,
    authorities: seq<Token>,
    registryReceipts: seq<Token>,
    proofs: seq<Token>,
    receipts: seq<Token>,
    usedClaims: set<nat>)

  predicate RuntimeOk(e: View, r: nat)
    requires r < |e.runtimes|
  {
    var rt := e.runtimes[r];
    && rt.claim in e.usedClaims
    && AtMostOne(e.authorities, r) && AtMostOne(e.registryReceipts, r) && AtMostOne(e.proofs, r)
       && AtMostOne(e.receipts, r)
    && (Has(e.authorities, r) ==> rt.authorityTaken)
    && (Has(e.registryReceipts, r) ==> Used(e.authorities, r))
    && (Has(e.proofs, r) ==> Used(e.registryReceipts, r))
    && (Has(e.receipts, r) ==> Used(e.proofs, r) && !rt.gate.Composing?)
    && (rt.gate.Authorizable? ==> Has(e.receipts, r))
    && (rt.gate.Open? ==> Used(e.receipts, r))
  }

  predicate TokensInRange(tokens: seq<Token>, n: nat) {
    forall k :: 0 <= k < |tokens| ==> tokens[k].runtime < n
  }

  predicate Sound(e: View) {
    && TokensInRange(e.authorities, |e.runtimes|) && TokensInRange(e.registryReceipts, |e.runtimes|)
    && TokensInRange(e.proofs, |e.runtimes|) && TokensInRange(e.receipts, |e.runtimes|)
    && (forall r :: 0 <= r < |e.runtimes| ==> RuntimeOk(e, r))
    && (forall r, s :: 0 <= r < s < |e.runtimes| ==> e.runtimes[r].claim != e.runtimes[s].claim)
  }

  /** What OPEN means: one claim, and one of each token, all of this runtime. */
  lemma OpenNeedsTheChain(e: View, r: nat)
    requires Sound(e) && r < |e.runtimes| && e.runtimes[r].gate.Open?
    ensures FullChain(e, r) && e.runtimes[r].claim in e.usedClaims && e.runtimes[r].authorityTaken
    ensures AtMostOne(e.authorities, r) && AtMostOne(e.registryReceipts, r) && AtMostOne(e.proofs, r)
            && AtMostOne(e.receipts, r)
    ensures forall s :: 0 <= s < |e.runtimes| && e.runtimes[s].claim == e.runtimes[r].claim ==> s == r
  {
    assert RuntimeOk(e, r);
    var k :| 0 <= k < |e.receipts| && e.receipts[k] == Token(r, true);
    assert Has(e.receipts, r);
    var j :| 0 <= j < |e.proofs| && e.proofs[j] == Token(r, true);
    assert Has(e.proofs, r);
    var i :| 0 <= i < |e.registryReceipts| && e.registryReceipts[i] == Token(r, true);
    assert Has(e.registryReceipts, r);
    var h :| 0 <= h < |e.authorities| && e.authorities[h] == Token(r, true);
    assert Has(e.authorities, r);
  }

  predicate Ended(g: Gate) {
    g.Shutdown? || g.Failed?
  }

  /** No gate that has ended is anything but ended afterwards, and shutdown stays. */
  predicate EndsStay(before: seq<Runtime>, after: seq<Runtime>) {
    && |before| <= |after|
    && forall r :: 0 <= r < |before| ==>
         (Ended(before[r].gate) ==> Ended(after[r].gate)) && (before[r].gate.Shutdown? ==> after[r].gate.Shutdown?)
  }

  predicate SameClaims(before: seq<Runtime>, after: seq<Runtime>) {
    |before| == |after| && forall r :: 0 <= r < |before| ==> after[r].claim == before[r].claim
  }

  /** No gate opened, except possibly that of r. */
  predicate OpensAtMost(before: seq<Runtime>, after: seq<Runtime>, r: Option<nat>) {
    && |before| <= |after|
    && forall s :: 0 <= s < |after| && after[s].gate.Open? && r != Some(s) ==> s < |before| && before[s].gate.Open?
  }

  /** The gate of r has failed, unless it was shut down. */
  function Failing(runtimes: seq<Runtime>, r: nat): seq<Runtime>
    requires r < |runtimes|
  {
    runtimes[r := runtimes[r].(gate := if runtimes[r].gate.Shutdown? then Shutdown else Failed)]
  }

  /** The gate of r once the callback has run. */
  function Called(runtimes: seq<Runtime>, r: nat, callback: Callback): seq<Runtime>
    requires r < |runtimes|
  {
    if callback.shutsDown then runtimes[r := runtimes[r].(gate := Shutdown)] else runtimes
  }

  class Engine {
    var runtimes: seq<Runtime>
    var authorities: seq<Token>
    var registryReceipts: seq<Token>
    var proofs: seq<Token>
    var receipts: seq<Token>
    var usedClaims: set<nat>

    function Now(): View
      reads this
    {
      View(runtimes, authorities, registryReceipts, proofs, receipts, usedClaims)
    }

    constructor ()
      ensures Sound(Now()) && runtimes == [] && authorities == [] && registryReceipts == [] && proofs == []
              && receipts == []
      ensures usedClaims == {}
    {
      runtimes, authorities, registryReceipts, proofs, receipts := [], [], [], [], [];
      usedClaims := {};
    }

    /** createClaimedRuntimeBootstrapWithBridge: a claim starts one runtime at most. */
    method CreateBootstrap(claim: nat) returns (r: Option<nat>)
      requires Sound(Now())
      modifies `runtimes, `usedClaims
      ensures Sound(Now()) && EndsStay(old(runtimes), runtimes)
      ensures r.Some? <==> claim !in old(usedClaims)
      ensures r.Some? ==> r.value == |old(runtimes)|
                          && runtimes == old(runtimes) + [Runtime(claim, Composing, false, false)]
      ensures r.None? ==> runtimes == old(runtimes)
      ensures usedClaims == old(usedClaims) + {claim}
    {
      if claim in usedClaims { return None; }
      ghost var before := Now();
      usedClaims := usedClaims + {claim};
      r := Some(|runtimes|);
      runtimes := runtimes + [Runtime(claim, Composing, false, false)];
      forall s | 0 <= s < |runtimes| ensures RuntimeOk(Now(), s) {
        if s < |before.runtimes| { assert RuntimeOk(before, s); }
      }
      forall s, t | 0 <= s < t < |runtimes| ensures runtimes[s].claim != runtimes[t].claim {
        assert RuntimeOk(before, s);
      }
    }

    /** fail: anything but a shutdown becomes FAILED. */
    method Fail(r: nat)
      requires Sound(Now()) && r < |runtimes|
      modifies `runtimes
      ensures Sound(Now()) && EndsStay(old(runtimes), runtimes) && Ended(runtimes[r].gate)
      ensures SameClaims(old(runtimes), runtimes) && OpensAtMost(old(runtimes), runtimes, None)
      ensures runtimes == Failing(old(runtimes), r)
    {
      ghost var before := Now();
      if !runtimes[r].gate.Shutdown? { runtimes := runtimes[r := runtimes[r].(gate := Failed)]; }
      forall s | 0 <= s < |runtimes| ensures RuntimeOk(Now(), s) {
        assert RuntimeOk(before, s);
      }
    }

    method BeginShutdown(r: nat)
      requires Sound(Now()) && r < |runtimes|
      modifies `runtimes
      ensures Sound(Now()) && EndsStay(old(runtimes), runtimes)
      ensures SameClaims(old(runtimes), runtimes) && OpensAtMost(old(runtimes), runtimes, None)
      ensures runtimes == old(runtimes)[r := old(runtimes)[r].(gate := Shutdown)]
    {
      ghost var before := Now();
      runtimes := runtimes[r := runtimes[r].(gate := Shutdown)];
      forall s | 0 <= s < |runtimes| ensures RuntimeOk(Now(), s) {
        assert RuntimeOk(before, s);
      }
    }

    /** getState: an open gate whose lifecycle is over shuts down when it is looked at. */
    method GetState(r: nat, lifecycleCurrent: bool) returns (gate: Gate)
      requires Sound(Now()) && r < |runtimes|
      modifies `runtimes
      ensures Sound(Now()) && EndsStay(old(runtimes), runtimes) && gate == runtimes[r].gate
      ensures SameClaims(old(runtimes), runtimes) && OpensAtMost(old(runtimes), runtimes, None)
      ensures gate.Open? <==> old(runtimes)[r].gate.Open? && (lifecycleCurrent || !old(runtimes)[r].watched)
      ensures runtimes == if old(runtimes)[r].gate.Open? && !gate.Open?
                          then old(runtimes)[r := old(runtimes)[r].(gate := Shutdown)] else old(runtimes)
    {
      if runtimes[r].gate.Open? && runtimes[r].watched && !lifecycleCurrent { BeginShutdown(r); }
      return runtimes[r].gate;
    }

    method TakeRegistryAuthority(r: nat) returns (authority: Option<nat>)
      requires Sound(Now()) && r < |runtimes|
      modifies `runtimes, `authorities
      ensures Sound(Now()) && EndsStay(old(runtimes), runtimes)
      ensures SameClaims(old(runtimes), runtimes) && OpensAtMost(old(runtimes), runtimes, None)
      ensures authority.Some? <==> !old(runtimes)[r].authorityTaken && old(runtimes)[r].gate.Composing?
      ensures authority.Some? ==>
                && authority.value == |old(authorities)| && authorities == old(authorities) + [Token(r, false)]
                && runtimes == old(runtimes)[r := old(runtimes)[r].(authorityTaken := true)]
      ensures authority.None? ==> authorities == old(authorities) && runtimes == Failing(old(runtimes), r)
    {
      if runtimes[r].authorityTaken || !runtimes[r].gate.Composing? {
        Fail(r);
        return None;
      }
      ghost var before := Now();
      assert RuntimeOk(before, r);
      runtimes := runtimes[r := runtimes[r].(authorityTaken := true)];
      authority := Some(|authorities|);
      authorities := authorities + [Token(r, false)];
      Minted(before.authorities, r);
      forall s | 0 <= s < |runtimes| ensures RuntimeOk(Now(), s) {
        assert RuntimeOk(before, s);
      }
    }

    /** composeRegistry: an authority composes one registry, while composing. */
    method ComposeRegistry(authority: nat, composes: bool) returns (receipt: Option<nat>)
      requires Sound(Now()) && authority < |authorities|
      modifies `runtimes, `authorities, `registryReceipts
      ensures Sound(Now()) && EndsStay(old(runtimes), runtimes)
      ensures SameClaims(old(runtimes), runtimes) && OpensAtMost(old(runtimes), runtimes, None)
      ensures var r := old(authorities)[authority].runtime;
              && (receipt.Some? <==> !old(authorities)[authority].used && old(runtimes)[r].gate.Composing? && composes)
              && (receipt.None? ==>
                    && runtimes == Failing(old(runtimes), r) && registryReceipts == old(registryReceipts)
                    && authorities == if old(authorities)[authority].used || !old(runtimes)[r].gate.Composing?
                                      then old(authorities) else old(authorities)[authority := Token(r, true)])
              && (receipt.Some? ==>
                    && receipt.value == |old(registryReceipts)|
                       && registryReceipts == old(registryReceipts) + [Token(r, false)]
                    && runtimes == old(runtimes) && authorities == old(authorities)[authority := Token(r, true)])
    {
      var r := authorities[authority].runtime;
      if authorities[authority].used || !runtimes[r].gate.Composing? {
        Fail(r);
        return None;
      }
      ghost var before := Now();
      assert RuntimeOk(before, r);
      NotUsedTwice(authorities, authority);
      Spent(authorities, authority);
      authorities := authorities[authority := authorities[authority].(used := true)];
      if composes {
        Minted(registryReceipts, r);
        receipt := Some(|registryReceipts|);
        registryReceipts := registryReceipts + [Token(r, false)];
      }
      forall s | 0 <= s < |runtimes| ensures RuntimeOk(Now(), s) {
        assert RuntimeOk(before, s);
      }
      if !composes {
        Fail(r);
        receipt := None;
      }
    }

    /** completeClaimedRuntimeProductionComposition: a registry receipt of this very
        runtime, unused, and matching provenance give one proof. */
    method CompleteComposition(r: nat, registryReceipt: nat, provenance: bool) returns (proof: Option<nat>)
      requires Sound(Now()) && r < |runtimes| && registryReceipt < |registryReceipts|
      modifies `runtimes, `registryReceipts, `proofs
      ensures Sound(Now()) && EndsStay(old(runtimes), runtimes)
      ensures SameClaims(old(runtimes), runtimes) && OpensAtMost(old(runtimes), runtimes, None)
      ensures proof.Some? <==>
                old(runtimes)[r].gate.Composing? && old(registryReceipts)[registryReceipt] == Token(r, false)
                  && provenance
      ensures proof.None? ==>
                && runtimes == Failing(old(runtimes), r) && proofs == old(proofs)
                && registryReceipts == old(registryReceipts)
      ensures proof.Some? ==>
                && proof.value == |old(proofs)| && proofs == old(proofs) + [Token(r, false)]
                && runtimes == old(runtimes)
                   && registryReceipts == old(registryReceipts)[registryReceipt := Token(r, true)]
    {
      if !runtimes[r].gate.Composing? || registryReceipts[registryReceipt] != Token(r, false) || !provenance {
        Fail(r);
        return None;
      }
      ghost var before := Now();
      assert RuntimeOk(before, r);
      NotUsedTwice(registryReceipts, registryReceipt);
      Spent(registryReceipts, registryReceipt);
      registryReceipts := registryReceipts[registryReceipt := Token(r, true)];
      Minted(proofs, r);
      proof := Some(|proofs|);
      proofs := proofs + [Token(r, false)];
      forall s | 0 <= s < |runtimes| ensures RuntimeOk(Now(), s) {
        assert RuntimeOk(before, s);
      }
    }

    /** The engine calls back, and the callback may begin the shutdown. */
    method CallBack(r: nat, callback: Callback)
      requires Sound(Now()) && r < |runtimes|
      modifies `runtimes
      ensures Sound(Now()) && EndsStay(old(runtimes), runtimes)
      ensures SameClaims(old(runtimes), runtimes) && OpensAtMost(old(runtimes), runtimes, None)
      ensures runtimes == Called(old(runtimes), r, callback)
    {
      if callback.shutsDown { BeginShutdown(r); }
    }

    /** markCompositionComplete. `during` is what the gates were right after the
        callback: the gate of r was SHUTDOWN then and is AUTHORIZABLE now exactly if
        the callback shut it down and still answered "current". */
    method MarkCompositionComplete(r: nat, proof: nat, callback: Callback)
      returns (receipt: Option<nat>, ghost during: seq<Runtime>)
      requires Sound(Now()) && r < |runtimes| && proof < |proofs|
      modifies `runtimes, `proofs, `receipts
      ensures Sound(Now()) && |runtimes| == |during| == |old(runtimes)|
      ensures SameClaims(old(runtimes), runtimes) && OpensAtMost(old(runtimes), runtimes, None)
      ensures EndsStay(old(runtimes), during)
              && (receipt.None? || !during[r].gate.Shutdown? ==> EndsStay(during, runtimes))
      ensures receipt.Some? <==> old(runtimes)[r].gate.Composing? && old(proofs)[proof] == Token(r, false)
                                 && callback.current
      ensures receipt.Some? ==> (during[r].gate.Shutdown? <==> callback.shutsDown)
      ensures during == if old(runtimes)[r].gate.Composing? && old(proofs)[proof] == Token(r, false)
                        then Called(old(runtimes), r, callback) else old(runtimes)
      ensures receipt.None? ==>
                runtimes == Failing(during, r) && receipts == old(receipts) && proofs == old(proofs)
      ensures receipt.Some? ==>
                && receipt.value == |old(receipts)| && receipts == old(receipts) + [Token(r, false)]
                && runtimes == during[r := during[r].(gate := Authorizable)]
                   && proofs == old(proofs)[proof := Token(r, true)]
    {
      during := runtimes;
      if !runtimes[r].gate.Composing? || proofs[proof] != Token(r, false) {
        Fail(r);
        return None, during;
      }
      assert RuntimeOk(Now(), r);
      CallBack(r, callback);
      during := runtimes;
      if !callback.current {
        Fail(r);
        return None, during;
      }
      receipt := Some(|receipts|);
      IssueReceipt(r, proof);
    }

    method IssueReceipt(r: nat, proof: nat)
      requires Sound(Now()) && r < |runtimes| && proof < |proofs|
      requires runtimes[r].gate.Composing? || runtimes[r].gate.Shutdown?
      requires proofs[proof] == Token(r, false) && !Has(receipts, r)
      modifies `runtimes, `proofs, `receipts
      ensures Sound(Now())
      ensures runtimes == old(runtimes)[r := old(runtimes)[r].(gate := Authorizable)]
      ensures proofs == old(proofs)[proof := Token(r, true)] && receipts == old(receipts) + [Token(r, false)]
    {
      ghost var before := Now();
      assert RuntimeOk(before, r);
      Spent(proofs, proof);
      proofs := proofs[proof := Token(r, true)];
      runtimes := runtimes[r := runtimes[r].(gate := Authorizable)];
      Minted(receipts, r);
      receipts := receipts + [Token(r, false)];
      forall s | 0 <= s < |runtimes| ensures RuntimeOk(Now(), s) {
        assert RuntimeOk(before, s);
      }
    }

    /** authorizeReady: the receipt of this runtime opens the gate, once; with the
        same `during` as above. */
    method AuthorizeReady(r: nat, receipt: nat, callback: Callback) returns (nowOpen: bool, ghost during: seq<Runtime>)
      requires Sound(Now()) && r < |runtimes| && receipt < |receipts|
      modifies `runtimes, `receipts
      ensures Sound(Now()) && |runtimes| == |during| == |old(runtimes)|
      ensures SameClaims(old(runtimes), runtimes)
              && OpensAtMost(old(runtimes), runtimes, if nowOpen then Some(r) else None)
      ensures EndsStay(old(runtimes), during) && (!nowOpen || !during[r].gate.Shutdown? ==> EndsStay(during, runtimes))
      ensures nowOpen <==> old(runtimes)[r].gate.Authorizable? && old(receipts)[receipt] == Token(r, false)
                           && callback.current
      ensures nowOpen ==> (during[r].gate.Shutdown? <==> callback.shutsDown)
      ensures during == if old(runtimes)[r].gate.Authorizable? && old(receipts)[receipt] == Token(r, false)
                        then Called(old(runtimes), r, callback) else old(runtimes)
      ensures nowOpen ==>
                && runtimes == during[r := during[r].(gate := Open, watched := true)]
                && receipts == old(receipts)[receipt := Token(r, true)]
      ensures !nowOpen ==> runtimes == Failing(during, r) && receipts == old(receipts)
    {
      during := runtimes;
      if !runtimes[r].gate.Authorizable? || receipts[receipt] != Token(r, false) {
        Fail(r);
        return false, during;
      }
      CallBack(r, callback);
      during := runtimes;
      if !callback.current {
        Fail(r);
        return false, during;
      }
      OpenGate(r, receipt);
      return true, during;
    }

    method OpenGate(r: nat, receipt: nat)
      requires Sound(Now()) && r < |runtimes| && receipt < |receipts|
      requires runtimes[r].gate.Authorizable? || runtimes[r].gate.Shutdown?
      requires receipts[receipt] == Token(r, false)
      modifies `runtimes, `receipts
      ensures Sound(Now())
      ensures runtimes == old(runtimes)[r := old(runtimes)[r].(gate := Open, watched := true)]
      ensures receipts == old(receipts)[receipt := Token(r, true)]
    {
      ghost var before := Now();
      assert RuntimeOk(before, r);
      Spent(receipts, receipt);
      receipts := receipts[receipt := Token(r, true)];
      runtimes := runtimes[r := runtimes[r].(gate := Open, watched := true)];
      forall s | 0 <= s < |runtimes| ensures RuntimeOk(Now(), s) {
        assert RuntimeOk(before, s);
      }
    }
  }

  /** A runtime's only token, while unused, has not been used. */
  lemma NotUsedTwice(tokens: seq<Token>, k: nat)
    requires k < |tokens| && !tokens[k].used && AtMostOne(tokens, tokens[k].runtime)
    ensures !Used(tokens, tokens[k].runtime)
  {
  }

  /** Adding an unused token of a runtime that had none. */
  lemma Minted(tokens: seq<Token>, r: nat)
    ensures var after := tokens + [Token(r, false)];
            && (forall s :: Has(after, s) <==> Has(tokens, s) || s == r)
            && (forall s :: Used(after, s) <==> Used(tokens, s))
            && (!Has(tokens, r) ==> forall s :: AtMostOne(tokens, s) ==> AtMostOne(after, s))
  {
    var after := tokens + [Token(r, false)];
    assert after[|tokens|] == Token(r, false);
    forall s | Has(tokens, s) ensures Has(after, s) {
      var k :| 0 <= k < |tokens| && tokens[k].runtime == s;
      assert after[k].runtime == s;
    }
    forall s | Used(tokens, s) ensures Used(after, s) {
      var k :| 0 <= k < |tokens| && tokens[k] == Token(s, true);
      assert after[k] == Token(s, true);
    }
  }

  /** Marking one token used. */
  lemma Spent(tokens: seq<Token>, k: nat)
    requires k < |tokens|
    ensures var after := tokens[k := tokens[k].(used := true)];
            && (forall s :: Has(after, s) <==> Has(tokens, s))
            && (forall s :: Used(tokens, s) ==> Used(after, s)) && Used(after, tokens[k].runtime)
            && (forall s :: AtMostOne(tokens, s) ==> AtMostOne(after, s))
  {
    var after := tokens[k := tokens[k].(used := true)];
    forall s ensures Has(after, s) <==> Has(tokens, s) {
      if Has(tokens, s) {
        var j :| 0 <= j < |tokens| && tokens[j].runtime == s;
        assert after[j].runtime == s;
      }
      if Has(after, s) {
        var j :| 0 <= j < |after| && after[j].runtime == s;
        assert tokens[j].runtime == s;
      }
    }
    forall s | Used(tokens, s) ensures Used(after, s) {
      var j :| 0 <= j < |tokens| && tokens[j] == Token(s, true);
      assert after[j] == Token(s, true);
    }
    assert after[k] == Token(tokens[k].runtime, true);
  }

  /** A gate that is shut down from inside the last callback, and opens. */
  method ShutdownLost() returns (engine: Engine, ghost during: seq<Runtime>)
    ensures fresh(engine) && Sound(engine.Now())
    ensures |during| == |engine.runtimes| == 1 && during[0].gate.Shutdown? && engine.runtimes[0].gate.Open?
  {
    engine := new Engine();
    var _ := engine.CreateBootstrap(0);
    var authority := engine.TakeRegistryAuthority(0);
    var registry := engine.ComposeRegistry(authority.value, true);
    var proof := engine.CompleteComposition(0, registry.value, true);
    var receipt, _ := engine.MarkCompositionComplete(0, proof.value, Callback(true, false));
    var nowOpen;
    nowOpen, during := engine.AuthorizeReady(0, receipt.value, Callback(true, true));
  }
}
