/** Pool deployment: ten dependent transactions of the master signer, signed in one database transaction
    against contract addresses that do not exist yet. */
module PoolDeploy {
  import opened Types
  import opened Lifecycle
  import opened Theorems
  import opened World
  import opened Signing
  import opened Evm

  /** Gas limits: one per contract bytecode, and the oracle's for calls. */
  datatype Gas = Gas(tokenIndex: nat, limiter: nat, swapPool: nat, quoter: nat, call: nat)

  /** The contracts of a deployment whose first nonce is `base`. */
  function TokenIndexAt(m: Address, base: nat): Address { Created(m, base) }
  function LimiterAt(m: Address, base: nat): Address { Created(m, base + 1) }
  function SwapPoolAt(m: Address, base: nat): Address { Created(m, base + 2) }
  function QuoterAt(m: Address, base: nat): Address { Created(m, base + 3) }

  /** What the job means to sign, by position. */
  function Script(m: Address, base: nat, owner: Address, poolIndex: Address, gas: Gas): seq<Intent> {
    var index, limiter, pool, quoter := TokenIndexAt(m, base), LimiterAt(m, base), SwapPoolAt(m, base),
      QuoterAt(m, base);
    [ Intent(m, base, None, 0, Publish(TokenIndexCode), gas.tokenIndex),
      Intent(m, base + 1, None, 0, Publish(LimiterCode), gas.limiter),
      Intent(m, base + 2, None, 0, Publish(SwapPoolCode(index, limiter)), gas.swapPool),
      Intent(m, base + 3, None, 0, Publish(QuoterCode), gas.quoter),
      Intent(m, base + 4, Some(poolIndex), 0, Add(pool), gas.call),
      Intent(m, base + 5, Some(pool), 0, SetQuoter(quoter), gas.call),
      Intent(m, base + 6, Some(limiter), 0, TransferOwnership(owner), gas.call),
      Intent(m, base + 7, Some(index), 0, TransferOwnership(owner), gas.call),
      Intent(m, base + 8, Some(pool), 0, TransferOwnership(owner), gas.call),
      Intent(m, base + 9, Some(quoter), 0, TransferOwnership(owner), gas.call) ]
  }

  /** Contract `at` exists from step `from` on, with the given code, and is the master's until step `handover`. */
  predicate Stage(accounts: Accounts, at: Address, code: Code, m: Address, k: nat, from: nat, handover: nat) {
    if k < from then at !in accounts
    else at in accounts && accounts[at].code == code && (k < handover ==> accounts[at].owner == m)
  }

  /** What holds after k of the ten whatever anybody else does. */
  predicate Phase(accounts: Accounts, m: Address, base: nat, poolIndex: Address, k: nat) {
    var index, limiter, pool, quoter := TokenIndexAt(m, base), LimiterAt(m, base), SwapPoolAt(m, base),
      QuoterAt(m, base);
    && Stage(accounts, index, TokenIndexCode, m, k, 1, 8)
    && Stage(accounts, limiter, LimiterCode, m, k, 2, 7)
    && Stage(accounts, pool, SwapPoolCode(index, limiter), m, k, 3, 9)
    && Stage(accounts, quoter, QuoterCode, m, k, 4, 10)
    && poolIndex !in {index, limiter, pool, quoter}
    && poolIndex in accounts && accounts[poolIndex].code == TokenIndexCode && accounts[poolIndex].owner == m
    && (k >= 5 ==> pool in accounts[poolIndex].entries)
    && (6 <= k < 9 ==> accounts[pool].quoter == Some(quoter))
  }

  /** What the requested owner has been handed after k of the ten is as it was handed over. */
  predicate HandedOver(accounts: Accounts, m: Address, base: nat, owner: Address, k: nat) {
    var index, limiter, pool, quoter := TokenIndexAt(m, base), LimiterAt(m, base), SwapPoolAt(m, base),
      QuoterAt(m, base);
    && (k >= 7 ==> limiter in accounts && accounts[limiter].owner == owner)
    && (k >= 8 ==> index in accounts && accounts[index].owner == owner)
    && (k >= 9 ==> pool in accounts && accounts[pool].owner == owner && accounts[pool].quoter == Some(quoter))
    && (k >= 10 ==> quoter in accounts && accounts[quoter].owner == owner)
  }

  /** A call that passes a contract on, or gives the pool another quoter. */
  predicate Changes(i: Intent, at: Address) {
    i.to == Some(at) && (i.call.TransferOwnership? || i.call.SetQuoter?)
  }

  /** The call changes nothing that k of the ten have already handed over. */
  predicate LeavesHandedOver(i: Intent, m: Address, base: nat, k: nat) {
    && (k >= 7 ==> !Changes(i, LimiterAt(m, base)))
    && (k >= 8 ==> !Changes(i, TokenIndexAt(m, base)))
    && (k >= 9 ==> !Changes(i, SwapPoolAt(m, base)))
    && (k >= 10 ==> !Changes(i, QuoterAt(m, base)))
  }

  /** Among `txs`, the requested owner changes no contract after its handover; other calls of his are free. */
  ghost predicate OwnerWaits(txs: seq<Intent>, m: Address, base: nat, owner: Address) {
    forall j :: 0 <= j < |txs| && txs[j].sender == owner && owner != m ==>
      LeavesHandedOver(txs[j], m, base, |BySender(txs[..j], m)|)
  }

  /** What the deployment needs before it starts: a pool index the master owns, at none of the new addresses. */
  predicate Ready(accounts: Accounts, m: Address, base: nat, poolIndex: Address) {
    && poolIndex in accounts && accounts[poolIndex].code == TokenIndexCode && accounts[poolIndex].owner == m
    && forall n :: base <= n < base + 4 ==> Created(m, n) !in accounts
  }

  /** Each of the ten succeeds where the ones before it have led, and hands over what it should. */
  lemma ScriptStep(accounts: Accounts, m: Address, base: nat, owner: Address, poolIndex: Address, gas: Gas, k: nat)
    requires k < 10 && Phase(accounts, m, base, poolIndex, k)
    ensures var i := Script(m, base, owner, poolIndex, gas)[k];
            && Exec(accounts, i).Some? && Phase(After(accounts, i), m, base, poolIndex, k + 1)
            && (HandedOver(accounts, m, base, owner, k) ==> HandedOver(After(accounts, i), m, base, owner, k + 1))
  {
  }

  /** Nobody but the master can disturb it on the way, the requested owner included. */
  lemma StrangerStep(accounts: Accounts, m: Address, base: nat, poolIndex: Address, k: nat, i: Intent)
    requires Phase(accounts, m, base, poolIndex, k) && i.sender != m
    ensures Phase(After(accounts, i), m, base, poolIndex, k)
  {
  }

  /** What has been handed over stays so unless the requested owner himself changes it. */
  lemma OwnerStep(accounts: Accounts, m: Address, base: nat, owner: Address, poolIndex: Address, k: nat, i: Intent)
    requires Phase(accounts, m, base, poolIndex, k) && HandedOver(accounts, m, base, owner, k)
    requires i.sender != m && (i.sender == owner ==> LeavesHandedOver(i, m, base, k))
    ensures HandedOver(After(accounts, i), m, base, owner, k)
  {
  }

  lemma Starts(accounts: Accounts, m: Address, base: nat, owner: Address, poolIndex: Address)
    requires Ready(accounts, m, base, poolIndex)
    ensures Phase(accounts, m, base, poolIndex, 0) && HandedOver(accounts, m, base, owner, 0)
  {
  }

  /** Over any chain order of everybody's transactions, only the master's advance the deployment, in nonce order,
      and each of them succeeds.  Unless the requested owner changes them himself, the contracts handed over
      so far stay as they were handed over. */
  lemma {:induction false} DeploymentAdvances(accounts: Accounts, txs: seq<Intent>, m: Address, base: nat,
                                              owner: Address, poolIndex: Address, gas: Gas)
    requires Ready(accounts, m, base, poolIndex)
    requires BySender(txs, m) <= Script(m, base, owner, poolIndex, gas)
    ensures NoneReverts(accounts, txs, m)
    ensures Phase(ExecAll(accounts, txs), m, base, poolIndex, |BySender(txs, m)|)
    ensures OwnerWaits(txs, m, base, owner) ==> HandedOver(ExecAll(accounts, txs), m, base, owner, |BySender(txs, m)|)
    decreases |txs|
  {
    hide Phase, HandedOver, Script, Ready, LeavesHandedOver;
    if txs == [] {
      Starts(accounts, m, base, owner, poolIndex);
    } else {
      var before, last := txs[..|txs| - 1], txs[|txs| - 1];
      var script, k := Script(m, base, owner, poolIndex, gas), |BySender(before, m)|;
      assert BySender(before, m) <= BySender(txs, m);
      PrefixOfPrefix(BySender(before, m), BySender(txs, m), script);
      DeploymentAdvances(accounts, before, m, base, owner, poolIndex, gas);
      OwnerWaitedBefore(txs, m, base, owner);
      hide OwnerWaits;
      if last.sender == m {
        assert BySender(txs, m)[k] == last == script[k];
        TenSteps(m, base, owner, poolIndex, gas);
        ScriptStep(ExecAll(accounts, before), m, base, owner, poolIndex, gas, k);
      } else {
        StrangerStep(ExecAll(accounts, before), m, base, poolIndex, k, last);
        if OwnerWaits(txs, m, base, owner) {
          OwnerStep(ExecAll(accounts, before), m, base, owner, poolIndex, k, last);
        }
      }
    }
  }

  lemma OwnerWaitedBefore(txs: seq<Intent>, m: Address, base: nat, owner: Address)
    requires txs != []
    ensures var before, last := txs[..|txs| - 1], txs[|txs| - 1];
            OwnerWaits(txs, m, base, owner) ==>
              && OwnerWaits(before, m, base, owner)
              && (last.sender == owner && owner != m ==> LeavesHandedOver(last, m, base, |BySender(before, m)|))
  {
    hide LeavesHandedOver, BySender;
    var before := txs[..|txs| - 1];
    assert forall j :: 0 <= j < |before| ==> before[j] == txs[j] && before[..j] == txs[..j];
  }

  lemma PrefixOfPrefix(x: seq<Intent>, y: seq<Intent>, z: seq<Intent>)
    requires x <= y <= z
    ensures x <= z
  {
  }

  lemma TenSteps(m: Address, base: nat, owner: Address, poolIndex: Address, gas: Gas)
    ensures |Script(m, base, owner, poolIndex, gas)| == 10
  {
  }

  /** The end state of a deployment: pool indexed, quoter set, four contracts with the requested owner. */
  predicate Delivered(accounts: Accounts, m: Address, base: nat, owner: Address, poolIndex: Address) {
    var index, limiter, pool, quoter := TokenIndexAt(m, base), LimiterAt(m, base), SwapPoolAt(m, base),
      QuoterAt(m, base);
    && {index, limiter, pool, quoter, poolIndex} <= accounts.Keys
    && accounts[index].owner == accounts[limiter].owner == accounts[pool].owner == accounts[quoter].owner == owner
    && accounts[pool].code == SwapPoolCode(index, limiter) && accounts[pool].quoter == Some(quoter)
    && pool in accounts[poolIndex].entries
  }

  /** Once its ten transactions are mined, whatever order they were dispatched in and whatever anybody had mined
      between them: none of the ten reverts, the four contracts exist, and the pool is indexed.  All four belong to
      the requested owner and the quoter is set, unless he has changed a contract he was handed. */
  lemma DeploymentIsComplete(accounts: Accounts, txs: seq<Intent>, m: Address, base: nat, owner: Address,
                             poolIndex: Address, gas: Gas)
    requires Ready(accounts, m, base, poolIndex)
    requires BySender(txs, m) == Script(m, base, owner, poolIndex, gas)
    ensures NoneReverts(accounts, txs, m)
    ensures var end := ExecAll(accounts, txs);
            && {TokenIndexAt(m, base), LimiterAt(m, base), SwapPoolAt(m, base), QuoterAt(m, base),
                poolIndex} <= end.Keys
            && SwapPoolAt(m, base) in end[poolIndex].entries
            && (OwnerWaits(txs, m, base, owner) ==> Delivered(end, m, base, owner, poolIndex))
  {
    DeploymentAdvances(accounts, txs, m, base, owner, poolIndex, gas);
    TenSteps(m, base, owner, poolIndex, gas);
    hide Script, ExecAll, BySender, NoneReverts, OwnerWaits;
  }

  /** The exception is real: a requested owner can pass his pool on before the deployment has ended. */
  lemma OwnerCanPassOn(accounts: Accounts, m: Address, base: nat, owner: Address, poolIndex: Address, i: Intent,
                       other: Address)
    requires Phase(accounts, m, base, poolIndex, 9) && HandedOver(accounts, m, base, owner, 9)
    requires i.sender == owner && i.to == Some(SwapPoolAt(m, base)) && i.call == TransferOwnership(other)
    ensures Phase(After(accounts, i), m, base, poolIndex, 9) && After(accounts, i)[SwapPoolAt(m, base)].owner == other
  {
  }

  /** Every call of the job targets a contract that exists and that the master still owns: first the pool index,
      given a pool that exists already; then contracts that a smaller nonce of the same job has created. */
  lemma TargetIsReady(accounts: Accounts, m: Address, base: nat, owner: Address, poolIndex: Address, gas: Gas, k: nat)
    requires 4 <= k < 10 && Phase(accounts, m, base, poolIndex, k)
    ensures var script := Script(m, base, owner, poolIndex, gas);
            && script[k].to.Some? && script[k].to.value in accounts && accounts[script[k].to.value].owner == m
            && (k == 4 ==>
                  script[k].to == Some(poolIndex) && script[k].call == Add(SwapPoolAt(m, base))
                    && SwapPoolAt(m, base) in accounts)
            && (k > 4 ==> exists j ::
                0 <= j < k && script[j].call.Publish? && script[k].to.value == Created(m, script[j].nonce))
  {
    var script := Script(m, base, owner, poolIndex, gas);
    assert script[0].call.Publish? && script[1].call.Publish? && script[2].call.Publish? && script[3].call.Publish?;
  }

  /** From the commit of the job to the end state on chain: `txs` is any chain order of everybody's transactions
      in which the master's are those of the job's ten nonces. */
  lemma CommittedDeploymentCompletes(s: State, t: State, accounts: Accounts, txs: seq<Intent>, m: Address, base: nat,
                                     jobs: seq<Signed>, owner: Address, poolIndex: Address, gas: Gas)
    requires Reachable(s) && Leads(s, t) && Committed(s, m, base, jobs)
    requires |jobs| == 10 && Follows(jobs, Script(m, base, owner, poolIndex, gas)) && base + 10 <= |MinedBy(t.mined, m)|
    requires Ready(accounts, m, base, poolIndex) && BySender(txs, m) == Executed(t.mined, m, base, 10)
    ensures NoneReverts(accounts, txs, m) && Phase(ExecAll(accounts, txs), m, base, poolIndex, 10)
    ensures OwnerWaits(txs, m, base, owner) ==> Delivered(ExecAll(accounts, txs), m, base, owner, poolIndex)
  {
    hide Reachable, Leads, Committed, Follows, Script, Ready, Phase, NoneReverts, ExecAll, BySender, OwnerWaits,
      Delivered;
    TenSteps(m, base, owner, poolIndex, gas);
    JobExecutesItsScript(s, t, m, base, jobs, Script(m, base, owner, poolIndex, gas));
    DeploymentAdvances(accounts, txs, m, base, owner, poolIndex, gas);
    DeploymentIsComplete(accounts, txs, m, base, owner, poolIndex, gas);
  }

  /** The order matters: handing over the pool before its quoter is set makes setQuoter revert. */
  lemma HandoverBeforeQuoterReverts(accounts: Accounts, m: Address, base: nat, owner: Address, poolIndex: Address,
                                    gas: Gas)
    requires Phase(accounts, m, base, poolIndex, 5) && owner != m
    ensures var script := Script(m, base, owner, poolIndex, gas);
            Exec(After(accounts, script[8]), script[5]).None?
  {
  }

  ghost function ScriptFrom(m: Address, owner: Address, poolIndex: Address, gas: Gas): nat -> seq<Intent> {
    (base: nat) => Script(m, base, owner, poolIndex, gas)
  }

  lemma DeploymentItems(m: Address, base: nat, owner: Address, poolIndex: Address, gas: Gas)
    ensures var script := Script(m, base, owner, poolIndex, gas);
            && |script| == 10 && script[0] == Intent(m, base, None, 0, Publish(TokenIndexCode), gas.tokenIndex)
            && script[1] == Intent(m, base + 1, None, 0, Publish(LimiterCode), gas.limiter)
            && script[2] ==
                 Intent(m, base + 2, None, 0, Publish(SwapPoolCode(TokenIndexAt(m, base), LimiterAt(m, base))),
                        gas.swapPool)
            && script[3] == Intent(m, base + 3, None, 0, Publish(QuoterCode), gas.quoter)
  {
  }

  lemma CallItems(m: Address, base: nat, owner: Address, poolIndex: Address, gas: Gas)
    ensures var script := Script(m, base, owner, poolIndex, gas);
            && |script| == 10
               && script[4] == Intent(m, base + 4, Some(poolIndex), 0, Add(SwapPoolAt(m, base)), gas.call)
            && script[5] == Intent(m, base + 5, Some(SwapPoolAt(m, base)), 0, SetQuoter(QuoterAt(m, base)), gas.call)
            && script[6] == Intent(m, base + 6, Some(LimiterAt(m, base)), 0, TransferOwnership(owner), gas.call)
            && script[7] == Intent(m, base + 7, Some(TokenIndexAt(m, base)), 0, TransferOwnership(owner), gas.call)
            && script[8] == Intent(m, base + 8, Some(SwapPoolAt(m, base)), 0, TransferOwnership(owner), gas.call)
            && script[9] == Intent(m, base + 9, Some(QuoterAt(m, base)), 0, TransferOwnership(owner), gas.call)
  {
  }

  /** TokenIndex, which fixes the first nonce. */
  method SignTokenIndex(w: World, t: nat, m: Address, gas: Gas, caps: (nat, nat), ghost owner: Address,
                        ghost poolIndex: Address, ghost start: Start)
    returns (ok: bool, jobs: seq<Signed>, index: Address, ghost base: nat)
    requires w.Valid() && Uncommitted(w, start) && Building(w.s, t, m, 0, [], Idle)
    modifies w`s, w`log, w`own
    ensures w.Valid() && Uncommitted(w, start) && t in w.s.live
    ensures ok ==>
              Building(w.s, t, m, base, jobs, Idle) && |jobs| == 1 && Priced(jobs, caps)
                && Kinds(jobs) == [TOKEN_INDEX_DEPLOY] && Follows(jobs, Script(m, base, owner, poolIndex, gas))
    ensures ok ==> index == TokenIndexAt(m, base)
    ensures w.quiet && Free(old(w.s), t, m) ==> ok && Free(w.s, t, m)
  {
    hide Run, Init, Next, Building, Committed, InOrder, Follows, Uncommitted, NoCommit, Script, Free;
    forall b: nat
      ensures |Script(m, b, owner, poolIndex, gas)| > 0
      ensures Script(m, b, owner, poolIndex, gas)[0] == Intent(m, b, None, 0, Publish(TokenIndexCode), gas.tokenIndex) {
      DeploymentItems(m, b, owner, poolIndex, gas);
    }
    var nonce;
    ok, nonce, jobs := SignFirst(w, t, m, TOKEN_INDEX_DEPLOY, None, Publish(TokenIndexCode), gas.tokenIndex, caps,
                                 start, ScriptFrom(m, owner, poolIndex, gas));
    base, index := nonce, Created(m, nonce);
  }

  /** Limiter, SwapPool over the first two, PriceIndexQuoter. */
  method SignDeployments(w: World, t: nat, m: Address, gas: Gas, caps: (nat, nat), index: Address,
                         signed: seq<Signed>, ghost base: nat, ghost start: Start, ghost script: seq<Intent>)
    returns (ok: bool, jobs: seq<Signed>, limiter: Address, pool: Address, quoter: Address)
    requires w.Valid() && Uncommitted(w, start) && Building(w.s, t, m, base, signed, Idle) && |signed| == 1
             && Follows(signed, script) && Priced(signed, caps)
    requires |script| == 10 && script[1] == Intent(m, base + 1, None, 0, Publish(LimiterCode), gas.limiter)
    requires script[2] == Intent(m, base + 2, None, 0, Publish(SwapPoolCode(index, LimiterAt(m, base))), gas.swapPool)
    requires script[3] == Intent(m, base + 3, None, 0, Publish(QuoterCode), gas.quoter)
    modifies w`s, w`log, w`own
    ensures w.Valid() && Uncommitted(w, start) && t in w.s.live
    ensures ok ==> Building(w.s, t, m, base, jobs, Idle) && |jobs| == 4 && Follows(jobs, script) && Priced(jobs, caps)
    ensures ok ==> Kinds(jobs) == Kinds(signed) + [LIMITER_DEPLOY, SWAPPOOL_DEPLOY, PRICEINDEXQUOTER_DEPLOY]
    ensures ok ==> limiter == LimiterAt(m, base) && pool == SwapPoolAt(m, base) && quoter == QuoterAt(m, base)
    ensures w.quiet && Free(old(w.s), t, m) ==> ok && Free(w.s, t, m)
  {
    hide Run, Init, Next, Building, Committed, InOrder, Follows, Uncommitted, NoCommit, Free;
    BuildingIsOpen(w.s, t, m, base, signed, Idle);
    jobs := signed;
    limiter, pool, quoter := m, m, m;
    var nonce;
    ok, nonce, jobs := SignNext(w, t, m, base, jobs, LIMITER_DEPLOY, None, Publish(LimiterCode), gas.limiter, caps,
                                start, script);
    if !ok {
      return;
    }
    limiter := Created(m, nonce);
    ok, nonce, jobs := SignNext(w, t, m, base, jobs, SWAPPOOL_DEPLOY, None, Publish(SwapPoolCode(index, limiter)),
                                gas.swapPool, caps, start, script);
    if !ok {
      return;
    }
    pool := Created(m, nonce);
    ok, nonce, jobs := SignNext(w, t, m, base, jobs, PRICEINDEXQUOTER_DEPLOY, None, Publish(QuoterCode), gas.quoter,
                                caps, start, script);
    quoter := Created(m, nonce);
  }

  /** The next two: the pool into the pool index, the quoter into the pool. */
  method SignWiring(w: World, t: nat, m: Address, poolIndex: Address, pool: Address, quoter: Address, gas: Gas,
                    caps: (nat, nat), signed: seq<Signed>, ghost base: nat, ghost start: Start,
                    ghost script: seq<Intent>)
    returns (ok: bool, jobs: seq<Signed>)
    requires w.Valid() && Uncommitted(w, start) && Building(w.s, t, m, base, signed, Idle) && |signed| == 4
             && Follows(signed, script) && Priced(signed, caps)
    requires |script| == 10 && script[4] == Intent(m, base + 4, Some(poolIndex), 0, Add(pool), gas.call)
    requires script[5] == Intent(m, base + 5, Some(pool), 0, SetQuoter(quoter), gas.call)
    modifies w`s, w`log, w`own
    ensures w.Valid() && Uncommitted(w, start) && t in w.s.live
    ensures ok ==> Building(w.s, t, m, base, jobs, Idle) && |jobs| == 6 && Follows(jobs, script) && Priced(jobs, caps)
    ensures ok ==> Kinds(jobs) == Kinds(signed) + [POOL_INDEX_ADD, SET_QUOTER]
    ensures w.quiet && Free(old(w.s), t, m) ==> ok && Free(w.s, t, m)
  {
    hide Run, Init, Next, Building, Committed, InOrder, Follows, Uncommitted, NoCommit, Free;
    BuildingIsOpen(w.s, t, m, base, signed, Idle);
    jobs := signed;
    var nonce;
    ok, nonce, jobs := SignNext(w, t, m, base, jobs, POOL_INDEX_ADD, Some(poolIndex), Add(pool), gas.call, caps, start,
                                script);
    if !ok {
      return;
    }
    ok, nonce, jobs := SignNext(w, t, m, base, jobs, SET_QUOTER, Some(pool), SetQuoter(quoter), gas.call, caps, start,
                                script);
  }

  /** The last four: all contracts to the requested owner. */
  method SignHandover(w: World, t: nat, m: Address, owner: Address, index: Address, limiter: Address, pool: Address,
                      quoter: Address, gas: Gas, caps: (nat, nat), signed: seq<Signed>, ghost base: nat,
                      ghost start: Start, ghost script: seq<Intent>)
    returns (ok: bool, jobs: seq<Signed>)
    requires w.Valid() && Uncommitted(w, start) && Building(w.s, t, m, base, signed, Idle) && |signed| == 6
             && Follows(signed, script) && Priced(signed, caps)
    requires |script| == 10 && script[6] == Intent(m, base + 6, Some(limiter), 0, TransferOwnership(owner), gas.call)
    requires script[7] == Intent(m, base + 7, Some(index), 0, TransferOwnership(owner), gas.call)
    requires script[8] == Intent(m, base + 8, Some(pool), 0, TransferOwnership(owner), gas.call)
    requires script[9] == Intent(m, base + 9, Some(quoter), 0, TransferOwnership(owner), gas.call)
    modifies w`s, w`log, w`own
    ensures w.Valid() && Uncommitted(w, start) && t in w.s.live
    ensures ok ==> Building(w.s, t, m, base, jobs, Idle) && |jobs| == 10 && Follows(jobs, script) && Priced(jobs, caps)
    ensures ok ==>
              Kinds(jobs) ==
                Kinds(signed) + [TRANSFER_OWNERSHIP, TRANSFER_OWNERSHIP, TRANSFER_OWNERSHIP, TRANSFER_OWNERSHIP]
    ensures w.quiet && Free(old(w.s), t, m) ==> ok && Free(w.s, t, m)
  {
    hide Run, Init, Next, Building, Committed, InOrder, Follows, Uncommitted, NoCommit, Free;
    BuildingIsOpen(w.s, t, m, base, signed, Idle);
    jobs := signed;
    var nonce;
    ok, nonce, jobs := SignNext(w, t, m, base, jobs, TRANSFER_OWNERSHIP, Some(limiter), TransferOwnership(owner),
                                gas.call, caps, start, script);
    if !ok {
      return;
    }
    ok, nonce, jobs := SignNext(w, t, m, base, jobs, TRANSFER_OWNERSHIP, Some(index), TransferOwnership(owner),
                                gas.call, caps, start, script);
    if !ok {
      return;
    }
    ok, nonce, jobs := SignNext(w, t, m, base, jobs, TRANSFER_OWNERSHIP, Some(pool), TransferOwnership(owner), gas.call,
                                caps, start, script);
    if !ok {
      return;
    }
    ok, nonce, jobs := SignNext(w, t, m, base, jobs, TRANSFER_OWNERSHIP, Some(quoter), TransferOwnership(owner),
                                gas.call, caps, start, script);
  }

  /** The job.  It commits all ten in one transaction, or nothing. */
  method Work(w: World, m: Address, owner: Address, poolIndex: Address, gas: Gas)
    returns (ok: bool, jobs: seq<Signed>, ghost base: nat, ghost caps: (nat, nat))
    requires w.Valid()
    modifies w
    ensures w.Later(old(w.s), old(w.log))
    ensures ok ==>
              Committed(w.s, m, base, jobs) && |jobs| == 10 && Follows(jobs, Script(m, base, owner, poolIndex, gas))
    ensures ok ==> CapsHeard(w.heard, |old(w.heard)|, caps) && Priced(jobs, caps)
    ensures ok ==>
              Kinds(jobs) ==
                [TOKEN_INDEX_DEPLOY, LIMITER_DEPLOY, SWAPPOOL_DEPLOY, PRICEINDEXQUOTER_DEPLOY, POOL_INDEX_ADD,
                 SET_QUOTER, TRANSFER_OWNERSHIP, TRANSFER_OWNERSHIP, TRANSFER_OWNERSHIP, TRANSFER_OWNERSHIP]
    ensures !ok ==> NoCommit(old(w.own), w.own)
    ensures w.quiet && CanSign(old(w.s), m) ==> ok
  {
    hide Run, Init, Next, Building, Committed, InOrder, Follows, Uncommitted, NoCommit, Free, Script, Priced, Kinds,
      CapsHeard;
    var t, gasSettings;
    ghost var start;
    t, gasSettings, start := StartJob(w, m);
    ok, jobs, base, caps := false, [], 0, (0, 0);
    if gasSettings.Some? {
      caps := gasSettings.value;
      var index, limiter, pool, quoter;
      ok, jobs, index, base := SignTokenIndex(w, t, m, gas, gasSettings.value, owner, poolIndex, start);
      ghost var script := Script(m, base, owner, poolIndex, gas);
      DeploymentItems(m, base, owner, poolIndex, gas);
      CallItems(m, base, owner, poolIndex, gas);
      if ok {
        ok, jobs, limiter, pool, quoter := SignDeployments(w, t, m, gas, gasSettings.value, index, jobs, base, start,
                                                           script);
      }
      if ok {
        ok, jobs := SignWiring(w, t, m, poolIndex, pool, quoter, gas, gasSettings.value, jobs, base, start, script);
      }
      if ok {
        ok, jobs := SignHandover(w, t, m, owner, index, limiter, pool, quoter, gas, gasSettings.value, jobs, base,
                                 start, script);
      }
    }
    if !ok {
      AbandonJob(w, t, start);
      return;
    }
    ok := CommitJob(w, t, m, jobs, base, start);
  }
}
