/** Token deployments, and the token transfer as the plainest job of all. */
module TokenDeploy {
  import opened Types
  import opened Lifecycle
  import opened Theorems
  import opened World
  import opened Signing
  import opened Evm
  import opened Amounts

  /** Deploy, index, mint the initial supply, hand over. */
  function Script(m: Address, base: nat, tokenIndex: Address, mintee: Address, supply: int, owner: Address,
                  deployGas: nat, gas: nat): seq<Intent> {
    var token := Created(m, base);
    [ Intent(m, base, None, 0, Publish(TokenCode), deployGas),
      Intent(m, base + 1, Some(tokenIndex), 0, Add(token), gas),
      Intent(m, base + 2, Some(token), 0, MintTo(mintee, supply), gas),
      Intent(m, base + 3, Some(token), 0, TransferOwnership(owner), gas) ]
  }

  /** A token index the master owns, and nothing yet where the token will be. */
  predicate Ready(accounts: Accounts, m: Address, base: nat, tokenIndex: Address) {
    && Created(m, base) !in accounts
    && tokenIndex in accounts && accounts[tokenIndex].code == TokenIndexCode && accounts[tokenIndex].owner == m
  }

  /** What holds after k of the four whatever anybody else does. */
  predicate Phase(accounts: Accounts, m: Address, base: nat, tokenIndex: Address, supply: int, k: nat) {
    var token := Created(m, base);
    && tokenIndex != token
    && tokenIndex in accounts && accounts[tokenIndex].code == TokenIndexCode && accounts[tokenIndex].owner == m
    && (if k == 0 then token !in accounts
        else token in accounts && accounts[token].code == TokenCode && (k < 4 ==> accounts[token].owner == m))
    && (1 <= k < 3 ==> accounts[token].supply == 0)
    && (k == 3 ==> accounts[token].supply == supply)
    && (k >= 4 ==> accounts[token].supply >= supply)
    && (k >= 2 ==> token in accounts[tokenIndex].entries)
  }

  /** The requested owner holds the token as it was minted. */
  predicate HandedOver(accounts: Accounts, m: Address, base: nat, supply: int, owner: Address, k: nat) {
    var token := Created(m, base);
    k >= 4 ==> token in accounts && accounts[token].owner == owner && accounts[token].supply == supply
  }

  /** A call that passes the token on, or mints more of it. */
  predicate Changes(i: Intent, at: Address) {
    i.to == Some(at) && (i.call.TransferOwnership? || i.call.MintTo?)
  }

  /** Among `txs`, the requested owner changes nothing about the token after its handover. */
  ghost predicate OwnerWaits(txs: seq<Intent>, m: Address, base: nat, owner: Address) {
    forall j :: 0 <= j < |txs| && txs[j].sender == owner && owner != m && |BySender(txs[..j], m)| >= 4 ==>
      !Changes(txs[j], Created(m, base))
  }

  /** Each of the four succeeds where the ones before it have led. */
  lemma ScriptStep(accounts: Accounts, m: Address, base: nat, tokenIndex: Address, mintee: Address, supply: int,
                   owner: Address, deployGas: nat, gas: nat, k: nat)
    requires k < 4 && supply >= 0 && Phase(accounts, m, base, tokenIndex, supply, k)
    ensures var i := Script(m, base, tokenIndex, mintee, supply, owner, deployGas, gas)[k];
            && Exec(accounts, i).Some? && Phase(After(accounts, i), m, base, tokenIndex, supply, k + 1)
            && HandedOver(After(accounts, i), m, base, supply, owner, k + 1)
  {
  }

  /** Nobody but the master can disturb it on the way, the requested owner included. */
  lemma StrangerStep(accounts: Accounts, m: Address, base: nat, tokenIndex: Address, supply: int, k: nat, i: Intent)
    requires Phase(accounts, m, base, tokenIndex, supply, k) && i.sender != m
    ensures Phase(After(accounts, i), m, base, tokenIndex, supply, k)
  {
  }

  lemma OwnerStep(accounts: Accounts, m: Address, base: nat, supply: int, owner: Address, k: nat, i: Intent)
    requires HandedOver(accounts, m, base, supply, owner, k) && i.sender != m
    requires i.sender == owner && k >= 4 ==> !Changes(i, Created(m, base))
    ensures HandedOver(After(accounts, i), m, base, supply, owner, k)
  {
  }

  /** In nonce order, whatever anybody did in between, the token is deployed, indexed and minted before it changes
      hands, and none of the four reverts.  Unless the requested owner changes it himself, it stays as handed over. */
  lemma {:induction false} DeploymentAdvances(accounts: Accounts, txs: seq<Intent>, m: Address, base: nat,
                                              tokenIndex: Address, mintee: Address, supply: int, owner: Address,
                                              deployGas: nat, gas: nat)
    requires Ready(accounts, m, base, tokenIndex) && supply >= 0
    requires BySender(txs, m) <= Script(m, base, tokenIndex, mintee, supply, owner, deployGas, gas)
    ensures NoneReverts(accounts, txs, m)
    ensures Phase(ExecAll(accounts, txs), m, base, tokenIndex, supply, |BySender(txs, m)|)
    ensures OwnerWaits(txs, m, base, owner) ==>
              HandedOver(ExecAll(accounts, txs), m, base, supply, owner, |BySender(txs, m)|)
    decreases |txs|
  {
    if txs != [] {
      hide Phase, HandedOver, Script, Ready, Changes;
      var before, last := txs[..|txs| - 1], txs[|txs| - 1];
      var script, k := Script(m, base, tokenIndex, mintee, supply, owner, deployGas, gas), |BySender(before, m)|;
      assert BySender(before, m) <= BySender(txs, m);
      assert BySender(before, m) <= script;
      assert |script| == 4 by { FourSteps(m, base, tokenIndex, mintee, supply, owner, deployGas, gas); }
      DeploymentAdvances(accounts, before, m, base, tokenIndex, mintee, supply, owner, deployGas, gas);
      OwnerWaitedBefore(txs, m, base, owner);
      hide OwnerWaits;
      if last.sender == m {
        assert BySender(txs, m)[k] == last == script[k];
        ScriptStep(ExecAll(accounts, before), m, base, tokenIndex, mintee, supply, owner, deployGas, gas, k);
      } else {
        StrangerStep(ExecAll(accounts, before), m, base, tokenIndex, supply, k, last);
        if OwnerWaits(txs, m, base, owner) {
          OwnerStep(ExecAll(accounts, before), m, base, supply, owner, k, last);
        }
      }
      hide After;
    }
  }

  lemma OwnerWaitedBefore(txs: seq<Intent>, m: Address, base: nat, owner: Address)
    requires txs != []
    ensures var before, last := txs[..|txs| - 1], txs[|txs| - 1];
            OwnerWaits(txs, m, base, owner) ==>
              && OwnerWaits(before, m, base, owner)
              && (last.sender == owner && owner != m && |BySender(before, m)| >= 4 ==> !Changes(last, Created(m, base)))
  {
    hide Changes, BySender;
    var before := txs[..|txs| - 1];
    assert forall j :: 0 <= j < |before| ==> before[j] == txs[j] && before[..j] == txs[..j];
  }

  /** From the commit of the job to the end state on chain: indexed in any case, and owned by the requested owner with
      the initial supply minted unless he has changed that himself. */
  lemma CommittedDeploymentCompletes(s: State, t: State, accounts: Accounts, txs: seq<Intent>, m: Address, base: nat,
                                     jobs: seq<Signed>, tokenIndex: Address, mintee: Address, supply: int,
                                     owner: Address, deployGas: nat, gas: nat)
    requires Reachable(s) && Leads(s, t) && Committed(s, m, base, jobs)
    requires |jobs| == 4 && Follows(jobs, Script(m, base, tokenIndex, mintee, supply, owner, deployGas, gas))
    requires base + 4 <= |MinedBy(t.mined, m)| && BySender(txs, m) == Executed(t.mined, m, base, 4)
    requires Ready(accounts, m, base, tokenIndex) && supply >= 0
    ensures var end, token := ExecAll(accounts, txs), Created(m, base);
            && NoneReverts(accounts, txs, m) && {token, tokenIndex} <= end.Keys
            && token in end[tokenIndex].entries && end[token].code == TokenCode && end[token].supply >= supply
            && (OwnerWaits(txs, m, base, owner) ==> end[token].owner == owner && end[token].supply == supply)
  {
    hide Reachable, Leads, Committed, Follows, Script, Ready, NoneReverts, ExecAll, BySender, OwnerWaits;
    FourSteps(m, base, tokenIndex, mintee, supply, owner, deployGas, gas);
    JobExecutesItsScript(s, t, m, base, jobs, Script(m, base, tokenIndex, mintee, supply, owner, deployGas, gas));
    DeploymentAdvances(accounts, txs, m, base, tokenIndex, mintee, supply, owner, deployGas, gas);
  }

  lemma FourSteps(m: Address, base: nat, tokenIndex: Address, mintee: Address, supply: int, owner: Address,
                  deployGas: nat, gas: nat)
    ensures |Script(m, base, tokenIndex, mintee, supply, owner, deployGas, gas)| == 4
  {
  }

  /** The other order fails: after the handover the master can no longer mint. */
  lemma MintAfterHandoverReverts(accounts: Accounts, m: Address, base: nat, tokenIndex: Address, mintee: Address,
                                 supply: int, owner: Address, deployGas: nat, gas: nat)
    requires Phase(accounts, m, base, tokenIndex, supply, 2) && owner != m
    ensures var script := Script(m, base, tokenIndex, mintee, supply, owner, deployGas, gas);
            Exec(After(accounts, script[3]), script[2]).None?
  {
  }

  lemma ScriptIs(m: Address, tokenIndex: Address, mintee: Address, supply: int, owner: Address, deployGas: nat,
                 gas: nat)
    ensures forall b: nat ::
              var script := Script(m, b, tokenIndex, mintee, supply, owner, deployGas, gas);
              && |script| == 4
              && script[0] == Intent(m, b, None, 0, Publish(TokenCode), deployGas)
              && script[1] == Intent(m, b + 1, Some(tokenIndex), 0, Add(Created(m, b)), gas)
              && script[2] == Intent(m, b + 2, Some(Created(m, b)), 0, MintTo(mintee, supply), gas)
              && script[3] == Intent(m, b + 3, Some(Created(m, b)), 0, TransferOwnership(owner), gas)
  {
  }

  /** The four transactions; `kind` is the type recorded for the deployment. */
  method Sign(w: World, t: nat, m: Address, tokenIndex: Address, mintee: Address, supplyText: string, owner: Address,
              kind: OtxType, deployGas: nat, gas: nat, caps: (nat, nat), ghost start: Start)
    returns (ok: bool, jobs: seq<Signed>, ghost base: nat)
    requires w.Valid() && Uncommitted(w, start) && Building(w.s, t, m, 0, [], Idle)
    modifies w`s, w`log, w`own
    ensures w.Valid() && Uncommitted(w, start) && t in w.s.live
    ensures ok ==>
              Parse(supplyText).Some? && Building(w.s, t, m, base, jobs, Idle) && |jobs| == 4 && Priced(jobs, caps)
                && Kinds(jobs) == [kind, TOKEN_INDEX_ADD, TOKEN_TRANSFER, TRANSFER_OWNERSHIP]
    ensures ok ==> Follows(jobs, Script(m, base, tokenIndex, mintee, Parse(supplyText).value, owner, deployGas, gas))
    ensures w.quiet && Free(old(w.s), t, m) && Parse(supplyText).Some? ==> ok
  {
    hide Run, Init, Next, Building, Committed, InOrder, Follows, Uncommitted, NoCommit, Free, Parse, Script, Priced;
    ghost var supply0 := match Parse(supplyText) case Some(n) => n case None => 0;
    ghost var script := (b: nat) => Script(m, b, tokenIndex, mintee, supply0, owner, deployGas, gas);
    BuildingIsOpen(w.s, t, m, 0, [], Idle);
    ScriptIs(m, tokenIndex, mintee, supply0, owner, deployGas, gas);
    base := 0;
    var nonce;
    ok, nonce, jobs := SignFirst(w, t, m, kind, None, Publish(TokenCode), deployGas, caps, start, script);
    if !ok {
      return;
    }
    base := nonce;
    var contractAddress := Created(m, nonce);
    ok, nonce, jobs := SignNext(w, t, m, base, jobs, TOKEN_INDEX_ADD, Some(tokenIndex), Add(contractAddress), gas, caps,
                                start, script(base));
    if !ok {
      return;
    }
    var initialSupply := StringToBigInt(supplyText, false);
    if initialSupply.None? {
      ok := false;
      return;
    }
    ok, nonce, jobs := SignNext(w, t, m, base, jobs, TOKEN_TRANSFER, Some(contractAddress),
                                MintTo(mintee, initialSupply.value), gas, caps, start, script(base));
    if !ok {
      return;
    }
    ok, nonce, jobs := SignNext(w, t, m, base, jobs, TRANSFER_OWNERSHIP, Some(contractAddress),
                                TransferOwnership(owner), gas, caps, start, script(base));
  }

  /** The standard token: a positive expiry makes it an expiring one; an expiry that is no number counts as none. */
  method Work(w: World, m: Address, tokenIndex: Address, mintee: Address, supplyText: string, owner: Address,
              expiryText: string, deployGas: nat, gas: nat)
    returns (ok: bool, jobs: seq<Signed>, ghost base: nat, ghost caps: (nat, nat))
    requires w.Valid()
    modifies w
    ensures w.Later(old(w.s), old(w.log))
    ensures ok ==> Parse(supplyText).Some? && Committed(w.s, m, base, jobs) && |jobs| == 4
    ensures ok ==>
              var kind := if Parse(expiryText).Some? && Parse(expiryText).value > 0 then EXPIRING_TOKEN_DEPLOY
                          else STANDARD_TOKEN_DEPLOY;
              Kinds(jobs) == [kind, TOKEN_INDEX_ADD, TOKEN_TRANSFER, TRANSFER_OWNERSHIP]
    ensures ok ==> CapsHeard(w.heard, |old(w.heard)|, caps) && Priced(jobs, caps)
    ensures ok ==> Follows(jobs, Script(m, base, tokenIndex, mintee, Parse(supplyText).value, owner, deployGas, gas))
    ensures !ok ==> NoCommit(old(w.own), w.own)
    ensures w.quiet && CanSign(old(w.s), m) && Parse(supplyText).Some? ==> ok
  {
    hide Run, Init, Next, Building, Committed, InOrder, Follows, Uncommitted, NoCommit, Script, Free, Priced, CapsHeard;
    var t, gasSettings;
    ghost var start;
    t, gasSettings, start := StartJob(w, m);
    ok, jobs, base, caps := false, [], 0, (0, 0);
    if gasSettings.Some? {
      caps := gasSettings.value;
      var expiry := 0;
      if expiryText != "" {
        var tmp := Parse(expiryText);
        if tmp.Some? {
          expiry := tmp.value;
        }
      }
      var otxType := STANDARD_TOKEN_DEPLOY;
      if expiry > 0 {
        otxType := EXPIRING_TOKEN_DEPLOY;
      }
      ok, jobs, base := Sign(w, t, m, tokenIndex, mintee, supplyText, owner, otxType, deployGas, gas, gasSettings.value,
                             start);
    }
    if !ok {
      AbandonJob(w, t, start);
      return;
    }
    ok := CommitJob(w, t, m, jobs, base, start);
  }

  /** strconv.ParseInt with 64 bits. */
  function ParseInt64(s: string): Option<int> {
    match Parse(s)
    case None => None
    case Some(n) => if -0x8000_0000_0000_0000 <= n < 0x8000_0000_0000_0000 then Some(n) else None
  }

  /** The demurrage token: same shape; a rate or period that is no 64-bit number commits nothing. */
  method DemurrageWork(w: World, m: Address, tokenIndex: Address, mintee: Address, supplyText: string, owner: Address,
                       rateText: string, periodText: string, deployGas: nat, gas: nat)
    returns (ok: bool, jobs: seq<Signed>, ghost base: nat, ghost caps: (nat, nat))
    requires w.Valid()
    modifies w
    ensures w.Later(old(w.s), old(w.log))
    ensures ok ==> ParseInt64(rateText).Some? && ParseInt64(periodText).Some?
    ensures ok ==>
              Parse(supplyText).Some? && Committed(w.s, m, base, jobs) && |jobs| == 4
                && Kinds(jobs) == [DEMURRAGE_TOKEN_DEPLOY, TOKEN_INDEX_ADD, TOKEN_TRANSFER, TRANSFER_OWNERSHIP]
    ensures ok ==> CapsHeard(w.heard, |old(w.heard)|, caps) && Priced(jobs, caps)
    ensures ok ==> Follows(jobs, Script(m, base, tokenIndex, mintee, Parse(supplyText).value, owner, deployGas, gas))
    ensures !ok ==> NoCommit(old(w.own), w.own)
    ensures w.quiet && CanSign(old(w.s), m)
            && Parse(supplyText).Some? && ParseInt64(rateText).Some? && ParseInt64(periodText).Some? ==>
              ok
  {
    hide Run, Init, Next, Building, Committed, InOrder, Follows, Uncommitted, NoCommit, Script, Parse, Free, Priced,
      CapsHeard;
    var t, gasSettings;
    ghost var start;
    t, gasSettings, start := StartJob(w, m);
    ok, jobs, base, caps := false, [], 0, (0, 0);
    var demurrageRate := ParseInt64(rateText);
    var demurragePeriod := ParseInt64(periodText);
    if gasSettings.Some? && demurrageRate.Some? && demurragePeriod.Some? {
      caps := gasSettings.value;
      ok, jobs, base := Sign(w, t, m, tokenIndex, mintee, supplyText, owner, DEMURRAGE_TOKEN_DEPLOY, deployGas, gas,
                             gasSettings.value, start);
    }
    if !ok {
      AbandonJob(w, t, start);
      return;
    }
    ok := CommitJob(w, t, m, jobs, base, start);
  }

  /** A token transfer: one transaction. */
  method TransferWork(w: World, from: Address, recipient: Address, token: Address, amountText: string, gas: nat)
    returns (ok: bool, jobs: seq<Signed>, ghost base: nat, ghost caps: (nat, nat))
    requires w.Valid()
    modifies w
    ensures w.Later(old(w.s), old(w.log))
    ensures ok ==>
              Parse(amountText).Some? && Committed(w.s, from, base, jobs) && |jobs| == 1
                && Kinds(jobs) == [TOKEN_TRANSFER]
    ensures ok ==> CapsHeard(w.heard, |old(w.heard)|, caps) && Priced(jobs, caps)
    ensures ok ==>
              Follows(jobs, [Intent(from, base, Some(token), 0, Transfer(recipient, Parse(amountText).value), gas)])
    ensures !ok ==> NoCommit(old(w.own), w.own)
    ensures w.quiet && CanSign(old(w.s), from) && Parse(amountText).Some? ==> ok
  {
    hide Run, Init, Next, Building, Committed, InOrder, Follows, Uncommitted, NoCommit, Parse, Free, Priced, CapsHeard;
    var t, gasSettings;
    ghost var start;
    t, gasSettings, start := StartJob(w, from);
    ok, jobs, base, caps := false, [], 0, (0, 0);
    var amount := StringToBigInt(amountText, false);
    if gasSettings.Some? && amount.Some? {
      caps := gasSettings.value;
      ghost var script := (b: nat) => [Intent(from, b, Some(token), 0, Transfer(recipient, amount.value), gas)];
      var nonce;
      ok, nonce, jobs := SignFirst(w, t, from, TOKEN_TRANSFER, Some(token), Transfer(recipient, amount.value), gas,
                                   gasSettings.value, start, script);
      base := nonce;
    }
    if !ok {
      AbandonJob(w, t, start);
      return;
    }
    ok := CommitJob(w, t, from, jobs, base, start);
  }
}
