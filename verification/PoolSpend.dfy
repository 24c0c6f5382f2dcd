/** Swapping and depositing: reset the approval, approve five percent on top, let the pool pull the amount. */
module PoolSpend {
  import opened Types
  import opened Lifecycle
  import opened Theorems
  import opened World
  import opened Signing
  import opened Evm
  import opened Amounts

  /** What both jobs mean to sign; `spend` is the withdraw or deposit call. */
  function Script(from: Address, base: nat, token: Address, pool: Address, amount: int, spend: Types.Call,
                  gas: nat): seq<Intent> {
    [ Intent(from, base, Some(token), 0, Approve(pool, 0), gas),
      Intent(from, base + 1, Some(token), 0, Approve(pool, Bumped(amount)), gas),
      Intent(from, base + 2, Some(pool), 0, spend, gas) ]
  }

  /** What `others` may still take from the holder. */
  function Owed(k: Contract, holder: Address, others: seq<Address>): nat {
    if others == [] then 0 else
      var last := others[|others| - 1];
      Owed(k, holder, others[..|others| - 1]) + if Allowance(k, holder, last) > 0 then Allowance(k, holder, last) else 0
  }

  /** Everybody but the pool who may take anything from the holder is one of `others`. */
  ghost predicate Approved(k: Contract, holder: Address, pool: Address, others: seq<Address>) {
    && (forall i, j :: 0 <= i < j < |others| ==> others[i] != others[j]) && pool !in others
    && forall x :: Allowance(k, holder, x) > 0 ==> x == pool || x in others
  }

  /** A token, a pool, and enough of the token even if everybody else takes what the holder approved for him. */
  ghost predicate Funded(accounts: Accounts, from: Address, token: Address, pool: Address, amount: int,
                         others: seq<Address>) {
    && token in accounts && accounts[token].code.TokenCode? && pool in accounts && accounts[pool].code.SwapPoolCode?
    && pool != from && amount >= 0 && Approved(accounts[token], from, pool, others)
    && Balance(accounts[token], from) >= amount + Owed(accounts[token], from, others)
  }

  /** The allowance after k of the three, whatever it was before. */
  function AllowanceAfter(prior: int, amount: int, k: nat): int {
    if k == 0 then prior else if k == 1 then 0 else if k == 2 then Bumped(amount) else Bumped(amount) - amount
  }

  ghost predicate Phase(accounts: Accounts, from: Address, token: Address, pool: Address, amount: int,
                        others: seq<Address>, prior: int, k: nat) {
    && token in accounts && Allowance(accounts[token], from, pool) == AllowanceAfter(prior, amount, k)
    && if k < 3 then Funded(accounts, from, token, pool, amount, others) else amount >= 0
  }

  /** What a third party takes comes off what is owed to him. */
  lemma {:induction false} OwedFalls(k: Contract, k': Contract, holder: Address, x: Address, others: seq<Address>)
    requires forall i, j :: 0 <= i < j < |others| ==> others[i] != others[j]
    requires forall y :: y != x ==> Allowance(k', holder, y) == Allowance(k, holder, y)
    requires var taken := Allowance(k, holder, x) - Allowance(k', holder, x);
             taken >= 0 && (taken > 0 ==> Allowance(k', holder, x) >= 0)
    ensures Owed(k', holder, others) ==
              Owed(k, holder, others) - if x in others then Allowance(k, holder, x) - Allowance(k', holder, x) else 0
    decreases |others|
  {
    hide Allowance;
    if others != [] {
      OwedFalls(k, k', holder, x, others[..|others| - 1]);
      assert others == others[..|others| - 1] + [others[|others| - 1]];
    }
  }

  lemma {:induction false} OwedSame(k: Contract, k': Contract, holder: Address, others: seq<Address>)
    requires forall x :: x in others ==> Allowance(k', holder, x) == Allowance(k, holder, x)
    ensures Owed(k', holder, others) == Owed(k, holder, others)
    decreases |others|
  {
    hide Allowance;
    if others != [] {
      OwedSame(k, k', holder, others[..|others| - 1]);
    }
  }

  /** The holder's own approval of the pool leaves what the others may take. */
  lemma ApprovalKeepsOthers(k: Contract, holder: Address, pool: Address, amount: int, others: seq<Address>)
    requires k.code.TokenCode? && amount >= 0 && Approved(k, holder, pool, others)
    ensures Evm.Call(k, holder, Approve(pool, amount)).Some?
    ensures var k' := Evm.Call(k, holder, Approve(pool, amount)).value;
            && Approved(k', holder, pool, others) && Owed(k', holder, others) == Owed(k, holder, others)
            && Balance(k', holder) == Balance(k, holder) && Allowance(k', holder, pool) == amount && k'.code == k.code
  {
    var k' := Evm.Call(k, holder, Approve(pool, amount)).value;
    forall x | x != pool ensures Allowance(k', holder, x) == Allowance(k, holder, x) {
    }
    OwedSame(k, k', holder, others);
    hide Allowance;
  }

  lemma ScriptStep(accounts: Accounts, from: Address, base: nat, token: Address, pool: Address, amount: int,
                   spend: Types.Call, gas: nat, others: seq<Address>, prior: int, k: nat)
    requires k < 3 && Pulled(spend) == Some((token, amount))
    requires Phase(accounts, from, token, pool, amount, others, prior, k)
    ensures var i := Script(from, base, token, pool, amount, spend, gas)[k];
            Exec(accounts, i).Some? && Phase(After(accounts, i), from, token, pool, amount, others, prior, k + 1)
  {
    HeadroomIff(amount);
    if k < 2 {
      ApprovalKeepsOthers(accounts[token], from, pool, if k == 0 then 0 else Bumped(amount), others);
    }
    hide Approved, Owed;
  }

  /** Nobody else disturbs it, not even those whom the holder has approved. */
  lemma StrangerStep(accounts: Accounts, from: Address, token: Address, pool: Address, amount: int,
                     others: seq<Address>, prior: int, k: nat, i: Intent)
    requires Phase(accounts, from, token, pool, amount, others, prior, k) && i.sender != from && i.sender != pool
    ensures Phase(After(accounts, i), from, token, pool, amount, others, prior, k)
  {
    StrangersCannotSpend(accounts, i, token, from, pool);
    CodeStays(accounts, i, token);
    if k < 3 {
      CodeStays(accounts, i, pool);
      forall x ensures KeepsFunds(accounts[token], After(accounts, i)[token], i.sender, from, x) {
        StrangersCannotSpend(accounts, i, token, from, x);
      }
      OthersTake(accounts[token], After(accounts, i)[token], from, pool, i.sender, others);
    }
    hide After, Balance, Allowance, Approved, Owed;
  }

  lemma OthersTake(k: Contract, k': Contract, holder: Address, pool: Address, x: Address, others: seq<Address>)
    requires Approved(k, holder, pool, others) && x != pool && forall y :: KeepsFunds(k, k', x, holder, y)
    ensures Approved(k', holder, pool, others)
    ensures Balance(k', holder) - Owed(k', holder, others) >= Balance(k, holder) - Owed(k, holder, others)
  {
    hide Balance, Allowance, Owed;
    assert KeepsFunds(k, k', x, holder, x);
    forall y | y != x ensures Allowance(k', holder, y) == Allowance(k, holder, y) {
      assert KeepsFunds(k, k', x, holder, y);
    }
    OwedFalls(k, k', holder, x, others);
  }

  lemma CodeStays(accounts: Accounts, i: Intent, at: Address)
    requires at in accounts
    ensures at in After(accounts, i) && After(accounts, i)[at].code == accounts[at].code
  {
  }

  /** In nonce order, whatever was mined in between, each of the three succeeds: the allowance is reset, then covers
      the amount, and what is left of it after the pool's pull is the five percent.  The pool, a contract, signs
      nothing; everybody else may, and those approved by the holder may take all that he approved. */
  lemma {:induction false} AllowanceFollowsTheScript(accounts: Accounts, txs: seq<Intent>, from: Address, base: nat,
                                                     token: Address, pool: Address, amount: int, spend: Types.Call,
                                                     gas: nat, others: seq<Address>)
    requires Funded(accounts, from, token, pool, amount, others) && Pulled(spend) == Some((token, amount))
    requires BySender(txs, from) <= Script(from, base, token, pool, amount, spend, gas) && BySender(txs, pool) == []
    ensures NoneReverts(accounts, txs, from)
    ensures var end, k := ExecAll(accounts, txs), |BySender(txs, from)|;
            && Phase(end, from, token, pool, amount, others, Allowance(accounts[token], from, pool), k)
            && (k == 1 ==> Allowance(end[token], from, pool) == 0)
            && (k == 2 ==> Allowance(end[token], from, pool) == Bumped(amount) >= amount)
            && (k == 3 ==> Allowance(end[token], from, pool) == Bumped(amount) - amount >= 0)
    decreases |txs|
  {
    HeadroomIff(amount);
    if txs != [] {
      hide Script, Allowance, Funded, Bumped;
      var before, last := txs[..|txs| - 1], txs[|txs| - 1];
      var script, k, prior := Script(from, base, token, pool, amount, spend, gas), |BySender(before, from)|,
        Allowance(accounts[token], from, pool);
      assert BySender(before, from) <= BySender(txs, from);
      assert BySender(before, from) <= script;
      assert |script| == 3 by { ThreeSteps(from, base, token, pool, amount, spend, gas); }
      AllowanceFollowsTheScript(accounts, before, from, base, token, pool, amount, spend, gas, others);
      if last.sender == from {
        assert BySender(txs, from)[k] == last == script[k];
        ScriptStep(ExecAll(accounts, before), from, base, token, pool, amount, spend, gas, others, prior, k);
      } else {
        assert last.sender != pool;
        StrangerStep(ExecAll(accounts, before), from, token, pool, amount, others, prior, k, last);
      }
      hide After;
    }
  }

  /** Less than that is not enough: an approved third party can take its share before the pool does, and the
      spend reverts. */
  lemma UncoveredCanRevert(accounts: Accounts, from: Address, base: nat, token: Address, pool: Address, amount: int,
                           spend: Types.Call, gas: nat, x: Address, n: nat)
    requires token in accounts && accounts[token].code.TokenCode? && pool in accounts
    requires accounts[pool].code.SwapPoolCode? && Pulled(spend) == Some((token, amount)) && x != from
    requires 0 <= Allowance(accounts[token], from, x) <= Balance(accounts[token], from)
    requires Balance(accounts[token], from) < amount + Allowance(accounts[token], from, x)
    ensures var take := TransferFrom(from, x, Allowance(accounts[token], from, x));
            var after := After(accounts, Intent(x, n, Some(token), 0, take, gas));
            Exec(after, Script(from, base, token, pool, amount, spend, gas)[2]).None?
  {
  }

  lemma SpendItems(from: Address, token: Address, pool: Address, amount: int, spend: Types.Call, gas: nat)
    ensures forall b: nat ::
              var script := Script(from, b, token, pool, amount, spend, gas);
              && |script| == 3 && script[0] == Intent(from, b, Some(token), 0, Approve(pool, 0), gas)
              && script[1] == Intent(from, b + 1, Some(token), 0, Approve(pool, Bumped(amount)), gas)
              && script[2] == Intent(from, b + 2, Some(pool), 0, spend, gas)
  {
  }

  lemma ThreeSteps(from: Address, base: nat, token: Address, pool: Address, amount: int, spend: Types.Call, gas: nat)
    ensures |Script(from, base, token, pool, amount, spend, gas)| == 3
  {
  }

  /** From the commit of the job to the chain: none of the three reverts, and the allowance ends at the five percent. */
  lemma CommittedSpendCompletes(s: State, t: State, accounts: Accounts, txs: seq<Intent>, from: Address, base: nat,
                                jobs: seq<Signed>, token: Address, pool: Address, amount: int, spend: Types.Call,
                                gas: nat, others: seq<Address>)
    requires Reachable(s) && Leads(s, t) && Committed(s, from, base, jobs)
    requires |jobs| == 3 && Follows(jobs, Script(from, base, token, pool, amount, spend, gas))
             && Pulled(spend) == Some((token, amount))
    requires base + 3 <= |MinedBy(t.mined, from)| && BySender(txs, from) == Executed(t.mined, from, base, 3)
    requires Funded(accounts, from, token, pool, amount, others) && BySender(txs, pool) == []
    ensures NoneReverts(accounts, txs, from) && token in ExecAll(accounts, txs)
    ensures Allowance(ExecAll(accounts, txs)[token], from, pool) == Bumped(amount) - amount >= 0
  {
    hide Reachable, Leads, Committed, Follows, Script, Funded, NoneReverts, ExecAll, BySender, Allowance, Bumped;
    ThreeSteps(from, base, token, pool, amount, spend, gas);
    JobExecutesItsScript(s, t, from, base, jobs, Script(from, base, token, pool, amount, spend, gas));
    AllowanceFollowsTheScript(accounts, txs, from, base, token, pool, amount, spend, gas, others);
  }

  /** The transactions both jobs share; the amount is read again for the spend. */
  method Sign(w: World, t: nat, from: Address, token: Address, pool: Address, amountText: string, kind: OtxType,
              spend: int -> Types.Call, gas: nat, caps: (nat, nat), ghost start: Start)
    returns (ok: bool, jobs: seq<Signed>, ghost base: nat)
    requires w.Valid() && Uncommitted(w, start) && Building(w.s, t, from, 0, [], Idle)
    modifies w`s, w`log, w`own
    ensures w.Valid() && Uncommitted(w, start) && t in w.s.live
    ensures ok ==>
              Parse(amountText).Some? && Building(w.s, t, from, base, jobs, Idle) && |jobs| == 3 && Priced(jobs, caps)
                && Kinds(jobs) == [TOKEN_APPROVE, TOKEN_APPROVE, kind]
    ensures ok ==> var amount := Parse(amountText).value;
            Follows(jobs, Script(from, base, token, pool, amount, spend(amount), gas))
    ensures w.quiet && Free(old(w.s), t, from) && Parse(amountText).Some? ==> ok
  {
    hide Run, Init, Next, Building, Committed, InOrder, Follows, Uncommitted, NoCommit, Free, Priced, Script, Parse;
    ghost var amount0 := match Parse(amountText) case Some(n) => n case None => 0;
    ghost var script := (b: nat) => Script(from, b, token, pool, amount0, spend(amount0), gas);
    BuildingIsOpen(w.s, t, from, 0, [], Idle);
    SpendItems(from, token, pool, amount0, spend(amount0), gas);
    base := 0;
    var nonce;
    ok, nonce, jobs := SignFirst(w, t, from, TOKEN_APPROVE, Some(token), Approve(pool, 0), gas, caps, start, script);
    if !ok {
      return;
    }
    base := nonce;
    var bumped := StringToBigInt(amountText, true);
    if bumped.None? {
      ok := false;
      return;
    }
    ok, nonce, jobs := SignNext(w, t, from, base, jobs, TOKEN_APPROVE, Some(token), Approve(pool, bumped.value), gas,
                                caps, start, script(base));
    if !ok {
      return;
    }
    var amount := StringToBigInt(amountText, false);
    if amount.None? {
      ok := false;
      return;
    }
    ok, nonce, jobs := SignNext(w, t, from, base, jobs, kind, Some(pool), spend(amount.value), gas, caps, start,
                                script(base));
  }

  /** Either all three are committed or nothing is; an amount that is no number commits nothing. */
  method Work(w: World, from: Address, token: Address, pool: Address, amountText: string, kind: OtxType,
              spend: int -> Types.Call, gas: nat)
    returns (ok: bool, jobs: seq<Signed>, ghost base: nat, ghost caps: (nat, nat))
    requires w.Valid()
    modifies w
    ensures w.Later(old(w.s), old(w.log))
    ensures ok ==>
              Parse(amountText).Some? && Committed(w.s, from, base, jobs) && |jobs| == 3
                && Kinds(jobs) == [TOKEN_APPROVE, TOKEN_APPROVE, kind]
    ensures ok ==> CapsHeard(w.heard, |old(w.heard)|, caps) && Priced(jobs, caps)
    ensures ok ==> var amount := Parse(amountText).value;
            Follows(jobs, Script(from, base, token, pool, amount, spend(amount), gas))
    ensures !ok ==> NoCommit(old(w.own), w.own)
    ensures w.quiet && CanSign(old(w.s), from) && Parse(amountText).Some? ==> ok
  {
    hide Run, Init, Next, Building, Committed, InOrder, Follows, Uncommitted, NoCommit, Script, Parse, Free, Priced;
    var t, gasSettings;
    ghost var start;
    t, gasSettings, start := StartJob(w, from);
    ok, jobs, base, caps := false, [], 0, (0, 0);
    if gasSettings.Some? {
      caps := gasSettings.value;
      ok, jobs, base := Sign(w, t, from, token, pool, amountText, kind, spend, gas, gasSettings.value, start);
    }
    if !ok {
      AbandonJob(w, t, start);
      return;
    }
    ok := CommitJob(w, t, from, jobs, base, start);
  }

  /** Swap: the pool takes `token` from the sender and pays out in `outToken`. */
  method SwapWork(w: World, from: Address, token: Address, outToken: Address, pool: Address, amountText: string,
                  gas: nat)
    returns (ok: bool, jobs: seq<Signed>, ghost base: nat, ghost caps: (nat, nat))
    requires w.Valid()
    modifies w
    ensures w.Later(old(w.s), old(w.log))
    ensures ok ==>
              Parse(amountText).Some? && Committed(w.s, from, base, jobs) && |jobs| == 3
                && Kinds(jobs) == [TOKEN_APPROVE, TOKEN_APPROVE, POOL_SWAP]
    ensures ok ==> CapsHeard(w.heard, |old(w.heard)|, caps) && Priced(jobs, caps)
    ensures ok ==> var amount := Parse(amountText).value;
                   && Follows(jobs, Script(from, base, token, pool, amount, Withdraw(outToken, token, amount), gas))
                   && Pulled(Withdraw(outToken, token, amount)) == Some((token, amount))
    ensures !ok ==> NoCommit(old(w.own), w.own)
    ensures w.quiet && CanSign(old(w.s), from) && Parse(amountText).Some? ==> ok
  {
    ok, jobs, base, caps := Work(w, from, token, pool, amountText, POOL_SWAP,
                           amount => Withdraw(outToken, token, amount), gas);
  }

  /** Deposit: the pool takes `token` from the sender. */
  method DepositWork(w: World, from: Address, token: Address, pool: Address, amountText: string, gas: nat)
    returns (ok: bool, jobs: seq<Signed>, ghost base: nat, ghost caps: (nat, nat))
    requires w.Valid()
    modifies w
    ensures w.Later(old(w.s), old(w.log))
    ensures ok ==>
              Parse(amountText).Some? && Committed(w.s, from, base, jobs) && |jobs| == 3
                && Kinds(jobs) == [TOKEN_APPROVE, TOKEN_APPROVE, POOL_DEPOSIT]
    ensures ok ==> CapsHeard(w.heard, |old(w.heard)|, caps) && Priced(jobs, caps)
    ensures ok ==> var amount := Parse(amountText).value;
                   && Follows(jobs, Script(from, base, token, pool, amount, Deposit(token, amount), gas))
                   && Pulled(Deposit(token, amount)) == Some((token, amount))
    ensures !ok ==> NoCommit(old(w.own), w.own)
    ensures w.quiet && CanSign(old(w.s), from) && Parse(amountText).Some? ==> ok
  {
    ok, jobs, base, caps := Work(w, from, token, pool, amountText, POOL_DEPOSIT, amount => Deposit(token, amount), gas);
  }
}
