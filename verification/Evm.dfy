/** The contracts the jobs talk to: owner-guarded, deployed at the address of their creator and nonce. */
module Evm {
  import opened Types

  datatype Contract = Contract(code: Code, owner: Address, entries: set<Address>, quoter: Option<Address>,
                               supply: int, balances: map<Address, int>, allowances: map<(Address, Address), int>)

  type Accounts = map<Address, Contract>

  function Deployed(code: Code, owner: Address): Contract {
    Contract(code, owner, {}, None, 0, map[], map[])
  }

  function Balance(k: Contract, a: Address): int {
    if a in k.balances then k.balances[a] else 0
  }

  function Credit(k: Contract, a: Address, amount: int): Contract {
    k.(balances := k.balances[a := Balance(k, a) + amount])
  }

  function Debit(k: Contract, a: Address, amount: int): Contract {
    k.(balances := k.balances[a := Balance(k, a) - amount])
  }

  function Allowance(k: Contract, holder: Address, spender: Address): int {
    if (holder, spender) in k.allowances then k.allowances[(holder, spender)] else 0
  }

  /** The contract after a call it accepts, or None when it reverts. */
  function Call(k: Contract, sender: Address, call: Types.Call): Option<Contract> {
    match call
    case Add(entry) =>
      if k.code.TokenIndexCode? && sender == k.owner then Some(k.(entries := k.entries + {entry})) else None
    case SetQuoter(quoter) =>
      if k.code.SwapPoolCode? && sender == k.owner then Some(k.(quoter := Some(quoter))) else None
    case TransferOwnership(newOwner) =>
      if sender == k.owner then Some(k.(owner := newOwner)) else None
    case MintTo(mintee, amount) =>
      if k.code.TokenCode? && sender == k.owner && amount >= 0
      then Some(Credit(k, mintee, amount).(supply := k.supply + amount)) else None
    case Transfer(recipient, amount) =>
      if k.code.TokenCode? && 0 <= amount <= Balance(k, sender)
        then Some(Credit(Debit(k, sender, amount), recipient, amount)) else None
    case Approve(spender, amount) =>
      if k.code.TokenCode? && amount >= 0 then Some(k.(allowances := k.allowances[(sender, spender) := amount]))
        else None
    case TransferFrom(holder, recipient, amount) => Spend(k, holder, sender, recipient, amount)
    case _ => None
  }

  /** transferFrom(holder, recipient, amount), called by `spender`: it comes off what the holder approved for him. */
  function Spend(k: Contract, holder: Address, spender: Address, recipient: Address, amount: int): Option<Contract> {
    if k.code.TokenCode? && 0 <= amount <= Allowance(k, holder, spender) && amount <= Balance(k, holder)
    then
      var left := Allowance(k, holder, spender) - amount;
      Some(Credit(Debit(k, holder, amount), recipient, amount).(allowances := k.allowances[(holder, spender) := left]))
    else None
  }

  /** What the pool pulls in: the token and the amount it takes from the sender. */
  function Pulled(call: Types.Call): Option<(Address, int)> {
    match call
    case Withdraw(_, inToken, amount) => Some((inToken, amount))
    case Deposit(token, amount) => Some((token, amount))
    case _ => None
  }

  /** One mined transaction; None when it reverts.  An address is created once.  A call to an address without code
      succeeds and does nothing. What a pool pays out is not modelled. */
  function Exec(accounts: Accounts, i: Intent): Option<Accounts> {
    match i.to
    case None =>
      if !i.call.Publish? then Some(accounts)
      else if Created(i.sender, i.nonce) in accounts then None
      else Some(accounts[Created(i.sender, i.nonce) := Deployed(i.call.code, i.sender)])
    case Some(to) =>
      if to !in accounts then Some(accounts)
      else if accounts[to].code.SwapPoolCode? && Pulled(i.call).Some? then
        var (token, amount) := Pulled(i.call).value;
        if token !in accounts then None
        else match Spend(accounts[token], i.sender, to, to, amount)
             case None => None
             case Some(k) => Some(accounts[token := k])
      else match Call(accounts[to], i.sender, i.call)
           case None => None
           case Some(k) => Some(accounts[to := k])
  }

  /** A reverted transaction uses up its nonce and changes nothing. */
  function After(accounts: Accounts, i: Intent): Accounts {
    match Exec(accounts, i)
    case None => accounts
    case Some(next) => next
  }

  /** The accounts after a block range's transactions, in chain order. */
  function ExecAll(accounts: Accounts, txs: seq<Intent>): Accounts {
    if txs == [] then accounts else After(ExecAll(accounts, txs[..|txs| - 1]), txs[|txs| - 1])
  }

  /** The transactions of one sender among them: chain order is nonce order. */
  function BySender(txs: seq<Intent>, a: Address): seq<Intent> {
    if txs == [] then [] else
      BySender(txs[..|txs| - 1], a) + if txs[|txs| - 1].sender == a then [txs[|txs| - 1]] else []
  }

  /** No transaction of `a` in the range reverts. */
  predicate NoneReverts(accounts: Accounts, txs: seq<Intent>, a: Address) {
    txs == [] ||
    (var before := ExecAll(accounts, txs[..|txs| - 1]);
     NoneReverts(accounts, txs[..|txs| - 1], a) && (txs[|txs| - 1].sender == a ==> Exec(before, txs[|txs| - 1]).Some?))
  }

  /** Whoever does not own a contract cannot change its owner, entries, quoter or supply, nor put another in its
      place. */
  lemma StrangersChangeNothing(accounts: Accounts, i: Intent, at: Address)
    requires at in accounts && i.sender != accounts[at].owner
    ensures at in After(accounts, i)
    ensures var k, k' := accounts[at], After(accounts, i)[at];
            k'.owner == k.owner && k'.code == k.code && k'.entries == k.entries && k'.quoter == k.quoter
              && k'.supply == k.supply
  {
  }

  /** Only its creator can put a contract at an address. */
  lemma StrangersCannotDeploy(accounts: Accounts, i: Intent, at: Address)
    requires at !in accounts && (at.Created? ==> at.creator != i.sender)
    ensures at !in After(accounts, i)
  {
  }

  /** Between `k` and `k'` the holder has lost at most what `sender` took from his own approval. */
  predicate KeepsFunds(k: Contract, k': Contract, sender: Address, holder: Address, spender: Address) {
    var taken := Allowance(k, holder, sender) - Allowance(k', holder, sender);
    && taken >= 0 && (taken > 0 ==> Allowance(k', holder, sender) >= 0)
    && Balance(k', holder) >= Balance(k, holder) - taken
    && (spender != sender ==> Allowance(k', holder, spender) == Allowance(k, holder, spender))
  }

  lemma SpendKeepsFunds(k: Contract, from: Address, sender: Address, recipient: Address, amount: int, holder: Address,
                        spender: Address)
    requires Spend(k, from, sender, recipient, amount).Some?
    ensures KeepsFunds(k, Spend(k, from, sender, recipient, amount).value, sender, holder, spender)
  {
  }

  lemma CallKeepsFunds(k: Contract, sender: Address, call: Types.Call, holder: Address, spender: Address)
    requires sender != holder && Call(k, sender, call).Some?
    ensures KeepsFunds(k, Call(k, sender, call).value, sender, holder, spender)
  {
    if call.TransferFrom? {
      SpendKeepsFunds(k, call.holder, sender, call.recipient, call.amount, holder, spender);
    }
  }

  /** The pool spends what its caller approved for it, and nothing of anybody else's. */
  lemma PoolPullKeepsFunds(k: Contract, sender: Address, pool: Address, amount: int, holder: Address, spender: Address)
    requires sender != holder && Spend(k, sender, pool, pool, amount).Some?
    ensures KeepsFunds(k, Spend(k, sender, pool, pool, amount).value, sender, holder, spender)
  {
  }

  /** Nobody spends what was not approved for him: whatever another sender takes from a holder comes off that sender's
      own allowance, and the allowances of others stay.  Without one he takes nothing. */
  lemma StrangersCannotSpend(accounts: Accounts, i: Intent, token: Address, holder: Address, spender: Address)
    requires token in accounts && i.sender != holder
    ensures token in After(accounts, i)
    ensures KeepsFunds(accounts[token], After(accounts, i)[token], i.sender, holder, spender)
    ensures Allowance(accounts[token], holder, i.sender) <= 0 ==>
              Balance(After(accounts, i)[token], holder) >= Balance(accounts[token], holder)
  {
    if i.to.Some? && i.to.value in accounts {
      var to := i.to.value;
      if Call(accounts[to], i.sender, i.call).Some? {
        CallKeepsFunds(accounts[to], i.sender, i.call, holder, spender);
      }
      if Pulled(i.call).Some? {
        var (pulled, amount) := Pulled(i.call).value;
        if pulled in accounts && Spend(accounts[pulled], i.sender, to, to, amount).Some? {
          PoolPullKeepsFunds(accounts[pulled], i.sender, to, amount, holder, spender);
        }
      }
    }
    hide Call, Spend, Balance, Allowance, Pulled;
  }

  /** An approved sender does take it: the holder's balance can fall without a transaction of his own. */
  lemma ApprovedCanTake(accounts: Accounts, i: Intent, token: Address, holder: Address, amount: nat)
    requires token in accounts && accounts[token].code.TokenCode? && i.to == Some(token) && i.sender != holder
    requires i.call == TransferFrom(holder, i.sender, amount)
    ensures var k, k' := accounts[token], After(accounts, i)[token];
            Balance(k', holder) ==
              Balance(k, holder) - if amount <= Allowance(k, holder, i.sender) && amount <= Balance(k, holder)
                then amount else 0
  {
  }
}
