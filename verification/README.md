# eth-custodial: the transaction lifecycle, modelled and proved

This project models how eth-custodial signs, stores, sends, unlocks and settles Ethereum transactions, and proves
what the service relies on: that an intent is executed at most once, that nonces have no gaps, that SUCCESS and
REVERTED never lie, and that the unlocker brings accounts back to the truth and drains them.

## How it is built

**One interleaved machine.** `Lifecycle.dfy` is the shared state (the tables, every open database transaction with
its row lock, the dispatch job queue, what the node was sent, the chain) and its steps. A step is what one process does
between two points where others can get in. Begin, acquire a nonce, insert an otx, insert a dispatch row, enqueue,
commit and roll back are separate steps of any number of open transactions; a send and the write that follows it are
separate steps; a block may mine anything that was ever sent, whatever the reply was. Reads may be stale: a write may
act on any row version that was ever committed. A process that dies simply takes no more steps, so a crash needs no
step of its own. `Invariant.dfy`, `Preservation.dfy` and `Growth.dfy` prove the invariant and what no step takes back;
`Theorems.dfy` draws the guarantees for every reachable state and run.

**The processes are methods on a `World`.** `World.dfy` is the shared state as one process sees it. Each of its methods
lets every other process take any number of steps first, then reads or takes one step. A write demands that the value
the code computed (a status, a hash, a re-signed transaction) is the one the step writes, so a worker that verifies
computes the right value in every interleaving. The ghost field `log` holds the steps of everyone and ties the state to
the machine (`Valid`), so all guarantees hold at every point of every worker; `own` holds the steps of this process, and
the ghost field `heard` holds every reply this process got, in order. The workers' contracts say which replies they
heard, and exactly which steps each reply leads to; what a worker owes when nothing failed is stated for every run in
which all its calls were answered (`AllAnswered`), whatever other processes did meanwhile. In a `quiet` world, which may begin in any reachable state, nobody else acts while the process runs, the database does not
fail and the node answers faithfully (with any reply at all to a transaction that can still be mined); there the
contracts give the resulting state.

| file | part of the system |
|---|---|
| `Types.dfy`, `Lifecycle.dfy`, `Invariant.dfy`, `Preservation.dfy`, `Growth.dfy`, `Theorems.dfy`, `Terminal.dfy` | the machine, its invariant and its guarantees |
| `Fees.dfy` | the 115% re-sign rule and the 120% rule of the gas oracle |
| `RpcErrors.dfy` | error phrases, the DispatchError wrapper, the classifiers |
| `Queries.dfy`, `Stability.dfy`, `World.dfy` | the SELECTs, what survives interference, the shared world |
| `Signing.dfy`, `Amounts.dfy`, `PoolDeploy.dfy`, `TokenDeploy.dfy`, `PoolSpend.dfy` | the signing jobs |
| `Evm.dfy` | the contracts the jobs talk to |
| `Dispatch.dfy`, `HealthCheck.dfy`, `Events.dfy` | dispatch worker, health check, event subscriber |
| `Recovery.dfy`, `Unlocker.dfy`, `Healing.dfy`, `Draining.dfy`, `Starvation.dfy` | periodic unlocker, convergence, liveness, and whom it never gets to |
| `Cli.dfy` | the command-line unlocker |
| `Runs.dfy`, `Orphans.dfy`, `Deliveries.dfy` | concrete runs from a fresh service, for the states that need a witness |
| `Pagination.dfy` | the otx listing of the API |

## Assumptions

Keys sign only through this service and public keys are unique in keystore; transaction hashes are injective; there are
no chain reorganisations; receipts, block contents and tracker events are true; all signed transactions are of the
dynamic-fee type, as the signing calls make them; nobody calls `SetAccountNonce`, which would break the nonce
invariant. Contracts are guarded by their owner and created once, at the address of section 7 of the Ethereum Yellow Paper.

## Where the code is not what one might think

- `SUCCESS` is not absorbing: `UpdateDispatchTxStatus` is unconditional, so a slow write can replace it. A concrete run
  loses it (`Terminal.SuccessIsLost`), and it stays exactly when no dispatch, in-network or re-sign write hits its otx
  (`Terminal.SuccessStaysIff`). What holds is that no terminal status is ever wrong.
- `EXTERNAL_DISPATCH` is allowed by the table and treated as terminal by the queries, but nothing ever writes it
  (`Terminal.ExternalNeverEntered`).
- The Go constant `UNKNOWN_RPC_ERROR` holds `UNKNOWN_ERROR`, which the status table does not allow. The dispatch worker
  starts from it, and a write of it would fail; the switch always replaces it first (`Dispatch.Work`, `Theorems.StatusesAreAllowed`).
- `IN_NETWORK` does not mean that the node took the transaction (`Dispatch.InNetworkIff`, `Dispatch.RejectionsPass`).
- The periodic unlocker logs "stopping sequence" on no gas and goes on (`Unlocker.FundsDoNotHalt`); it ends a pass early
  exactly at the first otx that is refused in words it does not know, or refused for its price and then again when
  re-signed (`Unlocker.PassStopsIff`). The command-line tool really stops, exactly where the nodes miss funds (`Cli.StopsByWords`).
- Below a transaction that reverted, an orphan stays one: only a SUCCESS anchors (`Healing.OrphanBelowReverted`).
- The orphan scan does not always cover six blocks: for an anchor in block 5 or less it covers only that block
  (`Recovery.WindowMissesIff`).
- The 115% rule can put the tip above the fee cap, in one of its four branch combinations (`Fees.TipWithinCapIff`,
  `Fees.TipCanExceedCap`). The 120% rule keeps a fresh transaction out of it on the first re-sign only: gas prices 100,
  101, 102 with tips 100, 50, 50 lead to a fee cap of 122 under a tip of 132 (`Fees.FreshCanBreakLater`). A chain of
  re-signs is safe exactly when none takes that combination (`Fees.ChainWithinCapIff`). The margin of the first re-sign
  is not an invariant even where both caps are bumped, because of rounding (`Fees.RoundingCostsMargin`); with 660 wei
  to spare it is one for every branch but that one (`Fees.RoomKeptIff`).
- Orphaned nonces come about: send, re-sign, rewrite the row, and the first version is mined. From a fresh service
  there can be any number of them below a success, which is what convergence starts from (`Orphans.OrphansAreReached`).
- The command-line tool dereferences a receipt that may be missing when a nonce is used up by another version of the
  transaction; the model calls that outcome `Crashed`. It crashes exactly when the hash it holds is not mined
  (`Cli.ProcessOtx`). The input: it fetches the re-signed row, then the first version is mined (`Orphans.FetchedTooSoon`),
  and its turn comes (`Orphans.ToolCrashes`).
- The stuck-otx query takes the hundred oldest, so an account gets a pass exactly when fewer than a hundred stuck otxs
  are older than its oldest (`Starvation.ServedIff`). A hundred that no pass can heal keep younger accounts out for good
  (`Starvation.Starves`), and a fresh service can get there (`Starvation.StarvationIsReached`).
- Its branch for `otx.Nonce < networkNonce` is never reached (`Cli.ProcessAccount`).
- The cursor of an empty page is 0, and following it starts over (`Pagination.EmptyPageRestarts`).

## Model

| member | source | states |
|---|---|---|
| Invariant.InitInv | migrations/001_init_custodial.sql:53-66 | a fresh deployment, every key at nonce 0, satisfies the lifecycle invariant |
| Preservation.NextKeeps | queries.sql:62-169 | every step of every process keeps the invariant: gap-free nonces, locks, outbox, versions, chain, truthful statuses |
| Preservation.CommitKeeps | internal/worker/pool_deploy.go:564-690 | a commit of k otxs with their dispatch rows and jobs keeps it, beside any number of other open transactions |
| Preservation.MineKeeps | internal/worker/unlocker.go:335-343 | whatever sent transaction is mined next, at any moment, keeps it |
| Preservation.RewriteRowKeeps | internal/worker/unlocker.go:345-363 | rewriting a row after a re-sign or a recovery keeps it, also when the row version held is stale |
| Growth.RunKeeps | queries.sql:62-169 | over every run the invariant holds, and nonces, ids, versions, sent transactions, chain and left PENDING states are never taken back |
| Theorems.EveryExecutionHasOneOtx | internal/worker/unlocker.go:313-333 | a transaction mined for a service key is a version of exactly one committed otx, the one signed with its nonce, with that otx's intent |
| Theorems.OtxExecutesAtMostOnce | internal/worker/unlocker.go:313-333 | of all versions ever signed for one otx at most one is mined, at the otx's own account and nonce |
| Theorems.OnlyCommittedIsSent | internal/worker/dispatch.go:34-56 | nothing is sent before the otx it belongs to has committed |
| Theorems.AbandonedNeverSent | internal/worker/pool_deploy.go:36-40 | a rolled-back otx never comes into being, and its transaction is sent only if a committed job signed the same intent again |
| Theorems.TerminalStatusIsTruth | internal/worker/unlocker.go:147-177 | each otx has one status; SUCCESS (REVERTED) means that the one transaction mined at its signer and nonce has receipt status 1 (0), whoever wrote it and however stale the row |
| Theorems.TerminalStatusesAgree | queries.sql:163-169 | no later terminal status contradicts an earlier one |
| Theorems.SuccessCanBeOverwrittenAndHealed | queries.sql:163-169 | SUCCESS can be overwritten by a slow dispatch write, and a receipt check of the stored hash restores it |
| Terminal.SuccessIsLost | internal/worker/dispatch.go:34-118 | from a fresh deployment, one payment signed, committed, sent, mined and settled: SUCCESS is stored, then the dispatch job's own late write replaces it |
| Terminal.SuccessStaysIff | queries.sql:163-169 | in every reachable state a step leaves SUCCESS on an otx exactly unless it is an enabled dispatch, in-network or re-sign write on that otx |
| Terminal.ExternalNeverEntered | migrations/002_dispatch.sql:4-18 | no otx is ever EXTERNAL_DISPATCH, which the status table allows |
| Theorems.StatusesAreAllowed | migrations/002_dispatch.sql:4-18 | every status in the table is in the closed set, and the worker's initial value is not |
| Theorems.NoncesAreGapFree | queries.sql:62-73 | the committed nonces of a key are exactly 0 to next_nonce - 1, each once, and id order is nonce order within an account |
| Theorems.JobNoncesAreConsecutive | internal/worker/pool_deploy.go:57-108 | a job's k nonces are consecutive while others race for the key; no other row is in their range; each row commits with one PENDING status and one job |
| Theorems.Outbox | internal/worker/dispatch.go:70-117 | every otx has one dispatch row and one job with a version of its transaction; while PENDING, the job has neither written nor completed nor been cancelled |
| Theorems.OutboxIsStable | internal/worker/dispatch.go:70-117 | the job keeps its raw transaction for good, and PENDING is never entered again |
| Theorems.HashIdentifiesOneOtx | internal/sub/handler.go:29-57 | a stored hash, present or past, belongs to one otx, so the event lookup is single-valued |
| Fees.RaiseIsStrictIff | internal/worker/unlocker.go:285-295 | a re-sign raises a cap strictly exactly when the oracle is above it or it is at least 7 wei |
| Fees.VersionsStrictlyIncrease | internal/worker/unlocker.go:285-323 | along any chain of re-signs from at least 7 wei all versions differ, both caps grow strictly, and the intent stays |
| Fees.BumpsReachAnyTarget | internal/worker/unlocker.go:288-295 | 7k re-signs on the 115% branch, among any others, multiply a cap by 2^k: any target is reached |
| Fees.TipWithinCapIff | internal/worker/unlocker.go:285-295 | the EIP-1559 rule tip <= fee cap is kept by one re-sign except in one exact branch combination, and always when 115 tip <= 100 cap |
| Fees.TipCanExceedCap | internal/worker/unlocker.go:285-295 | a concrete re-sign that breaks it |
| Fees.ChainWithinCapIff | internal/worker/unlocker.go:285-323 | along any chain of re-signs all versions keep the rule exactly when no re-sign takes that combination |
| Fees.RoundingCostsMargin | internal/worker/unlocker.go:288-295 | a concrete pair of bumps, 23/20 to 26/23, that loses the margin 115 tip <= 100 cap to rounding |
| Fees.RoomKeptIff | internal/worker/unlocker.go:285-295 | with 660 wei to spare the margin rules the failing combination out, and a re-sign keeps it exactly unless it takes a fee cap from the oracle too close to the bumped tip |
| Fees.RoomyChainsAreSafe | internal/worker/unlocker.go:285-323 | so any chain that starts roomy and never takes such a fee cap keeps the rule in every version |
| Fees.FreshTransactionsAreSafe | internal/gas/rpc.go:86-92 | the 120% rule keeps the first re-sign of a fresh transaction out of that combination from a gas price of 20 wei and at least the tip; from 152 wei it starts with the roomy margin |
| Fees.FreshChainsAreSafe | internal/gas/rpc.go:86-92 | the same for every chain of re-signs of a fresh transaction at gas prices of at least 152 wei |
| Fees.FreshCanBreakLater | internal/gas/rpc.go:86-92 | concrete readings under which a fresh transaction keeps the rule on the first re-sign and breaks it on the second |
| Fees.RpcGasOracle.UpdateGasPrice | internal/gas/rpc.go:72-96 | a good reply sets the fee cap to the floor of 120% of the gas price and the tip as read; a failed one changes nothing |
| RpcErrors.WrapContains | internal/worker/dispatch_error.go:25-27 | a wrapped error's text contains a phrase exactly when the node's message does, or the wrapper is the nonce error itself |
| RpcErrors.WrappingIsTransparent | internal/worker/unlocker.go:453-470 | classifying the unlocker's wrapped error equals classifying the node's message, for every message |
| RpcErrors.ClassByWords | internal/worker/unlocker.go:453-470 | each class by the literal phrases a message holds and the ones it does not |
| RpcErrors.NetworkWrappingIsTransparent | internal/worker/dispatch_error.go:48-63 | the same for transport errors |
| RpcErrors.SubmitWrappingIsTransparent | cmd/unlocker/main.go:511-513 | the command-line tool's re-sign wrapper does not change the class |
| RpcErrors.ClassifiersAgreeIff | internal/worker/dispatch_error.go:33-46 | the two classifiers agree exactly on messages that do not mix phrase families in the shadowed ways |
| RpcErrors.ReplacementIsNotGasPrice | internal/worker/unlocker.go:461-464 | "replacement transaction underpriced" is never taken for the shorter phrase inside it |
| Stability.EnabledStays | internal/worker/unlocker.go:156-168 | what a reconciler may do on a row it read stays possible, and right, however long it waits |
| Stability.OthersLeave | queries.sql:62-73 | no other process touches an open transaction or the nonce row it has locked |
| Queries.Select | internal/worker/unlocker.go:404-423 | the listing holds exactly the account's rows from the given nonce, and the open ones, in nonce order |
| Queries.SelectPage | queries.sql:171-175 | the page holds exactly the matching rows with fewer than 100 of them before, in id order |
| World.World.Interfere | internal/worker/unlocker.go:335-343 | any number of steps of other processes, after which the state is still a run of the machine |
| World.World.InterfereLeaving | queries.sql:62-73 | the same beside an open transaction, whose rows and locked nonce are untouched |
| World.World.Send | internal/worker/unlocker.go:129-145 | the transaction may be mined from now on whatever the reply; a faithful node refuses a used-up nonce as too low |
| World.World.SetDispatched | internal/store/dispatch.go:46-58 | commits a status after a send and marks the job as having written |
| World.World.SetInNetwork | internal/worker/unlocker.go:366-381 | leaves IN_NETWORK, or nothing when the database fails |
| World.World.SetReceiptStatus | internal/worker/unlocker.go:366-381 | leaves the status of the receipt of the hash that was read, even if the row has changed since |
| World.World.SetRecovered | internal/worker/unlocker.go:238-252 | leaves the hash and the receipt status of the transaction mined at the row's signer and nonce |
| World.World.SetResigned | internal/worker/unlocker.go:348-363 | leaves the re-signed transaction, its hash and IN_NETWORK together |
| World.World.ReadAnchor | internal/worker/unlocker.go:186-196 | the hash of the SUCCESS otx at the next nonce; a failed query looks like none |
| World.World.ReadByHash | internal/sub/handler.go:29-39 | the one row that stores a hash, or none |
| Signing.AcquireNonce | queries.sql:62-73 | the i-th acquire of a transaction returns its first nonce plus i, however many transactions race |
| Signing.InsertOtxAndDispatch | internal/worker/token_transfer.go:90-107 | adds one otx and its PENDING dispatch row to what only this transaction sees |
| Signing.EnqueueAndCommit | internal/worker/token_transfer.go:109-139 | makes the rows, statuses and jobs visible together, each job with its own row's id and raw transaction, or none of them |
| Signing.Abandon | internal/worker/token_transfer.go:36-36 | the deferred rollback leaves nothing |
| Signing.SignOne | internal/worker/token_transfer.go:48-107 | acquire, sign, insert, insert dispatch: one more transaction at the next nonce |
| Signing.SignedKeepsTheRule | internal/worker/token_transfer.go:67-80 | what a job signs has the fee cap and the tip that the oracle gave it, each in its place: from 120% of the gas price every item keeps tip <= fee cap, its first re-sign does from 20 wei, and any chain of re-signs that is never tight from 152 wei |
| Signing.CommittedExecutesInOrder | internal/worker/pool_deploy.go:564-690 | at the nonces of a committed job the chain holds the job's intents, through any re-signs and retries |
| Signing.JobExecutesItsScript | internal/worker/pool_deploy.go:564-690 | so the account executes the job's script in nonce order, whatever order its jobs were dispatched in |
| Evm.StrangersChangeNothing | internal/worker/pool_deploy.go:366-562 | who does not own a contract changes neither its owner, entries, quoter nor supply, nor replaces it |
| Evm.StrangersCannotDeploy | internal/worker/pool_deploy.go:86-86 | only its creator can put a contract at an address |
| Evm.StrangersCannotSpend | internal/worker/pool_swap.go:117-206 | whatever another sender takes from a holder comes off what the holder approved for him, and without that he takes nothing; approvals for others stay |
| Evm.ApprovedCanTake | internal/worker/pool_swap.go:117-206 | an approved sender does take the amount, exactly when his allowance and the balance cover it |
| PoolDeploy.ScriptStep | internal/worker/pool_deploy.go:57-562 | each of the ten transactions succeeds where the ones before it have led |
| PoolDeploy.StrangerStep | internal/worker/pool_deploy.go:57-562 | no transaction of anyone but the master, the requested owner included, disturbs the deployment on the way |
| PoolDeploy.OwnerStep | internal/worker/pool_deploy.go:366-562 | what has been handed over stays as it was, whatever anybody does but the requested owner himself to that very contract |
| PoolDeploy.OwnerCanPassOn | internal/worker/pool_deploy.go:366-562 | and he can: a contract is his to pass on before the last handover is mined, and that does not disturb the rest |
| PoolDeploy.TargetIsReady | internal/worker/pool_deploy.go:317-562 | every call has its target in place and owned by the master when its turn comes: the given pool index for the index entry, by then with the pool deployed, and for each later call a contract created by a smaller nonce of the job |
| PoolDeploy.DeploymentAdvances | internal/worker/pool_deploy.go:263-562 | over any chain order of all senders' transactions, the requested owner's included, the deployment stands where the master's nonces say, and none of its transactions reverts; what has been handed over is his unless he changed it |
| PoolDeploy.DeploymentIsComplete | internal/worker/pool_deploy.go:263-562 | it ends with the pool indexed and all contracts in place, and, unless the requested owner has changed what was handed to him, with the quoter set and all four contracts his |
| PoolDeploy.CommittedDeploymentCompletes | internal/worker/pool_deploy.go:35-691 | from the commit of the job to that end state on chain |
| PoolDeploy.HandoverBeforeQuoterReverts | internal/worker/pool_deploy.go:317-345 | the order matters: with the pool handed over first, setQuoter reverts |
| PoolDeploy.SignTokenIndex | internal/worker/pool_deploy.go:57-105 | signs the first deployment, whose nonce fixes all addresses |
| PoolDeploy.SignDeployments | internal/worker/pool_deploy.go:107-261 | signs Limiter, SwapPool over the predicted registry and limiter, and PriceIndexQuoter at the next three nonces |
| PoolDeploy.SignWiring | internal/worker/pool_deploy.go:263-364 | signs the index entry of the predicted pool, then its quoter |
| PoolDeploy.SignHandover | internal/worker/pool_deploy.go:366-562 | signs the four ownership transfers |
| PoolDeploy.Work | internal/worker/pool_deploy.go:35-691 | commits all ten at consecutive nonces, following the script, each with its recorded type and the caps it heard from the oracle, or commits nothing; it succeeds when nothing fails and nobody holds the master's nonce |
| TokenDeploy.ScriptStep | internal/worker/token_deploy.go:60-284 | deploy, index, mint and handover each succeed where the ones before have led |
| TokenDeploy.OwnerStep | internal/worker/token_deploy.go:233-284 | a token that has been handed over stays as minted, whatever anybody does but its new owner to it |
| TokenDeploy.DeploymentAdvances | internal/worker/token_deploy.go:60-284 | whatever others do in between, the requested owner included, none reverts and the token is indexed and minted; it ends with the requested owner unless he passes it on |
| TokenDeploy.CommittedDeploymentCompletes | internal/worker/token_deploy.go:38-338 | from the commit of the job to that end state on chain |
| TokenDeploy.MintAfterHandoverReverts | internal/worker/token_deploy.go:180-284 | minting must come before the ownership transfer |
| TokenDeploy.Work | internal/worker/token_deploy.go:38-338 | commits the four, with their types and the oracle's caps, or nothing; the deployment is of the expiring type exactly for a positive expiry, and an unreadable expiry counts as none |
| TokenDeploy.DemurrageWork | internal/worker/demurrage_token_deploy.go:40-340 | the same four for a demurrage token; an unreadable rate or period commits nothing |
| TokenDeploy.TransferWork | internal/worker/token_transfer.go:31-140 | commits the one transfer, with its type and the oracle's caps, or nothing |
| Amounts.ParseDecimal | internal/worker/util.go:13-17 | every integer is read back from its numeral |
| Amounts.ParseIff | internal/worker/util.go:13-17 | read is exactly an optional sign followed by one or more decimal digits |
| Amounts.LeadingZero | internal/worker/util.go:13-17 | leading zeros do not change the number: the base is ten |
| Amounts.StringToBigInt | internal/worker/util.go:13-29 | fails exactly on what is no numeral; returns the number, or the floor of 105% of it |
| Amounts.HeadroomIff | internal/worker/util.go:19-26 | the raised approval covers exactly the non-negative amounts, with at least 1 to spare exactly from 20 |
| PoolSpend.AllowanceFollowsTheScript | internal/worker/pool_swap.go:117-206 | for every amount, prior allowance and interleaving, if the balance covers the amount beside all that others are approved for: allowance 0, then the floor of 105%, then that minus the amount; none of the three reverts |
| PoolSpend.UncoveredCanRevert | internal/worker/pool_swap.go:206-285 | with less than that, a third party can take what he is approved for first, and the spend reverts |
| PoolSpend.CommittedSpendCompletes | internal/worker/pool_swap.go:38-285 | from the commit of the job to the three mined: none reverts, and the allowance left is the headroom of the 105% rule |
| PoolSpend.SwapWork | internal/worker/pool_swap.go:38-285 | commits reset, approval of 105% and withdraw at consecutive nonces, with their types and the oracle's caps, or nothing |
| PoolSpend.DepositWork | internal/worker/pool_deposit.go:32-279 | the same ending in a deposit |
| Dispatch.StatusFor | internal/worker/dispatch.go:46-72 | the status of every reply is one the database allows |
| Dispatch.InNetworkIff | internal/worker/dispatch.go:120-140 | IN_NETWORK stands for acceptance and for every call error without a known phrase |
| Dispatch.RejectionsPass | internal/worker/dispatch.go:125-139 | "already known", the refusal of a duplicate, counts as acceptance |
| Dispatch.SendRawTx | internal/worker/dispatch.go:120-140 | the typed error of every reply, and which replies give none |
| Dispatch.Work | internal/worker/dispatch.go:34-118 | for every reply: the status written, committed before any cancel, and whether the job is done, retried or cancelled; a run is retried for a failure of the database or the queue exactly when one happened |
| Dispatch.RunByWords | internal/worker/dispatch.go:46-117 | for each reply by its literal words: the status written, and done, retried or cancelled |
| Dispatch.Record | internal/worker/dispatch.go:50-117 | after the send, the status is committed before the job is cancelled or done |
| Dispatch.RunJob | internal/worker/dispatch.go:78-117 | a job completes or is cancelled only after a run of it committed a status, by the reply that run heard |
| HealthCheck.ToCheck | internal/worker/health_check.go:38-52 | exactly the old enough IN_NETWORK rows of the page |
| HealthCheck.FetchReceipts | internal/worker/health_check.go:54-70 | reply i answers for row i |
| HealthCheck.ReceiptsEffect | internal/worker/health_check.go:71-97 | a committed batch changes the statuses of its rows and nothing else |
| HealthCheck.Work | internal/worker/health_check.go:31-98 | each update rests on the reply heard for the row's own hash and is to SUCCESS; in a quiet world exactly the otxs that are due become SUCCESS |
| HealthCheck.DueIff | queries.sql:171-175 | due is an otx of the service's own types that is IN_NETWORK, old enough, confirmed on chain, and behind fewer than 100 such otxs that are not SUCCESS, REVERTED or PENDING |
| Deliveries.CheckConfirms | internal/worker/health_check.go:31-98 | from a fresh service: a payment signed, dispatched to IN_NETWORK and mined is set to SUCCESS by one run |
| Events.ProcessEvent | internal/sub/handler.go:15-73 | an event changes the status of the one otx with its hash; a key is activated exactly by an event that succeeded and registers it, and whatever others do this process activates no other |
| Deliveries.EventActivates | internal/sub/handler.go:41-57 | from a fresh service: the event of a mined registration makes the otx SUCCESS and the key active |
| Events.RedeliveryIsIdempotent | internal/sub/handler.go:29-57 | delivering an event again with no writes in between changes nothing |
| Recovery.WindowMissesIff | internal/worker/unlocker.go:206-210 | the transaction is never after the anchor, and the exact condition under which the scan misses it |
| Recovery.OnlyMatch | internal/worker/unlocker.go:218-225 | sender and nonce identify one transaction of the whole chain |
| Recovery.SettleSettles | internal/worker/unlocker.go:147-259 | what a fully answered receipt check leaves: the stored hash's receipt, the recovered hash with its receipt, or no change |
| Recovery.AnchoredIsLocal | internal/worker/unlocker.go:186-210 | whether an orphan can be recovered depends on the chain and the otx of the next nonce only |
| Unlocker.SendRawTx | internal/worker/unlocker.go:129-145 | the class of the returned error is the class of the node's own words |
| Unlocker.ScanTransactions | internal/worker/unlocker.go:218-253 | the inner loop adopts the matching transaction and no other; whatever others do, when its receipt calls are answered it misses it only if the block does not have it |
| Unlocker.ScanBlocks | internal/worker/unlocker.go:206-254 | the outer loop: with every call answered it finds the transaction exactly if its block is in the window |
| Unlocker.RecoverOrphanedNonce | internal/worker/unlocker.go:182-259 | sound under any interference: it stores only the transaction mined at the row's signer and nonce; exact under any interference: when all calls are answered it stores it exactly if the window of the anchor it was told of has its block |
| Unlocker.CheckReceipt | internal/worker/unlocker.go:147-177 | which replies it goes by, what it may write and what the row then says; with all calls answered it writes the receipt it was given, or else, for a used-up nonce, that nonce's transaction exactly if the anchor's window has it; in a quiet world it settles the row |
| Unlocker.ResignAndResubmit | internal/worker/unlocker.go:261-295 | nothing for a contract creation; otherwise a resend with both caps raised by the 115% rule over the oracle's reply, which never fails to be recorded while all calls are answered |
| Unlocker.SubmitResigned | internal/worker/unlocker.go:331-363 | sends the re-signed transaction; a refusal leaves the row alone |
| Unlocker.RewriteOrRecover | internal/worker/unlocker.go:335-363 | after an accepted resend the row is rewritten only if the nonce was not seen used up; otherwise the receipt decides |
| Unlocker.ProcessOtx | internal/worker/unlocker.go:99-127 | the branch for every reply, by the node's own words; a used-up nonce is settled, any other otx is the only one that changes; with all calls answered an accepted send is recorded and a gas error leads to a re-sign |
| Unlocker.FundsDoNotHalt | internal/worker/unlocker.go:119-121 | after an otx refused for want of funds alone nothing more is done about it, and the next one is visited |
| Unlocker.PassStopsIff | internal/worker/unlocker.go:78-94 | with all calls answered the pass goes on after an otx exactly unless it was refused in unknown words, or for its price and again when re-signed |
| Unlocker.ProcessAccount | internal/worker/unlocker.go:58-97 | rows are visited in nonce order until one fails, none skipped, each by the replies heard for it; where a pass stops and where it goes on follows from the nodes' words; one pass in a quiet world settles every used-up nonce; a pass that gets to its end drains if the node took something from each waiting otx |
| Unlocker.PassDrains | internal/worker/unlocker.go:78-94 | if the node accepted the stored or the re-signed transaction of every otx still waiting, the network can mine the account up to next_nonce by itself |
| Unlocker.Work | internal/worker/unlocker.go:35-56 | under any interference: the accounts of the page it read get one pass each, in which its steps are the visits of the passes and nothing else; in a quiet world no other account changes |
| Healing.WaitingResolvesIff | internal/worker/unlocker.go:147-259 | a pass resolves a used-up open nonce exactly when its stored hash is mined or the next otx anchors it |
| Healing.MinedHashGetsItsReceipt | internal/worker/unlocker.go:147-177 | after one pass every otx of the account whose stored hash is mined has exactly its receipt's status, whatever it had before |
| Healing.OrphanBelowReverted | internal/worker/unlocker.go:186-196 | an orphan below a nonce whose transaction reverted is not recovered by a pass |
| Healing.PassShrinksIff | internal/worker/unlocker.go:58-97 | the number of unresolved mined nonces never grows, and falls exactly when one is healable |
| Healing.OrphansTakeExactlyKPasses | internal/worker/unlocker.go:182-259 | k orphans below a resolved success, all successful and each in the window, take exactly k passes, from the last to the first |
| Healing.RunPasses | internal/worker/unlocker.go:58-97 | k runs of the unlocker on an account are k such passes |
| Orphans.OrphansAreReached | internal/worker/unlocker.go:331-363 | for every n a fresh service can reach n orphans below a resolved success, all in one window: the hypothesis of convergence is met |
| Starvation.StuckIff | internal/worker/unlocker.go:385-396 | in every reachable state an otx is stuck exactly if it is of the service's own types, old enough, and neither SUCCESS nor REVERTED |
| Starvation.CommittedIsFound | internal/worker/unlocker.go:385-396 | what a job has committed under such a type is stuck, once old enough, for as long as it is not settled |
| Starvation.PageIsServed | internal/worker/unlocker.go:445-451 | the accounts of any page the unlocker reads are exactly those with a stuck otx among the hundred oldest |
| Starvation.ServedIff | internal/worker/unlocker.go:383-402 | an account with a stuck otx is on the page exactly when fewer than 100 stuck otxs, all of other accounts, are older than its oldest |
| Starvation.Starves | internal/worker/unlocker.go:383-402 | a hundred stuck otxs that no pass can heal stay so through every run, and keep each account whose open otxs are all younger off the page; its otxs never change |
| Starvation.UnlockAgain | internal/worker/unlocker.go:35-56 | consecutive runs of the unlocker are such runs |
| Starvation.StarvationIsReached | internal/worker/unlocker.go:383-402 | from a fresh service, n >= 100 orphans of one key with no success above them, and a stuck payment of another key that is not on the page |
| Draining.Drains | internal/worker/unlocker.go:404-416 | with a version of each waiting nonce sent, the chain can mine them one after another |
| Draining.GapBlocks | internal/worker/unlocker.go:404-416 | a nonce that was never sent stops its account |
| Draining.DrainsIff | internal/worker/unlocker.go:404-416 | the chain can reach next_nonce with blocks alone exactly when a version of every waiting nonce was ever passed to a send call |
| Cli.AllNodesWrappingIsTransparent | cmd/unlocker/main.go:396-396 | the wrapper after the last node does not change the class |
| Cli.SendRawTxMultiNode | cmd/unlocker/main.go:376-397 | the next node is asked only after a network error; the first other reply decides, and the error has the class of that node's own words |
| Cli.CheckReceiptAndUpdate | cmd/unlocker/main.go:432-444 | writes the receipt's status, and crashes exactly when the last reply is that there is no receipt, which means a hash that is not mined |
| Cli.ResignAndSubmit | cmd/unlocker/main.go:446-516 | a resend with caps raised by the 115% rule over 120% of the gas price it was told; an error for a contract creation; a refused resend has the class of the deciding node's words |
| Cli.DecidedBy | cmd/unlocker/main.go:376-397 | for every sequence of replies the returned error has the class of the last one's own words |
| Cli.ProcessOtx | cmd/unlocker/main.go:169-230 | the outcome and the writes by the deciding nodes' own words on the resubmission and the re-sign, and by whether the database saved the result; in a quiet world a used-up nonce ends as already done if the stored hash is mined, and in the crash otherwise |
| Cli.OutcomeIff | cmd/unlocker/main.go:169-230 | each outcome exactly by the literal phrases heard from the deciding nodes and what the database answered |
| Orphans.FetchedTooSoon | cmd/unlocker/main.go:330-361 | from a fresh service: the tool's query lists the re-signed row, then the first version is mined and the row is an orphan whose hash is not mined |
| Orphans.ToolCrashes | cmd/unlocker/main.go:432-444 | on that row, with every call answered and nobody else at work, the tool crashes |
| Cli.EveryVisitCounts | cmd/unlocker/main.go:108-114 | every fetched otx is counted once |
| Cli.CountersAre | cmd/unlocker/main.go:108-231 | each of the five counters counts its own outcomes; the skipped are those without gas and those passed over after them |
| Cli.StopsByWords | cmd/unlocker/main.go:141-146 | the account is reported without gas exactly if some otx met nodes that miss funds, and nothing after that otx is touched |
| Cli.ProcessAccount | cmd/unlocker/main.go:116-232 | each counter; the fetched rows are visited in order, each by the replies heard for it; after a no-gas outcome nothing later of the account is touched, and nothing is passed over before one |
| Cli.UnlockAll | cmd/unlocker/main.go:93-240 | the accounts of the page it read get one run each and the steps are those of the visits; the counters add up to the otxs fetched plus the accounts skipped whole; the no-gas set is exactly the accounts that ran out |
| Pagination.JoinIsOneToOne | queries.sql:117-125 | the dispatch join duplicates no row |
| Pagination.RowsAreTrue | queries.sql:117-151 | every row of each of the three queries is an otx of the account with the status of its own dispatch row |
| Pagination.IdsOfAccount | queries.sql:117-125 | the listing is over all otxs of the account and no others |
| Pagination.IdsOnlyAppend | queries.sql:127-136 | new commits only add ids at the end of an account's list |
| Pagination.NextEnumeratesEachOnce | queries.sql:127-136 | following next cursors lists an account's otxs in id order, each once, with any page sizes and concurrent commits, and a short page is the end |
| Pagination.PreviousUndoesNextIff | queries.sql:138-151 | previous from a page's first id gives the page it was reached from exactly when that page was full or the first |
| Pagination.ForthAndBack | queries.sql:127-151 | forward and back with one page size returns to the same page |
| Pagination.EmptyPageRestarts | internal/api/otx_handler.go:117-122 | following the cursor of an empty page starts over |
| Pagination.ValidatePagination | internal/api/pagination.go:13-28 | pages are capped at 100; without `next`, only a positive cursor asks for a previous page |
| Pagination.GetOtxByAddress | internal/api/otx_handler.go:86-132 | the page of the query the request asks for, on one snapshot, each row with its own dispatch status, and the page's first and last id |

## Left out

- HTTP plumbing, authentication, validators, configuration, metrics, logging, graceful shutdown, NATS publishing, ENS and referral submission: they do not change the state proved about.
- Signatures, RLP, hex, ABI and calldata tags: a transaction is a record and its hash is injective; a row that cannot be decoded appears only as an outcome of the command-line tool.
- River: a job can be inserted with its transaction, retried, discarded, cancelled and completed; priorities, backoff and the number of attempts are not modelled, and the gas-refill and retrier jobs that are enqueued beside dispatch jobs change no state here.
- The other signing jobs (sweep, generic sign, gas refill, account creation, JSON-RPC): same shape as the token transfer; their steps are in the machine, their methods are not written out.
- `bumpGas`, `noopTx` and `SetAccountNonce`: no service path calls them.
- Integer widths of columns and of block numbers, and the clock: the set of otxs that are old enough is a parameter.
- Re-signing a transaction that is not of the dynamic-fee type, which the unlocker refuses: the service never signs one.
- Dry runs of the command-line tool, and the printing of its gas top-up list.
- What a pool pays out on a withdraw, transfer fees, demurrage of balances, contract bytecode and the decay level: they live in libraries.
- A failed call and an error inside a batch of calls are not told apart; w3's own text around a call error is not modelled.
- Unlocker.ProcessAccount: the joint effect on all used-up nonces is stated for a quiet world; under interference each visit has its own guarantees, since others may write the same rows.
- Cli.ProcessOtx: the tool's crash on a missing receipt ends the run; what the operating system does then is not modelled.
- PoolSpend.AllowanceFollowsTheScript: amounts are non-negative and covered by the sender's balance beside what others are approved for, and the pool, a contract, signs nothing; a negative amount is signed as it is read, and the model lets the contract refuse it.
- PoolDeploy.DeploymentIsComplete: who owns what in the end is stated for an owner who leaves the contracts as he got them; he may pass one on at once, as `PoolDeploy.OwnerCanPassOn` shows.
- Pagination.NextEnumeratesEachOnce: the client stops at an empty page; one that goes on starts over, as stated separately.
