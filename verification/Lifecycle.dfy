/** The transaction lifecycle as one interleaved state machine: the PostgreSQL tables with any
    number of live database transactions, the job queue, the Ethereum node and the chain.

    A step is what one process does between two points where others can interfere.  What a process
    read earlier may be stale when it writes; the only mutable thing a process remembers is an `otx`
    row, so a write may act on any row version that was ever committed (`versions`). */
module Lifecycle {
  import opened Types
  import opened Fees

  datatype Status =
    | PENDING | IN_NETWORK | SUCCESS | REVERTED | LOW_NONCE | NO_GAS | LOW_GAS_PRICE | NETWORK_ERROR
    | EXTERNAL_DISPATCH | REPLACEMENT_UNDERPRICED | UNKNOWN_RPC_ERROR
    | UNKNOWN_ERROR // what the Go constant UNKNOWN_RPC_ERROR holds

  /** The rows of dispatch_status_type; dispatch.status references them. */
  const STATUS_TABLE: set<Status> := {PENDING, IN_NETWORK, SUCCESS, REVERTED, LOW_NONCE, NO_GAS, LOW_GAS_PRICE,
    NETWORK_ERROR, EXTERNAL_DISPATCH, REPLACEMENT_UNDERPRICED, UNKNOWN_RPC_ERROR}

  /** Statuses the dispatch worker can write after a send attempt. */
  const DISPATCH_STATUSES: set<Status> := {IN_NETWORK, LOW_NONCE, NO_GAS, LOW_GAS_PRICE, NETWORK_ERROR,
                                           REPLACEMENT_UNDERPRICED}

  datatype OtxType =
    | GAS_REFILL | ACCOUNT_REGISTER | GAS_TRANSFER | TOKEN_TRANSFER | TOKEN_APPROVE | TOKEN_SWEEP | POOL_SWAP
    | POOL_DEPOSIT | OTHER_MANUAL | GENERIC_SIGN | STANDARD_TOKEN_DEPLOY | TRANSFER_OWNERSHIP | TOKEN_INDEX_ADD
    | POOL_DEPLOY | TOKEN_INDEX_DEPLOY | LIMITER_DEPLOY | SWAPPOOL_DEPLOY | PRICEINDEXQUOTER_DEPLOY
    | POOL_INDEX_ADD | SET_QUOTER | DEMURRAGE_TOKEN_DEPLOY | EXPIRING_TOKEN_DEPLOY

  datatype OtxRow = OtxRow(id: nat, account: Address, nonce: nat, kind: OtxType, raw: Tx, hash: Hash)

  datatype JobState = Available | Completed | Cancelled | Discarded

  /** A dispatch job; `wrote` once a run of it has committed a status. */
  datatype Job = Job(raw: Tx, state: JobState, wrote: bool)

  datatype Phase = Idle | HaveNonce | HaveRow | Queued

  /** An open database transaction of a signing job, with the rows only it can see.  From its first
      acquire to its end it holds the row lock on its signer's noncestore row. */
  datatype LiveTx = LiveTx(phase: Phase, signer: Option<Address>, acquired: nat, rows: seq<OtxRow>,
                           dispatch: map<nat, seq<Status>>, jobs: map<nat, seq<Job>>, newKeys: set<Address>)

  datatype Mined = Mined(tx: Tx, block: nat, ok: bool)

  /** `dispatch` and `jobs` group their rows by otx id; neither table declares that id unique. */
  datatype State = State(
    next: map<Address, nat>,        // noncestore: next_nonce per key
    active: set<Address>,           // keystore.active
    idSeq: nat,                     // the identity sequence of otx
    live: map<nat, LiveTx>,
    otx: map<nat, OtxRow>,
    dispatch: map<nat, seq<Status>>,
    jobs: map<nat, seq<Job>>,
    versions: set<OtxRow>,          // every otx row version ever committed
    sent: set<Tx>,                  // everything ever passed to a send call, whatever the reply
    mined: map<Address, seq<Mined>>, // per sender, in nonce order
    height: nat)

  function MinedBy(mined: map<Address, seq<Mined>>, a: Address): seq<Mined> {
    if a in mined then mined[a] else []
  }

  /** A key the service does not hold, committed or not. */
  predicate Foreign(s: State, a: Address) {
    a !in s.next && forall t :: t in s.live ==> a !in s.live[t].newKeys
  }

  datatype Step =
    | Begin(t: nat)
    | InsertKeypair(t: nat, key: Address)
    | Acquire(t: nat, signer: Address)
    | InsertOtx(t: nat, kind: OtxType, to: Option<Address>, value: int, call: Call, gas: nat, feeCap: nat, tipCap: nat)
    | InsertDispatch(t: nat)
    | Enqueue(t: nat)
    | Commit(t: nat)
    | Rollback(t: nat)
    | SendJob(id: nat, j: nat)
    | WriteDispatch(id: nat, j: nat, status: Status)
    | FinishJob(id: nat, j: nat, outcome: JobState)
    | Resubmit(row: OtxRow)
    | MarkInNetwork(row: OtxRow)
    | SendResigned(row: OtxRow, fee: nat, tip: nat)
    | WriteResigned(row: OtxRow, fee: nat, tip: nat)
    | WriteReceipt(row: OtxRow)
    | WriteRecovered(row: OtxRow)
    | Activate(key: Address)
    | Mine(tx: Tx, ok: bool)
    | NewBlock

  /** The transaction of `h` is on chain. */
  predicate HashMined(s: State, h: Hash) {
    var i := h.tx.intent;
    i.nonce < |MinedBy(s.mined, i.sender)| && MinedBy(s.mined, i.sender)[i.nonce].tx == h.tx
  }

  function ReceiptStatus(m: Mined): Status {
    if m.ok then SUCCESS else REVERTED
  }

  predicate Enabled(s: State, step: Step) {
    match step
    case Begin(t) => t !in s.live
    case InsertKeypair(t, key) =>
      t in s.live && Foreign(s, key) && MinedBy(s.mined, key) == []
    case Acquire(t, a) =>
      && t in s.live && s.live[t].phase == Idle && a in s.next
      && s.live[t].signer in {None, Some(a)}
      && (forall u :: u in s.live && u != t ==> s.live[u].signer != Some(a)) // else it waits for the row lock
    case InsertOtx(t, _, _, _, _, _, _, _) =>
      && t in s.live && s.live[t].phase == HaveNonce
      && s.live[t].acquired > 0 && s.live[t].signer.Some? && s.live[t].signer.value in s.next
    case InsertDispatch(t) => t in s.live && s.live[t].phase == HaveRow && s.live[t].rows != []
    case Enqueue(t) => t in s.live && s.live[t].phase == Idle && s.live[t].rows != []
    case Commit(t) => t in s.live && s.live[t].phase == Queued
    case Rollback(t) => t in s.live
    case SendJob(id, j) => id in s.jobs && j < |s.jobs[id]|
    case WriteDispatch(id, j, status) =>
      id in s.jobs && j < |s.jobs[id]| && s.jobs[id][j].raw in s.sent && status in DISPATCH_STATUSES && id in s.dispatch
    case FinishJob(id, j, outcome) =>
      && id in s.jobs && j < |s.jobs[id]| && s.jobs[id][j].state == Available
      && match outcome {
           case Available => false
           case Discarded => true // retries ran out
           case _ => s.jobs[id][j].wrote
         }
    case Resubmit(v) => v in s.versions
    case MarkInNetwork(v) => v in s.versions && v.raw in s.sent && v.id in s.dispatch
    case SendResigned(v, _, _) => v in s.versions && v.raw.intent.to.Some?
    case WriteResigned(v, fee, tip) =>
      v in s.versions && Resigned(v.raw, fee, tip) in s.sent && v.id in s.otx && v.id in s.dispatch
    case WriteReceipt(v) => v in s.versions && HashMined(s, v.hash) && v.id in s.dispatch
    case WriteRecovered(v) =>
      v in s.versions && v.nonce < |MinedBy(s.mined, v.account)| && v.id in s.otx && v.id in s.dispatch
    case Activate(key) => key in s.next
    case Mine(tx, _) =>
      tx.intent.nonce == |MinedBy(s.mined, tx.intent.sender)| && (tx in s.sent || Foreign(s, tx.intent.sender))
    case NewBlock => true
  }

  /** UPDATE dispatch SET status = ... WHERE otx_id = ... */
  function SetStatus(dispatch: map<nat, seq<Status>>, id: nat, status: Status): map<nat, seq<Status>>
    requires id in dispatch
  {
    dispatch[id := seq(|dispatch[id]|, _ => status)]
  }

  function SetJob(jobs: map<nat, seq<Job>>, id: nat, j: nat, job: Job): map<nat, seq<Job>>
    requires id in jobs && j < |jobs[id]|
  {
    jobs[id := jobs[id][j := job]]
  }

  /** INSERT INTO a table grouped by otx id. */
  function Insert<T>(table: map<nat, seq<T>>, id: nat, row: T): map<nat, seq<T>> {
    table[id := (if id in table then table[id] else []) + [row]]
  }

  function EnqueueAll(jobs: map<nat, seq<Job>>, rows: seq<OtxRow>): map<nat, seq<Job>> {
    if rows == [] then jobs else
      var last := rows[|rows| - 1];
      Insert(EnqueueAll(jobs, rows[..|rows| - 1]), last.id, Job(last.raw, Available, false))
  }

  function Table(rows: seq<OtxRow>): map<nat, OtxRow> {
    if rows == [] then map[] else Table(rows[..|rows| - 1])[rows[|rows| - 1].id := rows[|rows| - 1]]
  }

  /** The row the next insert of transaction `lt` adds: AcquireNonce returned next_nonce as this
      transaction sees it. */
  function NewRow(s: State, lt: LiveTx, kind: OtxType, to: Option<Address>, value: int, call: Call,
                  gas: nat, feeCap: nat, tipCap: nat): OtxRow
    requires lt.signer.Some? && lt.signer.value in s.next && lt.acquired > 0
  {
    var a := lt.signer.value;
    var nonce := s.next[a] + lt.acquired - 1;
    var tx := Tx(Intent(a, nonce, to, value, call, gas), feeCap, tipCap);
    OtxRow(s.idSeq, a, nonce, kind, tx, HashOf(tx))
  }

  /** The insert trigger on keystore: every new key starts at nonce 0. */
  function StartingNonces(keys: set<Address>): map<Address, nat> {
    map k | k in keys :: 0
  }

  function CommitTx(s: State, t: nat): State
    requires t in s.live
  {
    var lt := s.live[t];
    var next := match lt.signer
      case None => s.next
      case Some(a) => s.next[a := (if a in s.next then s.next[a] else 0) + lt.acquired];
    s.(next := next + StartingNonces(lt.newKeys),
       live := s.live - {t},
       otx := s.otx + Table(lt.rows),
       dispatch := s.dispatch + lt.dispatch,
       jobs := s.jobs + lt.jobs,
       versions := s.versions + Table(lt.rows).Values)
  }

  /** UPDATE otx ... WHERE id = ..., and the dispatch status with it. */
  function PutRow(s: State, id: nat, row: OtxRow, status: Status): State
    requires id in s.dispatch
  {
    s.(otx := s.otx[id := row], dispatch := SetStatus(s.dispatch, id, status), versions := s.versions + {row})
  }

  function Apply(s: State, step: Step): State
    requires Enabled(s, step)
  {
    match step
    case Begin(t) => s.(live := s.live[t := LiveTx(Idle, None, 0, [], map[], map[], {})])
    case InsertKeypair(t, key) => s.(live := s.live[t := s.live[t].(newKeys := s.live[t].newKeys + {key})])
    case Acquire(t, a) =>
      var lt := s.live[t];
      s.(live := s.live[t := lt.(phase := HaveNonce, signer := Some(a), acquired := lt.acquired + 1)])
    case InsertOtx(t, kind, to, value, call, gas, feeCap, tipCap) =>
      var lt := s.live[t];
      var row := NewRow(s, lt, kind, to, value, call, gas, feeCap, tipCap);
      s.(live := s.live[t := lt.(phase := HaveRow, rows := lt.rows + [row])], idSeq := s.idSeq + 1)
    case InsertDispatch(t) =>
      var lt := s.live[t];
      var row := lt.rows[|lt.rows| - 1];
      s.(live := s.live[t := lt.(phase := Idle, dispatch := Insert(lt.dispatch, row.id, PENDING))])
    case Enqueue(t) =>
      var lt := s.live[t];
      s.(live := s.live[t := lt.(phase := Queued, jobs := EnqueueAll(lt.jobs, lt.rows))])
    case Commit(t) => CommitTx(s, t)
    case Rollback(t) => s.(live := s.live - {t})
    case SendJob(id, j) => s.(sent := s.sent + {s.jobs[id][j].raw})
    case WriteDispatch(id, j, status) =>
      s.(dispatch := SetStatus(s.dispatch, id, status),
         jobs := SetJob(s.jobs, id, j, s.jobs[id][j].(wrote := true)))
    case FinishJob(id, j, outcome) => s.(jobs := SetJob(s.jobs, id, j, s.jobs[id][j].(state := outcome)))
    case Resubmit(v) => s.(sent := s.sent + {v.raw})
    case MarkInNetwork(v) => s.(dispatch := SetStatus(s.dispatch, v.id, IN_NETWORK))
    case SendResigned(v, fee, tip) => s.(sent := s.sent + {Resigned(v.raw, fee, tip)})
    case WriteResigned(v, fee, tip) =>
      var tx := Resigned(v.raw, fee, tip);
      PutRow(s, v.id, s.otx[v.id].(raw := tx, hash := HashOf(tx)), IN_NETWORK)
    case WriteReceipt(v) =>
      var i := v.hash.tx.intent;
      s.(dispatch := SetStatus(s.dispatch, v.id, ReceiptStatus(MinedBy(s.mined, i.sender)[i.nonce])))
    case WriteRecovered(v) =>
      var m := MinedBy(s.mined, v.account)[v.nonce];
      PutRow(s, v.id, s.otx[v.id].(hash := HashOf(m.tx)), ReceiptStatus(m))
    case Activate(key) => s.(active := s.active + {key})
    case Mine(tx, ok) =>
      var a := tx.intent.sender;
      s.(mined := s.mined[a := MinedBy(s.mined, a) + [Mined(tx, s.height, ok)]])
    case NewBlock => s.(height := s.height + 1)
  }

  /** A step that is not enabled waits or fails; either way nothing changes. */
  function Next(s: State, step: Step): State {
    if Enabled(s, step) then Apply(s, step) else s
  }

  function Run(s: State, steps: seq<Step>): State
    decreases |steps|
  {
    if steps == [] then s else Next(Run(s, steps[..|steps| - 1]), steps[|steps| - 1])
  }

  /** A fresh deployment: some keys with nonce 0, nothing signed, nothing mined for them. */
  predicate Init(s: State) {
    && (forall a :: a in s.next ==> s.next[a] == 0 && MinedBy(s.mined, a) == [])
    && s.live == map[] && s.otx == map[] && s.dispatch == map[] && s.jobs == map[]
    && s.versions == {} && s.sent == {}
    && (forall a, n :: a in s.mined && 0 <= n < |s.mined[a]| ==>
          s.mined[a][n].tx.intent.sender == a && s.mined[a][n].tx.intent.nonce == n && s.mined[a][n].block <= s.height)
    && (forall a, n, m :: a in s.mined && 0 <= n < m < |s.mined[a]| ==> s.mined[a][n].block <= s.mined[a][m].block)
  }
}
