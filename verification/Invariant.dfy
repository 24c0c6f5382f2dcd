/** The invariant of the lifecycle machine, kept by every step of every process. */
module Invariant {
  import opened Types
  import opened Lifecycle

  /** Row `r` is the one account `a` signed with nonce `n`. */
  predicate At(r: OtxRow, a: Address, n: nat) {
    r.account == a && r.nonce == n
  }

  ghost predicate Filled(otx: map<nat, OtxRow>, a: Address, n: nat) {
    exists o :: o in otx && At(otx[o], a, n)
  }

  /** Committed nonces of every key are exactly 0..next_nonce - 1, once each, in id order. */
  ghost predicate GapFree(next: map<Address, nat>, otx: map<nat, OtxRow>) {
    && (forall o :: o in otx ==> otx[o].account in next && otx[o].nonce < next[otx[o].account])
    && (forall a, n: nat :: a in next && n < next[a] ==> Filled(otx, a, n))
    && (forall o, p :: o in otx && p in otx && o < p && otx[o].account == otx[p].account ==>
          otx[o].nonce < otx[p].nonce)
  }

  predicate RowSigned(r: OtxRow, a: Address, n: nat) {
    At(r, a, n) && r.raw.intent.sender == a && r.raw.intent.nonce == n && r.hash == HashOf(r.raw)
  }

  /** What one open transaction holds, against the committed tables. */
  ghost predicate LiveTxOk(next: map<Address, nat>, idSeq: nat, otx: map<nat, OtxRow>, lt: LiveTx) {
    && lt.acquired == |lt.rows| + (if lt.phase == HaveNonce then 1 else 0)
    && (lt.signer.None? ==> lt.acquired == 0)
    && (lt.signer.Some? ==> lt.signer.value in next)
    && (lt.phase in {HaveRow, Queued} ==> lt.rows != [])
    && (forall i :: 0 <= i < |lt.rows| ==>
          RowSigned(lt.rows[i], lt.signer.value, next[lt.signer.value] + i) && lt.rows[i].id < idSeq)
    && (forall i, j :: 0 <= i < j < |lt.rows| ==> lt.rows[i].id < lt.rows[j].id)
    && (forall o, i :: o in otx && 0 <= i < |lt.rows| ==>
          o != lt.rows[i].id && (otx[o].account == lt.signer.value ==> o < lt.rows[i].id))
    && LiveTables(lt)
  }

  /** One PENDING dispatch row per otx row (the last may still lack its own), and after the
      enqueue one job per otx row, carrying its raw transaction. */
  ghost predicate LiveTables(lt: LiveTx) {
    && (lt.phase == HaveRow ==> lt.rows != [] && lt.dispatch.Keys == Table(lt.rows[..|lt.rows| - 1]).Keys)
    && (lt.phase != HaveRow ==> lt.dispatch.Keys == Table(lt.rows).Keys)
    && (forall d :: d in lt.dispatch ==> lt.dispatch[d] == [PENDING])
    && (lt.phase != Queued ==> lt.jobs == map[])
    && (lt.phase == Queued ==> OneJobPerRow(Table(lt.rows), lt.jobs))
  }

  ghost predicate OneJobPerRow(rows: map<nat, OtxRow>, jobs: map<nat, seq<Job>>) {
    rows.Keys == jobs.Keys && forall o :: o in rows ==> jobs[o] == [Job(rows[o].raw, Available, false)]
  }

  ghost predicate LiveOk(next: map<Address, nat>, idSeq: nat, otx: map<nat, OtxRow>, live: map<nat, LiveTx>) {
    && (forall o :: o in otx ==> o < idSeq)
    && (forall t :: t in live ==> LiveTxOk(next, idSeq, otx, live[t]))
    && (forall t, u :: t in live && u in live && t != u ==> Separate(live[t], live[u]))
    && (forall t, k :: t in live && k in live[t].newKeys ==> k !in next)
  }

  /** Two open transactions share no lock, no sequence value and no new key. */
  ghost predicate Separate(x: LiveTx, y: LiveTx) {
    && (x.signer.Some? ==> x.signer != y.signer)
    && (forall i, j :: 0 <= i < |x.rows| && 0 <= j < |y.rows| ==> x.rows[i].id != y.rows[j].id)
    && x.newKeys !! y.newKeys
  }

  /** Every version of a row keeps the identity of the row and the intent of its dispatch job. */
  predicate VersionOk(v: OtxRow, otx: map<nat, OtxRow>, jobs: map<nat, seq<Job>>) {
    && v.id in otx && v.id in jobs && |jobs[v.id]| == 1
    && v.account == otx[v.id].account && v.nonce == otx[v.id].nonce && v.kind == otx[v.id].kind
    && jobs[v.id][0].raw.intent.sender == v.account && jobs[v.id][0].raw.intent.nonce == v.nonce
    && v.raw.intent == jobs[v.id][0].raw.intent
    && v.hash.tx.intent == jobs[v.id][0].raw.intent
  }

  /** Exactly one dispatch row and one dispatch job per committed otx. */
  ghost predicate RowsOk(otx: map<nat, OtxRow>, dispatch: map<nat, seq<Status>>, jobs: map<nat, seq<Job>>,
                         versions: set<OtxRow>) {
    && otx.Keys == dispatch.Keys == jobs.Keys
    && (forall o :: o in dispatch ==> |dispatch[o]| == 1 && dispatch[o][0] in STATUS_TABLE)
    && (forall o :: o in otx ==> otx[o].id == o && otx[o] in versions)
    && (forall v :: v in versions ==> VersionOk(v, otx, jobs))
  }

  /** `tx` is a version of what the otx `o` was created with. */
  predicate IsVersionOf(tx: Tx, o: nat, jobs: map<nat, seq<Job>>) {
    o in jobs && |jobs[o]| == 1 && tx.intent == jobs[o][0].raw.intent
  }

  /** Only versions of committed otxs were ever sent. */
  ghost predicate SentOk(sent: set<Tx>, jobs: map<nat, seq<Job>>) {
    forall tx :: tx in sent ==> exists o :: IsVersionOf(tx, o, jobs)
  }

  ghost predicate ChainOk(next: map<Address, nat>, sent: set<Tx>, mined: map<Address, seq<Mined>>, height: nat) {
    && (forall a, n :: a in mined && 0 <= n < |mined[a]| ==>
          && mined[a][n].tx.intent.sender == a && mined[a][n].tx.intent.nonce == n
          && mined[a][n].block <= height && (a in next ==> mined[a][n].tx in sent))
    && (forall a, n, m :: a in mined && 0 <= n < m < |mined[a]| ==> mined[a][n].block <= mined[a][m].block)
  }

  ghost predicate NewKeysUnused(live: map<nat, LiveTx>, mined: map<Address, seq<Mined>>) {
    forall t, k :: t in live && k in live[t].newKeys ==> MinedBy(mined, k) == []
  }

  /** A terminal status tells the truth about the one transaction mined at the row's nonce. */
  predicate Truthful(row: OtxRow, status: Status, mined: map<Address, seq<Mined>>) {
    status in {SUCCESS, REVERTED} ==>
      row.nonce < |MinedBy(mined, row.account)| && ReceiptStatus(MinedBy(mined, row.account)[row.nonce]) == status
  }

  ghost predicate StatusOk(otx: map<nat, OtxRow>, dispatch: map<nat, seq<Status>>, mined: map<Address, seq<Mined>>) {
    forall o, i :: o in otx && o in dispatch && 0 <= i < |dispatch[o]| ==> Truthful(otx[o], dispatch[o][i], mined)
  }

  /** A job that wrote has taken its otx out of PENDING, and only such a job completes or cancels. */
  ghost predicate JobsOk(jobs: map<nat, seq<Job>>, dispatch: map<nat, seq<Status>>) {
    forall o, j :: o in jobs && 0 <= j < |jobs[o]| ==>
      && (jobs[o][j].wrote ==> o in dispatch && PENDING !in dispatch[o])
      && (jobs[o][j].state in {Completed, Cancelled} ==> jobs[o][j].wrote)
  }

  ghost predicate Inv(s: State) {
    && GapFree(s.next, s.otx)
    && LiveOk(s.next, s.idSeq, s.otx, s.live)
    && RowsOk(s.otx, s.dispatch, s.jobs, s.versions)
    && SentOk(s.sent, s.jobs)
    && ChainOk(s.next, s.sent, s.mined, s.height)
    && NewKeysUnused(s.live, s.mined)
    && StatusOk(s.otx, s.dispatch, s.mined)
    && JobsOk(s.jobs, s.dispatch)
  }

  lemma InitInv(s: State)
    requires Init(s)
    ensures Inv(s)
  {
  }
}
