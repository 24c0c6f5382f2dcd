/** What a process may still rely on after any steps of the others. */
module Stability {
  import opened Types
  import opened Fees
  import opened Lifecycle
  import opened Invariant
  import opened Preservation
  import opened Growth
  import opened Theorems

  /** Steps of the reconciling processes whose guard, once true, stays true. */
  predicate StableStep(step: Step) {
    step.SendJob? || step.WriteDispatch? || step.Resubmit? || step.MarkInNetwork? || step.SendResigned?
    || step.WriteResigned? || step.WriteReceipt? || step.WriteRecovered? || step.Activate?
  }

  lemma EnabledStays(s: State, t: State, step: Step)
    requires Inv(s) && Inv(t) && Grows(s, t) && StableStep(step) && Enabled(s, step)
    ensures Enabled(t, step)
  {
    hide Inv, Grows, MinedBy, HashMined;
    SetsGrow(s, t);
    if step.SendJob? || step.WriteDispatch? {
      JobStays(s, t, step.id);
    } else if !step.Activate? {
      VersionFact(t, step.row);
      ChainStays(s, t, step.row.account);
      if step.WriteReceipt? {
        HashStaysMined(s, t, step.row.hash);
      }
    }
  }

  lemma SetsGrow(s: State, t: State)
    requires Grows(s, t)
    ensures s.versions <= t.versions && s.sent <= t.sent && s.next.Keys <= t.next.Keys && s.otx.Keys <= t.otx.Keys
  {
    hide IdsAppend, ChainGrows, PendingNotReentered;
    forall o | o in s.otx ensures o in t.otx { assert Kept(s, t, o); }
  }

  lemma ChainStays(s: State, t: State, a: Address)
    requires Grows(s, t)
    ensures MinedBy(s.mined, a) <= MinedBy(t.mined, a)
  {
    hide NoncesGrow, Kept, IdsAppend, PendingNotReentered;
  }

  lemma JobStays(s: State, t: State, id: nat)
    requires Inv(s) && Inv(t) && Grows(s, t) && id in s.jobs
    ensures id in t.jobs && id in t.otx && id in t.dispatch && |t.jobs[id]| == |s.jobs[id]| == 1
            && t.jobs[id][0].raw == s.jobs[id][0].raw
    ensures s.jobs[id][0].wrote ==> t.jobs[id][0].wrote
  {
    JobFact(s, id);
    assert Kept(s, t, id) by { hide Inv, Kept, NoncesGrow, IdsAppend, ChainGrows, PendingNotReentered; }
    hide Inv, Grows;
    JobFact(t, id);
  }

  lemma HashStaysMined(s: State, t: State, h: Hash)
    requires Grows(s, t) && HashMined(s, h)
    ensures HashMined(t, h)
    ensures MinedBy(t.mined, h.tx.intent.sender)[h.tx.intent.nonce] ==
              MinedBy(s.mined, h.tx.intent.sender)[h.tx.intent.nonce]
  {
    hide NoncesGrow, Kept, IdsAppend, PendingNotReentered;
    assert MinedBy(s.mined, h.tx.intent.sender) <= MinedBy(t.mined, h.tx.intent.sender);
  }

  /** The receipt of a mined transaction hash. */
  function MinedAt(s: State, h: Hash): Mined
    requires HashMined(s, h)
  {
    MinedBy(s.mined, h.tx.intent.sender)[h.tx.intent.nonce]
  }

  lemma SameMined(s: State, t: State, h: Hash)
    requires s.mined == t.mined
    ensures (HashMined(s, h) <==> HashMined(t, h)) && (HashMined(s, h) ==> MinedAt(t, h) == MinedAt(s, h))
  {
  }

  /** Every transaction of block `b`. */
  function BlockTxs(mined: map<Address, seq<Mined>>, b: nat): set<Tx> {
    set a, n | a in mined && 0 <= n < |mined[a]| && mined[a][n].block == b :: mined[a][n].tx
  }

  /** The steps that hand a transaction to the node. */
  predicate Sends(step: Step) {
    step.SendJob? || step.Resubmit? || step.SendResigned?
  }

  /** What a send step hands to the node. */
  function SentTx(s: State, step: Step): Tx
    requires Sends(step) && Enabled(s, step)
  {
    match step
    case SendJob(id, j) => s.jobs[id][j].raw
    case Resubmit(row) => row.raw
    case SendResigned(row, fee, tip) => Resigned(row.raw, fee, tip)
  }

  lemma SendStays(s: State, t: State, step: Step)
    requires Inv(s) && Inv(t) && Grows(s, t) && Sends(step) && Enabled(s, step) && Enabled(t, step)
    ensures SentTx(t, step) == SentTx(s, step)
  {
    hide Inv, Grows;
    if step.SendJob? {
      JobStays(s, t, step.id);
    }
  }

  lemma SendSends(s: State, step: Step)
    requires Sends(step) && Enabled(s, step)
    ensures SentTx(s, step) in Next(s, step).sent
  {
  }

  lemma QuietSend(s: State, step: Step)
    requires Sends(step) && Enabled(s, step)
    ensures Next(s, step) == s.(sent := s.sent + {SentTx(s, step)})
  {
  }

  /** What a process may rely on however long it was away. */
  ghost predicate Onward(s: State, t: State) {
    s.versions <= t.versions && s.sent <= t.sent && ChainGrows(s.mined, t.mined)
  }

  lemma GrowsIsOnward(s: State, t: State)
    requires Grows(s, t)
    ensures Onward(s, t)
  {
    hide NoncesGrow, Kept, IdsAppend, ChainGrows, PendingNotReentered;
  }

  lemma OnwardHeld(s: State, t: State, otx: OtxRow)
    requires Onward(s, t) && otx in s.versions
    ensures otx in t.versions
    ensures otx.nonce < |MinedBy(s.mined, otx.account)| ==>
              otx.nonce < |MinedBy(t.mined, otx.account)|
                && MinedBy(t.mined, otx.account)[otx.nonce] == MinedBy(s.mined, otx.account)[otx.nonce]
    ensures HashMined(s, otx.hash) ==> HashMined(t, otx.hash) && MinedAt(t, otx.hash) == MinedAt(s, otx.hash)
  {
    assert MinedBy(s.mined, otx.account) <= MinedBy(t.mined, otx.account);
    var i := otx.hash.tx.intent;
    assert MinedBy(s.mined, i.sender) <= MinedBy(t.mined, i.sender);
  }

  /** A row version that a process holds has its row, its dispatch entry and its job. */
  lemma HeldRow(s: State, row: OtxRow)
    requires Inv(s) && row in s.versions
    ensures row.id in s.otx && row.id in s.dispatch && row.id in s.jobs
    ensures row.raw.intent.sender == row.hash.tx.intent.sender == row.account
    ensures row.raw.intent.nonce == row.hash.tx.intent.nonce == row.nonce
    ensures At(s.otx[row.id], row.account, row.nonce)
  {
    VersionFact(s, row);
  }

  lemma HeldCanWrite(s: State, row: OtxRow)
    requires Inv(s) && row in s.versions
    ensures row.raw in s.sent ==> Enabled(s, MarkInNetwork(row))
    ensures HashMined(s, row.hash) ==> Enabled(s, WriteReceipt(row))
    ensures row.nonce < |MinedBy(s.mined, row.account)| ==> Enabled(s, WriteRecovered(row))
  {
    hide Inv, HashMined, MinedBy;
    HeldRow(s, row);
  }

  /** The dispatch job `j` of otx `id`, with its argument. */
  predicate HasJob(s: State, id: nat, j: nat, raw: Tx) {
    id in s.jobs && j < |s.jobs[id]| && s.jobs[id][j].raw == raw
  }

  lemma JobCanWrite(s: State, id: nat, j: nat, status: Status)
    requires id in s.jobs && j < |s.jobs[id]| && s.jobs[id][j].raw in s.sent && status in DISPATCH_STATUSES
             && id in s.dispatch
    ensures Enabled(s, WriteDispatch(id, j, status))
  {
  }

  lemma JobWrote(s: State, id: nat, j: nat, status: Status)
    requires Enabled(s, WriteDispatch(id, j, status))
    ensures var t := Next(s, WriteDispatch(id, j, status));
            id in t.jobs && j < |t.jobs[id]| && t.jobs[id][j].wrote
  {
  }

  lemma JobCanSend(s: State, id: nat, j: nat, raw: Tx)
    requires HasJob(s, id, j, raw)
    ensures Sends(SendJob(id, j)) && Enabled(s, SendJob(id, j)) && SentTx(s, SendJob(id, j)) == raw
  {
  }

  lemma HeldCanSend(s: State, row: OtxRow, fee: nat, tip: nat)
    requires row in s.versions
    ensures Sends(Resubmit(row)) && Enabled(s, Resubmit(row)) && SentTx(s, Resubmit(row)) == row.raw
    ensures row.raw.intent.to.Some? ==>
              var step := SendResigned(row, fee, tip);
              Sends(step) && Enabled(s, step) && SentTx(s, step) == Resigned(row.raw, fee, tip)
  {
    hide Resigned;
  }

  lemma HeldCanResign(s: State, row: OtxRow, fee: nat, tip: nat)
    requires Inv(s) && row in s.versions && Resigned(row.raw, fee, tip) in s.sent
    ensures Enabled(s, WriteResigned(row, fee, tip))
  {
    hide Inv, Resigned;
    HeldRow(s, row);
  }

  /** The database transaction a step belongs to. */
  function TxOf(step: Step): Option<nat> {
    match step
    case Begin(t) => Some(t)
    case InsertKeypair(t, _) => Some(t)
    case Acquire(t, _) => Some(t)
    case InsertOtx(t, _, _, _, _, _, _, _) => Some(t)
    case InsertDispatch(t) => Some(t)
    case Enqueue(t) => Some(t)
    case Commit(t) => Some(t)
    case Rollback(t) => Some(t)
    case _ => None
  }

  /** The open transaction `t` is as it was, and so is the nonce of the key it has locked. */
  predicate Left(s: State, s': State, t: nat) {
    && t in s.live && t in s'.live && s'.live[t] == s.live[t]
    && (forall a :: s.live[t].signer == Some(a) && a in s.next ==> a in s'.next && s'.next[a] == s.next[a])
  }

  lemma LeftAlone(s: State, t: nat)
    requires t in s.live
    ensures Left(s, s, t)
  {
  }

  lemma LeftOn(s: State, s': State, s'': State, t: nat)
    requires Left(s, s', t) && Left(s', s'', t)
    ensures Left(s, s'', t) && t in s''.live
  {
  }

  lemma OthersLeave(s: State, step: Step, t: nat)
    requires Inv(s) && t in s.live && TxOf(step) != Some(t)
    ensures Left(s, Next(s, step), t)
  {
    hide Inv;
    if Enabled(s, step) {
      if step.Commit? {
        CommitIs(s, step.t);
        hide Enabled, Apply, CommitTx, Left;
        OtherCommitLeaves(s, step.t, t);
      } else {
        hide Enabled, HashMined, MinedBy, SetStatus, SetJob, PutRow, EnqueueAll, Insert, CommitTx;
      }
    }
  }

  lemma OtherCommitLeaves(s: State, u: nat, t: nat)
    requires Inv(s) && t in s.live && u in s.live && u != t
    ensures Left(s, CommitTx(s, u), t)
  {
    hide Inv, CommitTx;
    var s' := CommitTx(s, u);
    assert t in s'.live && s'.live[t] == s.live[t] by { CommitLive(s, u); }
    match s.live[t].signer
    case None =>
    case Some(a) =>
      if a in s.next {
        ApartFacts(s, u, t, a);
        CommitNextElsewhere(s, u, a);
      }
  }

  lemma ApartFacts(s: State, u: nat, t: nat, a: Address)
    requires Inv(s) && u in s.live && t in s.live && u != t && s.live[t].signer == Some(a) && a in s.next
    ensures s.live[u].signer != Some(a) && a !in s.live[u].newKeys
  {
    LiveFacts(s, u);
    hide Inv, LiveTxOk;
    assert Separate(s.live[u], s.live[t]);
  }

  lemma CommitLive(s: State, u: nat)
    requires u in s.live
    ensures CommitTx(s, u).live == s.live - {u}
  {
    hide Table, StartingNonces;
  }

  lemma CommitNextElsewhere(s: State, u: nat, a: Address)
    requires u in s.live && a in s.next && a !in s.live[u].newKeys && s.live[u].signer != Some(a)
    ensures a in CommitTx(s, u).next && CommitTx(s, u).next[a] == s.next[a]
  {
    hide Table;
  }

  function Receipts(rows: seq<OtxRow>): seq<Step> {
    if rows == [] then [] else Receipts(rows[..|rows| - 1]) + [WriteReceipt(rows[|rows| - 1])]
  }

  lemma NoReceipts(s: State)
    ensures Receipts([]) == [] && Run(s, []) == s
  {
  }

  lemma ReceiptsGrow(s: State, rows: seq<OtxRow>)
    requires rows != []
    ensures var before := Receipts(rows[..|rows| - 1]);
            && Receipts(rows) == before + [WriteReceipt(rows[|rows| - 1])]
            && Run(s, Receipts(rows)) == Next(Run(s, before), WriteReceipt(rows[|rows| - 1]))
  {
    hide Next;
  }

  function EventSteps(row: OtxRow, key: Option<Address>): seq<Step> {
    (if key.Some? then [Activate(key.value)] else []) + [WriteReceipt(row)]
  }

  lemma EventRuns(s: State, row: OtxRow, key: Option<Address>)
    ensures Run(s, EventSteps(row, key)) ==
              Next(if key.Some? then Next(s, Activate(key.value)) else s, WriteReceipt(row))
  {
    hide Next;
    if key.Some? {
      RunOne(s, Activate(key.value));
      assert EventSteps(row, key)[..1] == [Activate(key.value)];
    } else {
      assert EventSteps(row, key) == [WriteReceipt(row)];
      RunOne(s, WriteReceipt(row));
    }
  }

  /** What each write leaves in the row it is about. */
  lemma MarkWritten(s: State, row: OtxRow)
    requires Enabled(s, MarkInNetwork(row)) && Inv(Next(s, MarkInNetwork(row)))
    ensures StatusesOf(Next(s, MarkInNetwork(row)), row.id) == [IN_NETWORK]
  {
    OneDispatch(Next(s, MarkInNetwork(row)), row.id);
    hide Inv;
  }

  lemma ReceiptWritten(s: State, row: OtxRow)
    requires Enabled(s, WriteReceipt(row)) && Inv(Next(s, WriteReceipt(row)))
    ensures var t := Next(s, WriteReceipt(row));
            HashMined(t, row.hash) && StatusesOf(t, row.id) == [ReceiptStatus(MinedAt(t, row.hash))]
  {
    var t := Next(s, WriteReceipt(row));
    OneDispatch(t, row.id);
    hide Inv, MinedBy, ReceiptStatus;
    assert t.mined == s.mined;
  }

  lemma RecoveryWritten(s: State, row: OtxRow)
    requires Enabled(s, WriteRecovered(row)) && Inv(Next(s, WriteRecovered(row)))
    ensures var t := Next(s, WriteRecovered(row));
            && row.nonce < |MinedBy(t.mined, row.account)| && row.id in t.otx
            && t.otx[row.id].hash == HashOf(MinedBy(t.mined, row.account)[row.nonce].tx)
            && StatusesOf(t, row.id) == [ReceiptStatus(MinedBy(t.mined, row.account)[row.nonce])]
  {
    var t := Next(s, WriteRecovered(row));
    OneDispatch(t, row.id);
    hide Inv, MinedBy, ReceiptStatus;
    assert t.mined == s.mined;
  }

  lemma ResignWritten(s: State, row: OtxRow, fee: nat, tip: nat)
    requires Enabled(s, WriteResigned(row, fee, tip)) && Inv(Next(s, WriteResigned(row, fee, tip)))
    ensures var t, tx := Next(s, WriteResigned(row, fee, tip)), Resigned(row.raw, fee, tip);
            row.id in t.otx && t.otx[row.id].raw == tx && t.otx[row.id].hash == HashOf(tx)
              && StatusesOf(t, row.id) == [IN_NETWORK]
  {
    OneDispatch(Next(s, WriteResigned(row, fee, tip)), row.id);
    hide Inv, Resigned;
  }

  lemma OneDispatch(s: State, id: nat)
    requires Inv(s)
    ensures id in s.dispatch ==> |s.dispatch[id]| == 1
  {
    hide GapFree, LiveOk, SentOk, ChainOk, StatusOk, JobsOk, NewKeysUnused, VersionOk;
  }
}
