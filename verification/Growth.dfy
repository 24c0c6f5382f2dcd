/** What no step ever takes back: the two-state side of the lifecycle invariant. */
module Growth {
  import opened Types
  import opened Fees
  import opened Lifecycle
  import opened Invariant
  import opened Preservation

  /** Row `o` keeps its identity and the raw transaction its job was created with. */
  predicate Kept(s: State, t: State, o: nat) {
    && o in s.otx && o in t.otx && o in s.jobs && o in t.jobs
    && At(t.otx[o], s.otx[o].account, s.otx[o].nonce) && t.otx[o].kind == s.otx[o].kind
    && |s.jobs[o]| == 1 && |t.jobs[o]| == 1 && t.jobs[o][0].raw == s.jobs[o][0].raw
    && (s.jobs[o][0].wrote ==> t.jobs[o][0].wrote)
  }

  ghost predicate NoncesGrow(s: State, t: State) {
    forall a :: a in s.next ==> a in t.next && s.next[a] <= t.next[a]
  }

  /** A row committed later has the larger id within its account. */
  ghost predicate IdsAppend(s: State, t: State) {
    forall o, p :: o in s.otx && p in t.otx && p !in s.otx && t.otx[p].account == s.otx[o].account ==> o < p
  }

  ghost predicate ChainGrows(mined: map<Address, seq<Mined>>, mined': map<Address, seq<Mined>>) {
    forall a :: MinedBy(mined, a) <= MinedBy(mined', a)
  }

  ghost predicate PendingNotReentered(s: State, t: State) {
    forall o :: o in s.dispatch && PENDING !in s.dispatch[o] ==> o in t.dispatch && PENDING !in t.dispatch[o]
  }

  ghost predicate Grows(s: State, t: State) {
    && NoncesGrow(s, t)
    && (forall o :: o in s.otx ==> Kept(s, t, o))
    && IdsAppend(s, t)
    && s.versions <= t.versions && s.sent <= t.sent && s.height <= t.height
    && ChainGrows(s.mined, t.mined)
    && PendingNotReentered(s, t)
  }

  lemma JobsAreSingle(s: State)
    requires Inv(s)
    ensures s.otx.Keys == s.jobs.Keys == s.dispatch.Keys
    ensures forall o :: o in s.jobs ==> |s.jobs[o]| == 1
  {
    hide GapFree, LiveOk, SentOk, ChainOk, StatusOk, JobsOk, NewKeysUnused, RowsOk, Inv;
    assert s.otx.Keys == s.jobs.Keys == s.dispatch.Keys by { hide *; RowsKeys(s); }
    forall o | o in s.jobs ensures |s.jobs[o]| == 1 { JobFact(s, o); }
  }

  lemma RowsKeys(s: State)
    requires Inv(s)
    ensures s.otx.Keys == s.jobs.Keys == s.dispatch.Keys
  {
    hide GapFree, LiveOk, SentOk, ChainOk, StatusOk, JobsOk, NewKeysUnused, RowsOk;
    KeysAgree(s.otx, s.dispatch, s.jobs, s.versions);
  }

  lemma GrowsReflexive(s: State)
    requires Inv(s)
    ensures Grows(s, s)
  {
    JobsAreSingle(s);
    hide Inv;
  }

  lemma GrowsTransitive(s: State, t: State, u: State)
    requires Grows(s, t) && Grows(t, u)
    ensures Grows(s, u)
  {
    assert NoncesGrow(s, u) by { hide Kept, IdsAppend, ChainGrows, PendingNotReentered; }
    assert forall o :: o in s.otx ==> Kept(s, u, o) by {
      hide NoncesGrow, IdsAppend, ChainGrows, PendingNotReentered;
      forall o | o in s.otx ensures Kept(s, u, o) { assert Kept(s, t, o) && Kept(t, u, o); }
    }
    assert IdsAppend(s, u) by {
      hide NoncesGrow, ChainGrows, PendingNotReentered;
      forall o, p | o in s.otx && p in u.otx && p !in s.otx && u.otx[p].account == s.otx[o].account ensures o < p {
        assert Kept(s, t, o);
        if p in t.otx { assert Kept(t, u, p); }
      }
    }
    assert ChainGrows(s.mined, u.mined) by {
      hide NoncesGrow, Kept, IdsAppend, PendingNotReentered;
      forall a ensures MinedBy(s.mined, a) <= MinedBy(u.mined, a) {
        assert MinedBy(s.mined, a) <= MinedBy(t.mined, a) <= MinedBy(u.mined, a);
      }
    }
    assert PendingNotReentered(s, u) by { hide NoncesGrow, Kept, IdsAppend, ChainGrows; }
    hide NoncesGrow, Kept, IdsAppend, ChainGrows, PendingNotReentered;
  }

  lemma CommitIds(s: State, t: nat)
    requires Inv(s) && t in s.live && s.live[t].phase == Queued
    ensures IdsAppend(s, CommitTx(s, t))
    ensures s.live[t].signer.Some? && s.live[t].signer.value in s.next
    ensures s.live[t].newKeys !! s.next.Keys
    ensures forall o :: o in s.otx ==> o !in s.live[t].jobs && o !in s.live[t].dispatch && o !in Table(s.live[t].rows)
  {
    CommitFacts(s, t);
    hide Inv, LiveTxOk, Table, Filled;
    var lt := s.live[t];
    BatchFromLive(s.next, s.idSeq, s.otx, lt);
    BatchSigner(lt.signer.value, s.next[lt.signer.value], |lt.rows|, Table(lt.rows), lt.dispatch, lt.jobs);
    CommitShape(s, t);
    assert Table(lt.rows).Keys == lt.jobs.Keys == lt.dispatch.Keys;
    hide CommitTx, Batch;
  }

  lemma CommitNonces(s: State, t: nat)
    requires t in s.live && s.live[t].signer.Some? && s.live[t].signer.value in s.next
    requires s.live[t].newKeys !! s.next.Keys
    ensures NoncesGrow(s, CommitTx(s, t)) && CommitTx(s, t).height == s.height
  {
    hide Table;
  }

  lemma CommitKept(s: State, t: nat, s': State)
    requires Grows(s, s) && t in s.live
    requires s'.otx == s.otx + Table(s.live[t].rows) && s'.jobs == s.jobs + s.live[t].jobs
             && s'.dispatch == s.dispatch + s.live[t].dispatch
    requires forall o :: o in s.otx ==> o !in s.live[t].jobs && o !in s.live[t].dispatch && o !in Table(s.live[t].rows)
    requires s.dispatch.Keys == s.otx.Keys
    ensures forall o :: o in s.otx ==> Kept(s, s', o)
    ensures PendingNotReentered(s, s')
  {
    hide Table, NoncesGrow, IdsAppend, ChainGrows;
    forall o | o in s.otx ensures Kept(s, s', o) {
      assert Kept(s, s, o);
    }
    hide Kept, Grows;
  }

  lemma CommitGrows(s: State, t: nat)
    requires Inv(s) && t in s.live && s.live[t].phase == Queued
    ensures Grows(s, CommitTx(s, t))
  {
    hide Inv, IdsAppend, Table, CommitTx, Kept, PendingNotReentered, NoncesGrow, ChainGrows;
    JobsAreSingle(s);
    GrowsReflexive(s);
    CommitIds(s, t);
    CommitShape(s, t);
    CommitNonces(s, t);
    CommitKept(s, t, CommitTx(s, t));
    assert CommitTx(s, t).mined == s.mined;
  }

  /** Steps that leave the committed tables and the chain alone. */
  lemma TablesSame(s: State, t: State)
    requires Grows(s, s)
    requires t.next == s.next && t.otx == s.otx && t.dispatch == s.dispatch && t.jobs == s.jobs
             && t.versions == s.versions
    requires t.mined == s.mined && s.sent <= t.sent && s.height <= t.height
    ensures Grows(s, t)
  {
    hide ChainGrows;
    assert forall o :: o in s.otx ==> Kept(s, s, o);
  }

  /** Steps that set a status, rewrite a row or mark a job. */
  lemma TableUpdated(s: State, t: State, id: nat)
    requires Grows(s, s)
    requires t.next == s.next && t.sent == s.sent && t.mined == s.mined && t.height == s.height
             && s.versions <= t.versions
    requires t.otx.Keys == s.otx.Keys && (forall o :: o in s.otx && o != id ==> t.otx[o] == s.otx[o])
    requires forall o :: o in s.jobs && o != id ==> o in t.jobs && t.jobs[o] == s.jobs[o]
    requires forall o :: o in s.dispatch && o != id ==> o in t.dispatch && t.dispatch[o] == s.dispatch[o]
    requires id in s.otx ==> Kept(s, t, id)
    requires id in s.dispatch ==> id in t.dispatch && (t.dispatch[id] == s.dispatch[id] || PENDING !in t.dispatch[id])
    ensures Grows(s, t)
  {
    hide ChainGrows;
    forall o | o in s.otx ensures Kept(s, t, o) { assert Kept(s, s, o); }
  }

  lemma MineGrows(s: State, tx: Tx, ok: bool)
    requires Grows(s, s) && Enabled(s, Mine(tx, ok))
    ensures Grows(s, Apply(s, Mine(tx, ok)))
  {
    var t := Apply(s, Mine(tx, ok));
    assert forall o :: o in s.otx ==> Kept(s, s, o);
    assert ChainGrows(s.mined, t.mined) by {
      hide Kept, Enabled;
      forall a ensures MinedBy(s.mined, a) <= MinedBy(t.mined, a) {
      }
    }
    hide ChainGrows, Enabled;
  }

  lemma StatusGrows(s: State, id: nat, status: Status)
    requires Grows(s, s) && id in s.dispatch && status != PENDING
    ensures Grows(s, s.(dispatch := SetStatus(s.dispatch, id, status)))
  {
    var t := s.(dispatch := SetStatus(s.dispatch, id, status));
    assert id in s.otx ==> Kept(s, t, id) by { assert id in s.otx ==> Kept(s, s, id); hide Grows; }
    hide Grows, Kept;
    TableUpdated(s, t, id);
  }

  lemma JobGrows(s: State, id: nat, j: nat, job: Job)
    requires Grows(s, s) && id in s.jobs && j < |s.jobs[id]| && job.raw == s.jobs[id][j].raw
             && (s.jobs[id][j].wrote ==> job.wrote)
    ensures Grows(s, s.(jobs := SetJob(s.jobs, id, j, job)))
  {
    var t := s.(jobs := SetJob(s.jobs, id, j, job));
    assert id in s.otx ==> Kept(s, t, id) by { assert id in s.otx ==> Kept(s, s, id); hide Grows; }
    hide Grows, Kept;
    TableUpdated(s, t, id);
  }

  lemma RowGrows(s: State, id: nat, row: OtxRow, status: Status)
    requires Grows(s, s) && id in s.otx && id in s.dispatch && status != PENDING
    requires At(row, s.otx[id].account, s.otx[id].nonce) && row.kind == s.otx[id].kind
    ensures Grows(s, PutRow(s, id, row, status))
  {
    var t := PutRow(s, id, row, status);
    assert Kept(s, t, id) by { assert Kept(s, s, id); hide Grows; }
    hide Grows, Kept;
    TableUpdated(s, t, id);
  }

  lemma WriteDispatchGrows(s: State, id: nat, j: nat, status: Status)
    requires Inv(s) && id in s.jobs && j < |s.jobs[id]| && status in DISPATCH_STATUSES && id in s.dispatch
    ensures Grows(s,
                  s.(dispatch := SetStatus(s.dispatch, id, status),
                     jobs := SetJob(s.jobs, id, j, s.jobs[id][j].(wrote := true))))
  {
    hide Inv, Grows;
    var s1 := s.(jobs := SetJob(s.jobs, id, j, s.jobs[id][j].(wrote := true)));
    GrowsReflexive(s);
    JobGrows(s, id, j, s.jobs[id][j].(wrote := true));
    SelfGrows(s, s1);
    StatusGrows(s1, id, status);
    GrowsTransitive(s, s1, s1.(dispatch := SetStatus(s.dispatch, id, status)));
  }

  lemma SelfGrows(s: State, t: State)
    requires Inv(s) && Grows(s, t) && t.otx == s.otx && t.jobs.Keys == s.jobs.Keys
    ensures Grows(t, t)
  {
    hide GapFree, LiveOk, RowsOk, SentOk, ChainOk, StatusOk, JobsOk, NewKeysUnused;
    forall o | o in t.otx ensures Kept(t, t, o) { assert Kept(s, t, o); }
    hide Kept;
  }

  lemma JobStepGrows(s: State, step: Step)
    requires Inv(s) && Enabled(s, step) && (step.WriteDispatch? || step.FinishJob?)
    ensures Grows(s, Apply(s, step))
  {
    hide Inv, Grows, SetStatus, SetJob;
    if step.WriteDispatch? {
      WriteDispatchGrows(s, step.id, step.j, step.status);
    } else {
      GrowsReflexive(s);
      JobGrows(s, step.id, step.j, s.jobs[step.id][step.j].(state := step.outcome));
    }
  }

  lemma StatusStepGrows(s: State, step: Step)
    requires Inv(s) && Enabled(s, step) && (step.MarkInNetwork? || step.WriteReceipt?)
    ensures Grows(s, Apply(s, step))
  {
    hide Inv, Grows, SetStatus;
    GrowsReflexive(s);
    var v := step.row;
    if step.MarkInNetwork? {
      StatusGrows(s, v.id, IN_NETWORK);
    } else {
      StatusGrows(s, v.id, ReceiptStatus(MinedBy(s.mined, v.hash.tx.intent.sender)[v.hash.tx.intent.nonce]));
    }
  }

  lemma RowStepGrows(s: State, step: Step)
    requires Inv(s) && Enabled(s, step) && (step.WriteResigned? || step.WriteRecovered?)
    ensures Grows(s, Apply(s, step))
  {
    hide Inv, Grows, PutRow;
    GrowsReflexive(s);
    var v := step.row;
    if step.WriteResigned? {
      var tx := Resigned(v.raw, step.fee, step.tip);
      RowGrows(s, v.id, s.otx[v.id].(raw := tx, hash := HashOf(tx)), IN_NETWORK);
    } else {
      var m := MinedBy(s.mined, v.account)[v.nonce];
      RowGrows(s, v.id, s.otx[v.id].(hash := HashOf(m.tx)), ReceiptStatus(m));
    }
  }

  lemma NextGrows(s: State, step: Step)
    requires Inv(s)
    ensures Grows(s, Next(s, step))
  {
    hide Inv, Grows, Enabled, Apply;
    GrowsReflexive(s);
    if Enabled(s, step) {
      match step
      case Commit(t) => CommitStepGrows(s, t);
      case Mine(tx, ok) => MineGrows(s, tx, ok);
      case WriteResigned(_, _, _) => RowStepGrows(s, step);
      case WriteRecovered(_) => RowStepGrows(s, step);
      case WriteDispatch(_, _, _) => JobStepGrows(s, step);
      case FinishJob(_, _, _) => JobStepGrows(s, step);
      case MarkInNetwork(_) => StatusStepGrows(s, step);
      case WriteReceipt(_) => StatusStepGrows(s, step);
      case _ => OtherGrows(s, step);
    }
  }

  lemma CommitStepGrows(s: State, t: nat)
    requires Inv(s) && Enabled(s, Commit(t))
    ensures Grows(s, Apply(s, Commit(t)))
  {
    hide Inv, CommitTx, Grows;
    CommitGrows(s, t);
  }

  lemma OtherGrows(s: State, step: Step)
    requires Grows(s, s) && Enabled(s, step)
    requires step.Begin? || step.InsertKeypair? || step.Acquire? || step.InsertOtx? || step.InsertDispatch?
             || step.Enqueue?
          || step.Rollback? || step.SendJob? || step.Resubmit? || step.SendResigned? || step.Activate? || step.NewBlock?
    ensures Grows(s, Apply(s, step))
  {
    hide Grows;
    TablesSame(s, Apply(s, step));
  }

  /** Every run keeps the invariant, and whatever it has established stays. */
  lemma {:induction false} RunKeeps(s: State, steps: seq<Step>)
    requires Inv(s)
    ensures Inv(Run(s, steps)) && Grows(s, Run(s, steps))
    decreases |steps|
  {
    if steps == [] {
      GrowsReflexive(s);
    } else {
      var before := Run(s, steps[..|steps| - 1]);
      hide Inv, Grows, Next;
      RunKeeps(s, steps[..|steps| - 1]);
      NextKeeps(before, steps[|steps| - 1]);
      NextGrows(before, steps[|steps| - 1]);
      GrowsTransitive(s, before, Run(s, steps));
    }
  }

  lemma {:induction false} RunAppend(s: State, first: seq<Step>, second: seq<Step>)
    ensures Run(s, first + second) == Run(Run(s, first), second)
    decreases |second|
  {
    if second == [] {
      assert first + second == first;
    } else {
      hide Next;
      var last := |second| - 1;
      RunAppend(s, first, second[..last]);
      assert (first + second)[..|first + second| - 1] == first + second[..last];
    }
  }
}
