/** The guarantees of the lifecycle, for every reachable state and every run. */
module Theorems {
  import opened Types
  import opened Lifecycle
  import opened Invariant
  import opened Preservation
  import opened Growth

  ghost predicate Reachable(s: State) {
    exists s0, steps :: Init(s0) && Run(s0, steps) == s
  }

  /** `t` is `s` after some steps of any processes. */
  ghost predicate Leads(s: State, t: State) {
    exists steps :: Run(s, steps) == t
  }

  /** SELECT status FROM dispatch WHERE otx_id = ... */
  function StatusesOf(s: State, o: nat): seq<Status> {
    if o in s.dispatch then s.dispatch[o] else []
  }

  function JobsOf(s: State, o: nat): seq<Job> {
    if o in s.jobs then s.jobs[o] else []
  }

  lemma ReachableInv(s: State)
    requires Reachable(s)
    ensures Inv(s)
  {
    hide Inv, Init, Grows;
    var s0, steps :| Init(s0) && Run(s0, steps) == s;
    InitInv(s0);
    RunKeeps(s0, steps);
  }

  lemma LeadsKeeps(s: State, t: State)
    requires Reachable(s) && Leads(s, t)
    ensures Reachable(t) && Grows(s, t)
  {
    hide Inv, Init, Grows;
    ReachableInv(s);
    var s0, first :| Init(s0) && Run(s0, first) == s;
    var second :| Run(s, second) == t;
    RunAppend(s0, first, second);
    RunKeeps(s, second);
  }

  // ----- at most one execution of every intent

  /** A transaction mined for one of the service's keys executes exactly one committed otx: the one
      signed with its nonce, with the intent that otx was created with. */
  lemma EveryExecutionHasOneOtx(s: State, a: Address, n: nat) returns (o: nat)
    requires Reachable(s) && a in s.next && n < |MinedBy(s.mined, a)|
    ensures n < s.next[a] && o in s.otx && At(s.otx[o], a, n)
    ensures IsVersionOf(MinedBy(s.mined, a)[n].tx, o, s.jobs)
    ensures forall p :: p in s.otx && IsVersionOf(MinedBy(s.mined, a)[n].tx, p, s.jobs) ==> p == o
  {
    ReachableInv(s);
    var tx := MinedBy(s.mined, a)[n].tx;
    assert tx in s.sent && tx.intent.sender == a && tx.intent.nonce == n by {
      hide GapFree, LiveOk, RowsOk, SentOk, StatusOk, JobsOk, NewKeysUnused;
    }
    hide Inv;
    o := SentBelongs(s, tx);
    forall p | p in s.otx && IsVersionOf(tx, p, s.jobs) ensures p == o {
      CurrentVersionFact(s, p);
      OneRowPerNonce(s, p, o);
    }
  }

  /** Of all the versions ever signed for one otx, at most one is mined, at the otx's own place. */
  lemma OtxExecutesAtMostOnce(s: State, o: nat, a: Address, i: nat, b: Address, j: nat)
    requires Reachable(s) && o in s.otx
    requires i < |MinedBy(s.mined, a)| && IsVersionOf(MinedBy(s.mined, a)[i].tx, o, s.jobs)
    requires j < |MinedBy(s.mined, b)| && IsVersionOf(MinedBy(s.mined, b)[j].tx, o, s.jobs)
    ensures a == b == s.otx[o].account && i == j == s.otx[o].nonce
  {
    ReachableInv(s);
    CurrentVersionFact(s, o);
    hide GapFree, LiveOk, RowsOk, SentOk, StatusOk, JobsOk, NewKeysUnused;
  }

  /** Nothing is sent before the otx it belongs to has committed. */
  lemma OnlyCommittedIsSent(s: State, tx: Tx) returns (o: nat)
    requires Reachable(s) && tx in s.sent
    ensures o in s.otx && IsVersionOf(tx, o, s.jobs) && At(s.otx[o], tx.intent.sender, tx.intent.nonce)
  {
    ReachableInv(s);
    o := SentBelongs(s, tx);
  }

  /** An id drawn from the sequence that no table and no open transaction holds any more. */
  ghost predicate Retired(s: State, id: nat) {
    && id < s.idSeq && id !in s.otx
    && forall t, i :: t in s.live && 0 <= i < |s.live[t].rows| ==> s.live[t].rows[i].id != id
  }

  lemma RetiredStays(s: State, step: Step, id: nat)
    requires Inv(s) && Retired(s, id)
    ensures Retired(Next(s, step), id)
  {
    hide Inv, Retired, Enabled, Apply, CommitTx;
    if Enabled(s, step) {
      match step
      case Commit(t) => CommitIs(s, t); RetiredStaysOnCommit(s, t, id);
      case WriteResigned(v, _, _) => RetiredStaysOnWrite(s, step, id);
      case WriteRecovered(v) => RetiredStaysOnWrite(s, step, id);
      case _ => RetiredStaysElsewhere(s, step, id);
    }
  }

  lemma RetiredStaysElsewhere(s: State, step: Step, id: nat)
    requires Retired(s, id) && Enabled(s, step) && !step.Commit? && !step.WriteResigned? && !step.WriteRecovered?
    ensures Retired(Apply(s, step), id)
  {
    hide SetStatus, SetJob, EnqueueAll, Insert, Foreign, HashMined, MinedBy, CommitTx, PutRow;
    if step.Begin? || step.InsertKeypair? || step.Acquire? || step.InsertDispatch? || step.Enqueue? || step.InsertOtx?
      || step.Rollback? {
      var s' := Apply(s, step);
      forall t, i | t in s'.live && 0 <= i < |s'.live[t].rows| ensures s'.live[t].rows[i].id != id {
        if t in s.live && i < |s.live[t].rows| {
          assert s'.live[t].rows[i] == s.live[t].rows[i];
        }
      }
    } else {
      hide Retired;
      assert Apply(s, step).live == s.live && Apply(s, step).otx == s.otx && Apply(s, step).idSeq == s.idSeq;
      SameIsRetired(s, Apply(s, step), id);
    }
  }

  lemma SameIsRetired(s: State, t: State, id: nat)
    requires Retired(s, id) && t.live == s.live && t.otx.Keys == s.otx.Keys && t.idSeq == s.idSeq
    ensures Retired(t, id)
  {
  }

  lemma RetiredStaysOnWrite(s: State, step: Step, id: nat)
    requires Retired(s, id) && Enabled(s, step) && (step.WriteResigned? || step.WriteRecovered?)
    ensures Retired(Apply(s, step), id)
  {
    hide SetStatus, MinedBy, Retired;
    assert Apply(s, step).otx.Keys == s.otx.Keys;
    SameIsRetired(s, Apply(s, step), id);
  }

  lemma RetiredStaysOnCommit(s: State, t: nat, id: nat)
    requires t in s.live && Retired(s, id)
    ensures Retired(CommitTx(s, t), id)
  {
    if id in Table(s.live[t].rows) {
      var i := TableIndex(s.live[t].rows, id);
    }
    hide Table;
  }

  lemma {:induction false} RetiredForever(s: State, steps: seq<Step>, id: nat)
    requires Inv(s) && Retired(s, id)
    ensures Retired(Run(s, steps), id)
    decreases |steps|
  {
    if steps != [] {
      hide Inv, Next, Retired, Grows;
      RunKeeps(s, steps[..|steps| - 1]);
      RetiredForever(s, steps[..|steps| - 1], id);
      RetiredStays(Run(s, steps[..|steps| - 1]), steps[|steps| - 1], id);
    }
  }

  /** A rolled-back signing job leaves no otx, ever.  Its nonce may be signed again, but its abandoned
      transaction reaches the network only if a committed job signed that very intent afresh. */
  lemma AbandonedNeverSent(s: State, t: nat, i: nat, steps: seq<Step>)
    requires Reachable(s) && t in s.live && i < |s.live[t].rows|
    ensures var id, end := s.live[t].rows[i].id, Run(Next(s, Rollback(t)), steps);
            && id !in end.otx
            && (s.live[t].rows[i].raw in end.sent ==>
                  exists o :: o in end.otx && o != id && IsVersionOf(s.live[t].rows[i].raw, o, end.jobs))
  {
    ReachableInv(s);
    var row, s1 := s.live[t].rows[i], Next(s, Rollback(t));
    assert Retired(s1, row.id) by { RollbackRetires(s, t, i); }
    hide Inv, Next, Grows;
    NextKeeps(s, Rollback(t));
    RetiredForever(s1, steps, row.id);
    RunKeeps(s1, steps);
    if row.raw in Run(s1, steps).sent {
      var o := SentBelongs(Run(s1, steps), row.raw);
    }
  }

  lemma RollbackRetires(s: State, t: nat, i: nat)
    requires Inv(s) && t in s.live && i < |s.live[t].rows|
    ensures Retired(Next(s, Rollback(t)), s.live[t].rows[i].id)
  {
    hide Inv, LiveTxOk, Separate;
    assert LiveTxOk(s.next, s.idSeq, s.otx, s.live[t])
           && forall u :: u in s.live && u != t ==> Separate(s.live[t], s.live[u]) by {
      LiveFacts(s, t);
    }
    LiveIdFresh(s.next, s.idSeq, s.otx, s.live[t], i);
    var s' := Next(s, Rollback(t));
    forall u, j | u in s'.live && 0 <= j < |s'.live[u].rows| ensures s'.live[u].rows[j].id != s.live[t].rows[i].id {
      SeparateIds(s.live[t], s.live[u], i, j);
    }
  }

  lemma SeparateIds(x: LiveTx, y: LiveTx, i: nat, j: nat)
    requires Separate(x, y) && i < |x.rows| && j < |y.rows|
    ensures x.rows[i].id != y.rows[j].id
  {
  }

  lemma LiveIdFresh(next: map<Address, nat>, idSeq: nat, otx: map<nat, OtxRow>, lt: LiveTx, i: nat)
    requires LiveTxOk(next, idSeq, otx, lt) && i < |lt.rows|
    ensures lt.rows[i].id !in otx && lt.rows[i].id < idSeq
  {
    hide LiveTables, RowSigned;
  }

  // ----- statuses

  /** SUCCESS and REVERTED are never wrong, whoever wrote them and however stale the row it read. */
  lemma TerminalStatusIsTruth(s: State, o: nat)
    requires Reachable(s) && o in s.otx
    ensures |StatusesOf(s, o)| == 1
    ensures forall st :: st in {SUCCESS, REVERTED} && StatusesOf(s, o) == [st] ==>
              var chain := MinedBy(s.mined, s.otx[o].account);
              && s.otx[o].nonce < |chain| && ReceiptStatus(chain[s.otx[o].nonce]) == st
              && IsVersionOf(chain[s.otx[o].nonce].tx, o, s.jobs)
  {
    ReachableInv(s);
    CurrentVersionFact(s, o);
    assert Truthful(s.otx[o], s.dispatch[o][0], s.mined) by {
      hide GapFree, LiveOk, RowsOk, SentOk, ChainOk, JobsOk, NewKeysUnused, Truthful;
    }
    if s.dispatch[o][0] in {SUCCESS, REVERTED} {
      hide Inv;
      MinedIsVersion(s, s.otx[o]);
    }
  }

  /** A terminal status may be overwritten, but no later terminal status contradicts it. */
  lemma TerminalStatusesAgree(s: State, t: State, o: nat, st: Status, st': Status)
    requires Reachable(s) && Leads(s, t) && o in s.otx
    requires st in {SUCCESS, REVERTED} && StatusesOf(s, o) == [st]
    requires st' in {SUCCESS, REVERTED} && StatusesOf(t, o) == [st']
    ensures st == st'
  {
    hide Inv, Reachable, Leads, NoncesGrow, IdsAppend, PendingNotReentered;
    LeadsKeeps(s, t);
    assert Kept(s, t, o);
    TerminalStatusIsTruth(s, o);
    TerminalStatusIsTruth(t, o);
    assert MinedBy(s.mined, s.otx[o].account) <= MinedBy(t.mined, s.otx[o].account);
  }

  /** SUCCESS is not absorbing: a slow dispatch job overwrites it.  A receipt check of the stored hash heals it. */
  lemma SuccessCanBeOverwrittenAndHealed(s: State, o: nat, job: Job, slow: State)
    requires Reachable(s) && o in s.otx && StatusesOf(s, o) == [SUCCESS] && HashMined(s, s.otx[o].hash)
    requires JobsOf(s, o) == [job] && job.raw in s.sent
    requires slow == Run(s, [WriteDispatch(o, 0, IN_NETWORK)])
    ensures StatusesOf(slow, o) == [IN_NETWORK]
    ensures StatusesOf(Run(slow, [WriteReceipt(s.otx[o])]), o) == [SUCCESS]
  {
    ReachableInv(s);
    CurrentVersionFact(s, o);
    TerminalStatusIsTruth(s, o);
    assert s.otx[o].hash.tx.intent.sender == s.otx[o].account && s.otx[o].hash.tx.intent.nonce == s.otx[o].nonce;
    hide Inv, Reachable, VersionOk, Run;
    RunOne(s, WriteDispatch(o, 0, IN_NETWORK));
    RunOne(slow, WriteReceipt(s.otx[o]));
    OverwriteThenHeal(s, o);
  }

  lemma OverwriteThenHeal(s: State, o: nat)
    requires o in s.otx && s.otx[o].id == o && s.otx[o] in s.versions && HashMined(s, s.otx[o].hash)
    requires o in s.dispatch && |s.dispatch[o]| == 1 && o in s.jobs && |s.jobs[o]| == 1 && s.jobs[o][0].raw in s.sent
    requires ReceiptStatus(MinedBy(s.mined, s.otx[o].hash.tx.intent.sender)[s.otx[o].hash.tx.intent.nonce]) == SUCCESS
    ensures var slow := Next(s, WriteDispatch(o, 0, IN_NETWORK));
            StatusesOf(slow, o) == [IN_NETWORK] && StatusesOf(Next(slow, WriteReceipt(s.otx[o])), o) == [SUCCESS]
  {
    var slow := Next(s, WriteDispatch(o, 0, IN_NETWORK));
    assert Enabled(s, WriteDispatch(o, 0, IN_NETWORK)) by { hide MinedBy, ReceiptStatus, HashMined; }
    assert slow == s.(dispatch := SetStatus(s.dispatch, o, IN_NETWORK), jobs := slow.jobs) by {
      hide MinedBy, ReceiptStatus, HashMined, SetStatus, SetJob, Enabled;
    }
    hide Enabled, Apply, MinedBy, ReceiptStatus, HashMined;
    HealStep(slow, o, s.otx[o]);
  }

  lemma HealStep(s: State, o: nat, v: OtxRow)
    requires v in s.versions && v.id == o && HashMined(s, v.hash) && o in s.dispatch && |s.dispatch[o]| == 1
    ensures StatusesOf(Next(s, WriteReceipt(v)), o) ==
              [ReceiptStatus(MinedBy(s.mined, v.hash.tx.intent.sender)[v.hash.tx.intent.nonce])]
  {
  }

  lemma RunOne(s: State, step: Step)
    ensures Run(s, [step]) == Next(s, step)
  {
    assert [step][..0] == [];
    assert Run(s, []) == s;
  }

  /** Every status in the table is one the foreign key allows; the worker's initial value is not among them. */
  lemma StatusesAreAllowed(s: State)
    requires Reachable(s)
    ensures forall o, i :: o in s.dispatch && 0 <= i < |s.dispatch[o]| ==> s.dispatch[o][i] in STATUS_TABLE
    ensures UNKNOWN_ERROR !in STATUS_TABLE
  {
    ReachableInv(s);
    hide GapFree, LiveOk, SentOk, ChainOk, StatusOk, JobsOk, NewKeysUnused, VersionOk;
  }

  // ----- nonces

  /** The committed nonces of a key are exactly 0..next_nonce - 1, each once, and within an account
      a larger id means a larger nonce, although ids come from one sequence shared by all. */
  lemma NoncesAreGapFree(s: State, a: Address)
    requires Reachable(s) && a in s.next
    ensures forall n: int :: n in NoncesOf(s.otx, a) <==> 0 <= n < s.next[a]
    ensures forall o, p :: o in s.otx && p in s.otx && s.otx[o].account == s.otx[p].account ==>
              (o < p <==> s.otx[o].nonce < s.otx[p].nonce)
  {
    ReachableInv(s);
    hide LiveOk, RowsOk, SentOk, ChainOk, StatusOk, JobsOk, NewKeysUnused, Inv, Reachable;
    GapFreeOf(s);
    forall n: int | 0 <= n < s.next[a] ensures n in NoncesOf(s.otx, a) {
      assert Filled(s.otx, a, n);
      var o :| o in s.otx && At(s.otx[o], a, n);
    }
    hide Filled;
  }

  function NoncesOf(otx: map<nat, OtxRow>, a: Address): set<int> {
    set o | o in otx && otx[o].account == a :: otx[o].nonce
  }

  lemma GapFreeOf(s: State)
    requires Inv(s)
    ensures GapFree(s.next, s.otx)
  {
    hide GapFree, LiveOk, RowsOk, SentOk, ChainOk, StatusOk, JobsOk, NewKeysUnused;
  }

  /** A job's k nonces are consecutive however many jobs race for the key, and nothing else is in their range. */
  lemma JobNoncesAreConsecutive(s: State, t: nat)
    requires Reachable(s) && Enabled(s, Commit(t))
    ensures var rows, s' := s.live[t].rows, Apply(s, Commit(t));
            && s.live[t].signer.Some?
            && (forall i :: 0 <= i < |rows| ==> At(rows[i], s.live[t].signer.value, rows[0].nonce + i))
            && (forall i :: 0 <= i < |rows| ==> rows[i].id in s'.otx && s'.otx[rows[i].id] == rows[i])
            && (forall i, o :: 0 <= i < |rows| && o in s'.otx && At(s'.otx[o], rows[i].account, rows[i].nonce) ==>
                  o == rows[i].id)
            && (forall i :: 0 <= i < |rows| ==>
                  StatusesOf(s', rows[i].id) == [PENDING]
                    && JobsOf(s', rows[i].id) == [Job(rows[i].raw, Available, false)])
  {
    ReachableInv(s);
    CommitIs(s, t);
    hide Inv, Enabled, Apply, Reachable, CommitTx;
    CommittedRows(s, t);
    var lt, s' := s.live[t], CommitTx(s, t);
    CommitKeeps(s, t);
    forall i, o | 0 <= i < |lt.rows| && o in s'.otx && At(s'.otx[o], lt.rows[i].account, lt.rows[i].nonce)
      ensures o == lt.rows[i].id {
      OneRowPerNonce(s', o, lt.rows[i].id);
    }
  }

  lemma CommittedRows(s: State, t: nat)
    requires Inv(s) && t in s.live && s.live[t].phase == Queued
    ensures var lt, s' := s.live[t], CommitTx(s, t);
            && lt.signer.Some? && lt.rows != []
            && (forall i :: 0 <= i < |lt.rows| ==> At(lt.rows[i], lt.signer.value, lt.rows[0].nonce + i))
            && (forall i :: 0 <= i < |lt.rows| ==> lt.rows[i].id in s'.otx && s'.otx[lt.rows[i].id] == lt.rows[i])
            && (forall i :: 0 <= i < |lt.rows| ==>
                  StatusesOf(s', lt.rows[i].id) == [PENDING]
                    && JobsOf(s', lt.rows[i].id) == [Job(lt.rows[i].raw, Available, false)])
  {
    hide Inv, LiveTxOk, Table, Filled, After, HasId, LiveTables, RowSigned;
    var lt, s' := s.live[t], CommitTx(s, t);
    CommitFacts(s, t);
    BatchFromLive(s.next, s.idSeq, s.otx, lt);
    RowsInOrder(s.next, s.idSeq, s.otx, lt);
    CommitShape(s, t);
    BatchTables(lt.signer.value, s.next[lt.signer.value], |lt.rows|, Table(lt.rows), lt.dispatch, lt.jobs);
    hide Batch, CommitTx;
    assert lt.rows[0].nonce == s.next[lt.signer.value];
  }

  lemma BatchTables(a: Address, base: nat, n: nat, otx: map<nat, OtxRow>, dispatch: map<nat, seq<Status>>,
                    jobs: map<nat, seq<Job>>)
    requires Batch(a, base, n, otx, dispatch, jobs)
    ensures otx.Keys == dispatch.Keys == jobs.Keys
    ensures forall o :: o in otx ==> dispatch[o] == [PENDING] && jobs[o] == [Job(otx[o].raw, Available, false)]
  {
  }

  lemma CommitIs(s: State, t: nat)
    requires Enabled(s, Commit(t))
    ensures t in s.live && s.live[t].phase == Queued && Apply(s, Commit(t)) == CommitTx(s, t)
  {
    hide CommitTx;
  }

  lemma RowsInOrder(next: map<Address, nat>, idSeq: nat, otx: map<nat, OtxRow>, lt: LiveTx)
    requires LiveTxOk(next, idSeq, otx, lt) && lt.phase == Queued
    ensures lt.signer.Some? && lt.signer.value in next && lt.rows != []
    ensures forall i :: 0 <= i < |lt.rows| ==>
              && At(lt.rows[i], lt.signer.value, next[lt.signer.value] + i)
              && lt.rows[i].id in Table(lt.rows) && Table(lt.rows)[lt.rows[i].id] == lt.rows[i]
  {
    hide LiveTables;
    forall i | 0 <= i < |lt.rows|
      ensures lt.rows[i].id in Table(lt.rows) && Table(lt.rows)[lt.rows[i].id] == lt.rows[i] {
      TableHas(lt.rows, i);
    }
  }

  // ----- outbox and lookups

  /** Every committed otx has exactly one dispatch row and one dispatch job with an original version of
      its transaction; while the row is PENDING no run of the job has written, completed or cancelled. */
  lemma Outbox(s: State, o: nat) returns (job: Job)
    requires Reachable(s) && o in s.otx
    ensures |StatusesOf(s, o)| == 1 && JobsOf(s, o) == [job] && job.raw.intent == s.otx[o].raw.intent
    ensures StatusesOf(s, o) == [PENDING] ==> !job.wrote && job.state != Completed && job.state != Cancelled
  {
    ReachableInv(s);
    CurrentVersionFact(s, o);
    job := s.jobs[o][0];
    hide GapFree, LiveOk, RowsOk, SentOk, ChainOk, StatusOk, NewKeysUnused;
    assert s.dispatch[o] == [PENDING] ==> PENDING in s.dispatch[o];
  }

  /** Later states keep the job's raw transaction, and PENDING is never entered again. */
  lemma OutboxIsStable(s: State, t: State, o: nat, job: Job)
    requires Reachable(s) && Leads(s, t) && o in s.otx && JobsOf(s, o) == [job]
    ensures o in t.otx && At(t.otx[o], s.otx[o].account, s.otx[o].nonce)
    ensures |JobsOf(t, o)| == 1 && JobsOf(t, o)[0].raw == job.raw
    ensures StatusesOf(s, o) != [PENDING] ==> StatusesOf(t, o) != [PENDING]
  {
    hide Inv, Reachable, Leads, NoncesGrow, IdsAppend, ChainGrows;
    var j := Outbox(s, o);
    LeadsKeeps(s, t);
    assert Kept(s, t, o);
    if StatusesOf(t, o) == [PENDING] {
      assert PENDING in t.dispatch[o];
      assert s.dispatch[o] == [s.dispatch[o][0]];
    }
  }

  /** A transaction hash, current or past, leads to one otx: event lookups are single-valued. */
  lemma HashIdentifiesOneOtx(s: State, v: OtxRow, w: OtxRow)
    requires Reachable(s) && v in s.versions && w in s.versions && v.hash == w.hash
    ensures v.id == w.id
  {
    ReachableInv(s);
    hide Inv, Reachable;
    VersionFact(s, v);
    VersionFact(s, w);
    OneRowPerNonce(s, v.id, w.id);
  }
}
