/** Every step keeps the invariant. */
module Preservation {
  import opened Types
  import opened Fees
  import opened Lifecycle
  import opened Invariant

  /** Replacing one open transaction keeps LiveOk when the new one is fine and stays apart from the rest. */
  lemma PutLive(s: State, t: nat, lt: LiveTx, idSeq: nat)
    requires LiveOk(s.next, s.idSeq, s.otx, s.live) && idSeq >= s.idSeq
    requires LiveTxOk(s.next, idSeq, s.otx, lt)
    requires forall u :: u in s.live && u != t ==> Separate(lt, s.live[u]) && Separate(s.live[u], lt)
    requires forall k :: k in lt.newKeys ==> k !in s.next
    ensures LiveOk(s.next, idSeq, s.otx, s.live[t := lt])
  {
    hide Separate, LiveTables;
    forall u | u in s.live && u != t ensures LiveTxOk(s.next, idSeq, s.otx, s.live[u]) {
      assert LiveTxOk(s.next, s.idSeq, s.otx, s.live[u]);
    }
  }

  /** The steps of an open transaction touch nothing committed. */
  lemma LiveStep(s: State, t: nat, lt: LiveTx, idSeq: nat)
    requires Inv(s) && idSeq >= s.idSeq
    requires LiveTxOk(s.next, idSeq, s.otx, lt)
    requires forall u :: u in s.live && u != t ==> Separate(lt, s.live[u]) && Separate(s.live[u], lt)
    requires forall k :: k in lt.newKeys ==> k !in s.next && MinedBy(s.mined, k) == []
    ensures Inv(s.(live := s.live[t := lt], idSeq := idSeq))
  {
    hide GapFree, RowsOk, SentOk, ChainOk, StatusOk, JobsOk, LiveTxOk, Separate, LiveOk;
    PutLive(s, t, lt, idSeq);
  }

  /** What an open transaction already satisfies. */
  lemma LiveFacts(s: State, t: nat)
    requires Inv(s) && t in s.live
    ensures LiveTxOk(s.next, s.idSeq, s.otx, s.live[t])
    ensures forall u :: u in s.live && u != t ==> Separate(s.live[t], s.live[u]) && Separate(s.live[u], s.live[t])
    ensures forall k :: k in s.live[t].newKeys ==> k !in s.next && MinedBy(s.mined, k) == []
    ensures forall u, i :: u in s.live && 0 <= i < |s.live[u].rows| ==> s.live[u].rows[i].id < s.idSeq
    ensures forall o :: o in s.otx ==> o < s.idSeq
  {
    hide GapFree, RowsOk, SentOk, ChainOk, StatusOk, JobsOk, Separate, LiveTables;
    forall u, i | u in s.live && 0 <= i < |s.live[u].rows| ensures s.live[u].rows[i].id < s.idSeq {
      assert LiveTxOk(s.next, s.idSeq, s.otx, s.live[u]);
    }
  }

  lemma BeginKeeps(s: State, t: nat)
    requires Inv(s) && Enabled(s, Begin(t))
    ensures Inv(Apply(s, Begin(t)))
  {
    hide GapFree, RowsOk, SentOk, ChainOk, StatusOk, JobsOk, NewKeysUnused, LiveOk, Inv;
    LiveStep(s, t, LiveTx(Idle, None, 0, [], map[], map[], {}), s.idSeq);
  }

  lemma InsertKeypairKeeps(s: State, t: nat, key: Address)
    requires Inv(s) && Enabled(s, InsertKeypair(t, key))
    ensures Inv(Apply(s, InsertKeypair(t, key)))
  {
    hide GapFree, RowsOk, SentOk, ChainOk, StatusOk, JobsOk, NewKeysUnused, LiveOk, Inv, LiveTxOk;
    LiveFacts(s, t);
    NewKeyTxOk(s.next, s.idSeq, s.otx, s.live[t], s.live[t].newKeys + {key});
    LiveStep(s, t, s.live[t].(newKeys := s.live[t].newKeys + {key}), s.idSeq);
  }

  lemma NewKeyTxOk(next: map<Address, nat>, idSeq: nat, otx: map<nat, OtxRow>, lt: LiveTx, keys: set<Address>)
    requires LiveTxOk(next, idSeq, otx, lt)
    ensures LiveTxOk(next, idSeq, otx, lt.(newKeys := keys))
  {
    hide RowSigned;
  }

  lemma AcquireKeeps(s: State, t: nat, a: Address)
    requires Inv(s) && Enabled(s, Acquire(t, a))
    ensures Inv(Apply(s, Acquire(t, a)))
  {
    hide GapFree, RowsOk, SentOk, ChainOk, StatusOk, JobsOk, NewKeysUnused, LiveOk, Inv;
    LiveFacts(s, t);
    var lt := s.live[t];
    LiveStep(s, t, lt.(phase := HaveNonce, signer := Some(a), acquired := lt.acquired + 1), s.idSeq);
  }

  lemma InsertOtxKeeps(s: State, t: nat, step: Step)
    requires Inv(s) && step.InsertOtx? && step.t == t && Enabled(s, step)
    ensures Inv(Apply(s, step))
  {
    hide GapFree, RowsOk, SentOk, ChainOk, StatusOk, JobsOk, NewKeysUnused, LiveOk, Inv, LiveTables;
    LiveFacts(s, t);
    var lt := s.live[t];
    var row := NewRow(s, lt, step.kind, step.to, step.value, step.call, step.gas, step.feeCap, step.tipCap);
    var lt' := lt.(phase := HaveRow, rows := lt.rows + [row]);
    assert LiveTables(lt') by { LiveTablesInsert(lt, row); }
    LiveStep(s, t, lt', s.idSeq + 1);
  }

  lemma LiveTablesInsert(lt: LiveTx, row: OtxRow)
    requires LiveTables(lt) && lt.phase == HaveNonce
    ensures LiveTables(lt.(phase := HaveRow, rows := lt.rows + [row]))
  {
    assert (lt.rows + [row])[..|lt.rows|] == lt.rows;
  }

  lemma InsertDispatchKeeps(s: State, t: nat)
    requires Inv(s) && Enabled(s, InsertDispatch(t))
    ensures Inv(Apply(s, InsertDispatch(t)))
  {
    hide GapFree, RowsOk, SentOk, ChainOk, StatusOk, JobsOk, NewKeysUnused, LiveOk, Inv, LiveTables;
    LiveFacts(s, t);
    var lt := s.live[t];
    var row := lt.rows[|lt.rows| - 1];
    var lt' := lt.(phase := Idle, dispatch := Insert(lt.dispatch, row.id, PENDING));
    assert LiveTables(lt') by { LiveTablesDispatch(lt); }
    LiveStep(s, t, lt', s.idSeq);
  }

  lemma LiveTablesDispatch(lt: LiveTx)
    requires LiveTables(lt) && lt.phase == HaveRow
    requires forall i, j :: 0 <= i < j < |lt.rows| ==> lt.rows[i].id < lt.rows[j].id
    ensures LiveTables(lt.(phase := Idle, dispatch := Insert(lt.dispatch, lt.rows[|lt.rows| - 1].id, PENDING)))
  {
    var last := |lt.rows| - 1;
    TableBelow(lt.rows[..last], lt.rows[last].id);
  }

  lemma EnqueueKeeps(s: State, t: nat)
    requires Inv(s) && Enabled(s, Enqueue(t))
    ensures Inv(Apply(s, Enqueue(t)))
  {
    hide GapFree, RowsOk, SentOk, ChainOk, StatusOk, JobsOk, NewKeysUnused, LiveOk, Inv, LiveTables;
    LiveFacts(s, t);
    var lt := s.live[t];
    var lt' := lt.(phase := Queued, jobs := EnqueueAll(lt.jobs, lt.rows));
    assert LiveTables(lt') by { LiveTablesEnqueue(lt); }
    LiveStep(s, t, lt', s.idSeq);
  }

  lemma LiveTablesEnqueue(lt: LiveTx)
    requires LiveTables(lt) && lt.phase == Idle
    requires forall i, j :: 0 <= i < j < |lt.rows| ==> lt.rows[i].id < lt.rows[j].id
    ensures LiveTables(lt.(phase := Queued, jobs := EnqueueAll(lt.jobs, lt.rows)))
  {
    EnqueueAllIsOnePerRow(lt.rows);
    hide Table, EnqueueAll, OneJobPerRow;
  }

  lemma {:induction false} EnqueueAllIsOnePerRow(rows: seq<OtxRow>)
    requires forall i, j :: 0 <= i < j < |rows| ==> rows[i].id < rows[j].id
    ensures OneJobPerRow(Table(rows), EnqueueAll(map[], rows))
    decreases |rows|
  {
    if rows != [] {
      var last := |rows| - 1;
      EnqueueAllIsOnePerRow(rows[..last]);
      TableBelow(rows[..last], rows[last].id);
    }
  }

  /** Looking up an id in the table of rows finds the row at some position. */
  lemma {:induction false} TableIndex(rows: seq<OtxRow>, o: nat) returns (i: nat)
    requires o in Table(rows)
    ensures i < |rows| && rows[i].id == o && Table(rows)[o] == rows[i]
    decreases |rows|
  {
    var last := |rows| - 1;
    if rows[last].id == o {
      i := last;
    } else {
      i := TableIndex(rows[..last], o);
    }
  }

  lemma {:induction false} TableBelow(rows: seq<OtxRow>, bound: nat)
    requires forall i :: 0 <= i < |rows| ==> rows[i].id < bound
    ensures forall o :: o in Table(rows) ==> o < bound
    decreases |rows|
  {
    if rows != [] {
      TableBelow(rows[..|rows| - 1], bound);
    }
  }

  lemma {:induction false} TableHas(rows: seq<OtxRow>, i: nat)
    requires i < |rows|
    requires forall i, j :: 0 <= i < j < |rows| ==> rows[i].id < rows[j].id
    ensures rows[i].id in Table(rows) && Table(rows)[rows[i].id] == rows[i]
    decreases |rows|
  {
    if i < |rows| - 1 {
      TableHas(rows[..|rows| - 1], i);
      assert rows[..|rows| - 1][i] == rows[i];
    }
  }

  /** What a commit adds: consecutive nonces of one signer, in id order, each with its PENDING
      dispatch row and its job. */
  ghost predicate Batch(a: Address, base: nat, n: nat, otx: map<nat, OtxRow>,
                        dispatch: map<nat, seq<Status>>, jobs: map<nat, seq<Job>>) {
    && otx.Keys == dispatch.Keys == jobs.Keys
    && (forall o :: o in otx ==>
          otx[o].id == o && base <= otx[o].nonce < base + n && RowSigned(otx[o], a, otx[o].nonce))
    && (forall o :: o in otx ==> dispatch[o] == [PENDING] && jobs[o] == [Job(otx[o].raw, Available, false)])
    && (forall k: nat :: base <= k < base + n ==> Filled(otx, a, k))
    && (forall o, p :: o in otx && p in otx && o < p ==> otx[o].nonce < otx[p].nonce)
  }

  ghost predicate HasId(rows: seq<OtxRow>, o: nat) {
    exists i :: 0 <= i < |rows| && rows[i].id == o
  }

  /** The new ids are new, and above every known id of their signer. */
  ghost predicate After(batch: map<nat, OtxRow>, a: Address, otx: map<nat, OtxRow>) {
    forall o, p :: o in otx && p in batch ==> o != p && (otx[o].account == a ==> o < p)
  }

  /** The row behind an id of the batch, and all that is known of it. */
  lemma BatchRow(next: map<Address, nat>, idSeq: nat, otx: map<nat, OtxRow>, lt: LiveTx, o: nat) returns (i: nat)
    requires LiveTxOk(next, idSeq, otx, lt) && o in Table(lt.rows)
    ensures i < |lt.rows| && lt.rows[i].id == o && Table(lt.rows)[o] == lt.rows[i] && lt.signer.Some?
            && lt.signer.value in next
    ensures RowSigned(lt.rows[i], lt.signer.value, next[lt.signer.value] + i) && o < idSeq
    ensures forall k :: k in otx ==> k != o && (otx[k].account == lt.signer.value ==> k < o)
  {
    i := TableIndex(lt.rows, o);
    hide RowSigned, Table, LiveTables;
  }

  lemma BatchFill(next: map<Address, nat>, idSeq: nat, otx: map<nat, OtxRow>, lt: LiveTx, k: nat)
    requires LiveTxOk(next, idSeq, otx, lt) && lt.signer.Some? && lt.signer.value in next
    requires next[lt.signer.value] <= k < next[lt.signer.value] + |lt.rows|
    ensures Filled(Table(lt.rows), lt.signer.value, k)
  {
    var i := k - next[lt.signer.value];
    TableHas(lt.rows, i) by { hide Table, LiveTables, RowSigned; }
    hide Table, LiveTables;
    assert RowSigned(lt.rows[i], lt.signer.value, k);
    assert At(Table(lt.rows)[lt.rows[i].id], lt.signer.value, k);
  }

  lemma BatchOrder(next: map<Address, nat>, idSeq: nat, otx: map<nat, OtxRow>, lt: LiveTx, o: nat, p: nat)
    requires LiveTxOk(next, idSeq, otx, lt) && o in Table(lt.rows) && p in Table(lt.rows) && o < p
    ensures Table(lt.rows)[o].nonce < Table(lt.rows)[p].nonce
  {
    var i := BatchRow(next, idSeq, otx, lt, o);
    var j := BatchRow(next, idSeq, otx, lt, p);
    hide Table, LiveTables;
    assert i < j by { hide RowSigned; }
    hide LiveTxOk;
  }

  lemma LiveBasics(next: map<Address, nat>, idSeq: nat, otx: map<nat, OtxRow>, lt: LiveTx)
    requires LiveTxOk(next, idSeq, otx, lt) && lt.phase == Queued
    ensures lt.signer.Some? && lt.signer.value in next && lt.acquired == |lt.rows| && LiveTables(lt)
  {
    hide LiveTables, RowSigned;
  }

  lemma BatchRows(next: map<Address, nat>, idSeq: nat, otx: map<nat, OtxRow>, lt: LiveTx)
    requires LiveTxOk(next, idSeq, otx, lt) && lt.signer.Some? && lt.signer.value in next
    ensures var a, base, batch := lt.signer.value, next[lt.signer.value], Table(lt.rows);
            forall o :: o in batch ==>
              && batch[o].id == o && base <= batch[o].nonce < base + |lt.rows| && RowSigned(batch[o], a, batch[o].nonce)
              && o < idSeq && HasId(lt.rows, o)
    ensures After(Table(lt.rows), lt.signer.value, otx)
  {
    hide LiveTxOk, Table;
    var a, base, batch := lt.signer.value, next[lt.signer.value], Table(lt.rows);
    forall o | o in batch
      ensures batch[o].id == o && base <= batch[o].nonce < base + |lt.rows| && RowSigned(batch[o], a, batch[o].nonce)
              && o < idSeq
      ensures forall k :: k in otx ==> k != o && (otx[k].account == a ==> k < o)
      ensures HasId(lt.rows, o)
    {
      var i := BatchRow(next, idSeq, otx, lt, o);
    }
  }

  lemma BatchFromLive(next: map<Address, nat>, idSeq: nat, otx: map<nat, OtxRow>, lt: LiveTx)
    requires LiveTxOk(next, idSeq, otx, lt) && lt.phase == Queued
    ensures lt.signer.Some? && lt.signer.value in next && lt.acquired == |lt.rows|
    ensures Batch(lt.signer.value, next[lt.signer.value], |lt.rows|, Table(lt.rows), lt.dispatch, lt.jobs)
    ensures After(Table(lt.rows), lt.signer.value, otx)
    ensures forall o :: o in Table(lt.rows) ==> o < idSeq && HasId(lt.rows, o)
  {
    hide LiveTxOk, Table, RowSigned, After, HasId, Filled;
    LiveBasics(next, idSeq, otx, lt);
    BatchRows(next, idSeq, otx, lt);
    var a, base, batch := lt.signer.value, next[lt.signer.value], Table(lt.rows);
    forall k: nat | base <= k < base + |lt.rows| ensures Filled(batch, a, k) {
      BatchFill(next, idSeq, otx, lt, k);
    }
    forall o, p | o in batch && p in batch && o < p ensures batch[o].nonce < batch[p].nonce {
      BatchOrder(next, idSeq, otx, lt, o, p);
    }
  }

  lemma CommitGapFree(next: map<Address, nat>, otx: map<nat, OtxRow>, a: Address, n: nat, newKeys: set<Address>,
                      batch: map<nat, OtxRow>, dispatch: map<nat, seq<Status>>, jobs: map<nat, seq<Job>>)
    requires GapFree(next, otx) && a in next && Batch(a, next[a], n, batch, dispatch, jobs) && After(batch, a, otx)
    requires newKeys !! next.Keys
    ensures GapFree(next[a := next[a] + n] + StartingNonces(newKeys), otx + batch)
  {
    hide Filled, Batch, After, StartingNonces;
    var next', otx' := next[a := next[a] + n] + StartingNonces(newKeys), otx + batch;
    NextAfter(next, a, n, newKeys);
    CommitInOrder(next, otx, a, n, batch, dispatch, jobs);
    forall b, k: nat | b in next' && k < next'[b] ensures Filled(otx', b, k) {
      hide GapFree;
      CommitFills(next, otx, a, n, batch, dispatch, jobs, b, k);
    }
  }

  lemma NextAfter(next: map<Address, nat>, a: Address, n: nat, newKeys: set<Address>)
    requires a in next && newKeys !! next.Keys
    ensures var next' := next[a := next[a] + n] + StartingNonces(newKeys);
            && (forall b :: b in next' <==> b in next || b in newKeys)
            && (forall b :: b in next ==> next'[b] == next[b] + if b == a then n else 0)
            && (forall b :: b in newKeys ==> next'[b] == 0)
  {
  }

  lemma CommitFills(next: map<Address, nat>, otx: map<nat, OtxRow>, a: Address, n: nat,
                    batch: map<nat, OtxRow>, dispatch: map<nat, seq<Status>>, jobs: map<nat, seq<Job>>, b: Address,
                      k: nat)
    requires GapFree(next, otx) && a in next && Batch(a, next[a], n, batch, dispatch, jobs) && After(batch, a, otx)
    requires b in next && k < next[b] + (if b == a then n else 0)
    ensures Filled(otx + batch, b, k)
  {
    var otx' := otx + batch;
    if b == a && k >= next[a] {
      assert Filled(batch, a, k);
      var o :| o in batch && At(batch[o], a, k);
      assert o in otx' && At(otx'[o], b, k);
    } else {
      assert Filled(otx, b, k);
      var o :| o in otx && At(otx[o], b, k);
      assert o in otx' && At(otx'[o], b, k);
    }
  }

  lemma CommitInOrder(next: map<Address, nat>, otx: map<nat, OtxRow>, a: Address, n: nat,
                      batch: map<nat, OtxRow>, dispatch: map<nat, seq<Status>>, jobs: map<nat, seq<Job>>)
    requires GapFree(next, otx) && a in next && Batch(a, next[a], n, batch, dispatch, jobs) && After(batch, a, otx)
    ensures var all := otx + batch;
            && (forall o :: o in all ==>
                  && all[o].account in next
                  && all[o].nonce < next[all[o].account] + (if all[o].account == a then n else 0))
            && (forall o, p :: o in all && p in all && o < p && all[o].account == all[p].account ==>
                  all[o].nonce < all[p].nonce)
  {
    hide Filled;
  }

  /** Another open transaction does not notice the commit: it holds a different row lock. */
  lemma CommitOtherLive(next: map<Address, nat>, idSeq: nat, otx: map<nat, OtxRow>, lt: LiveTx, other: LiveTx,
                        batch: map<nat, OtxRow>, n: nat, newKeys: set<Address>)
    requires LiveTxOk(next, idSeq, otx, other) && Separate(lt, other)
    requires lt.signer.Some? && lt.signer.value in next && newKeys !! next.Keys
    requires forall o :: o in batch ==> batch[o].account == lt.signer.value
    requires forall o :: o in batch ==> HasId(lt.rows, o)
    ensures LiveTxOk(next[lt.signer.value := next[lt.signer.value] + n] + StartingNonces(newKeys), idSeq, otx + batch,
                     other)
  {
    hide LiveTables, RowSigned;
    var otx' := otx + batch;
    forall o, i | o in otx' && 0 <= i < |other.rows|
      ensures o != other.rows[i].id && (otx'[o].account == other.signer.value ==> o < other.rows[i].id) {
      if o in batch {
        var k :| 0 <= k < |lt.rows| && lt.rows[k].id == o;
      }
    }
  }

  lemma CommitLiveOk(next: map<Address, nat>, idSeq: nat, otx: map<nat, OtxRow>, live: map<nat, LiveTx>, t: nat,
                     batch: map<nat, OtxRow>, n: nat)
    requires LiveOk(next, idSeq, otx, live) && t in live
    requires live[t].signer.Some? && live[t].signer.value in next
    requires forall o :: o in batch ==> batch[o].account == live[t].signer.value && o < idSeq
    requires forall o :: o in batch ==> HasId(live[t].rows, o)
    ensures LiveOk(next[live[t].signer.value := next[live[t].signer.value] + n] + StartingNonces(live[t].newKeys),
                   idSeq, otx + batch, live - {t})
  {
    hide LiveTxOk;
    var lt, live' := live[t], live - {t};
    var next' := next[lt.signer.value := next[lt.signer.value] + n] + StartingNonces(lt.newKeys);
    forall u | u in live' ensures LiveTxOk(next', idSeq, otx + batch, live'[u]) {
      hide Separate;
      CommitOtherLive(next, idSeq, otx, lt, live[u], batch, n, lt.newKeys);
    }
    forall u, k | u in live' && k in live'[u].newKeys ensures k !in next' {
      assert Separate(lt, live[u]);
    }
    hide Separate;
  }

  lemma CommitVersions(otx: map<nat, OtxRow>, jobs: map<nat, seq<Job>>, versions: set<OtxRow>,
                       a: Address, otx1: map<nat, OtxRow>, jobs1: map<nat, seq<Job>>)
    requires otx.Keys == jobs.Keys && otx1.Keys == jobs1.Keys && otx.Keys !! otx1.Keys
    requires forall v :: v in versions ==> VersionOk(v, otx, jobs)
    requires forall o :: o in otx1 ==> otx1[o].id == o && RowSigned(otx1[o], a, otx1[o].nonce)
    requires forall o :: o in otx1 ==> jobs1[o] == [Job(otx1[o].raw, Available, false)]
    ensures forall v :: v in versions + otx1.Values ==> VersionOk(v, otx + otx1, jobs + jobs1)
  {
    var otx', jobs' := otx + otx1, jobs + jobs1;
    forall v | v in versions + otx1.Values ensures VersionOk(v, otx', jobs') {
      if v in versions {
        assert VersionOk(v, otx, jobs);
        assert otx'[v.id] == otx[v.id] && jobs'[v.id] == jobs[v.id];
      } else {
        var o :| o in otx1 && otx1[o] == v;
      }
    }
  }

  lemma CommitRowsOk(otx: map<nat, OtxRow>, dispatch: map<nat, seq<Status>>, jobs: map<nat, seq<Job>>,
                     versions: set<OtxRow>, a: Address, base: nat, n: nat,
                     otx1: map<nat, OtxRow>, dispatch1: map<nat, seq<Status>>, jobs1: map<nat, seq<Job>>)
    requires RowsOk(otx, dispatch, jobs, versions) && Batch(a, base, n, otx1, dispatch1, jobs1) && After(otx1, a, otx)
    ensures RowsOk(otx + otx1, dispatch + dispatch1, jobs + jobs1, versions + otx1.Values)
    ensures forall o :: o in jobs ==> o !in jobs1
  {
    hide Filled, RowSigned, VersionOk;
    assert otx.Keys !! otx1.Keys;
    CommitVersions(otx, jobs, versions, a, otx1, jobs1);
    assert (otx + otx1).Keys == (dispatch + dispatch1).Keys == (jobs + jobs1).Keys;
    assert forall o :: o in jobs ==> o in otx;
  }

  lemma CommitSentOk(sent: set<Tx>, jobs: map<nat, seq<Job>>, jobs1: map<nat, seq<Job>>)
    requires SentOk(sent, jobs) && forall o :: o in jobs ==> o !in jobs1
    ensures SentOk(sent, jobs + jobs1)
  {
    forall tx | tx in sent ensures exists o :: IsVersionOf(tx, o, jobs + jobs1) {
      var o :| IsVersionOf(tx, o, jobs);
      assert IsVersionOf(tx, o, jobs + jobs1);
    }
  }

  lemma CommitStatusJobs(otx: map<nat, OtxRow>, dispatch: map<nat, seq<Status>>, jobs: map<nat, seq<Job>>,
                         mined: map<Address, seq<Mined>>, a: Address, base: nat, n: nat,
                         otx1: map<nat, OtxRow>, dispatch1: map<nat, seq<Status>>, jobs1: map<nat, seq<Job>>)
    requires otx.Keys == dispatch.Keys == jobs.Keys && StatusOk(otx, dispatch, mined) && JobsOk(jobs, dispatch)
    requires Batch(a, base, n, otx1, dispatch1, jobs1) && After(otx1, a, otx)
    ensures StatusOk(otx + otx1, dispatch + dispatch1, mined)
    ensures JobsOk(jobs + jobs1, dispatch + dispatch1)
  {
    hide Filled, RowSigned;
    assert forall o :: o in otx ==> o !in otx1;
  }

  lemma CommitChainOk(s: State, t: nat)
    requires ChainOk(s.next, s.sent, s.mined, s.height) && NewKeysUnused(s.live, s.mined) && t in s.live
    requires s.live[t].signer.Some? && s.live[t].signer.value in s.next
    ensures var s' := CommitTx(s, t); ChainOk(s'.next, s'.sent, s'.mined, s'.height) && NewKeysUnused(s'.live, s'.mined)
  {
    hide Table;
    var lt, s' := s.live[t], CommitTx(s, t);
    forall b, k | b in s'.mined && 0 <= k < |s'.mined[b]| && b in s'.next ensures s'.mined[b][k].tx in s'.sent {
      assert b in lt.newKeys ==> MinedBy(s.mined, b) == [];
    }
  }

  lemma KeysAgree(otx: map<nat, OtxRow>, dispatch: map<nat, seq<Status>>, jobs: map<nat, seq<Job>>,
                  versions: set<OtxRow>)
    requires RowsOk(otx, dispatch, jobs, versions)
    ensures otx.Keys == dispatch.Keys == jobs.Keys
  {
    hide VersionOk;
  }

  lemma CommitFacts(s: State, t: nat)
    requires Inv(s) && t in s.live && s.live[t].phase == Queued
    ensures var lt := s.live[t];
            && LiveTxOk(s.next, s.idSeq, s.otx, lt) && lt.newKeys !! s.next.Keys
            && s.otx.Keys == s.dispatch.Keys == s.jobs.Keys
  {
    hide GapFree, RowsOk, SentOk, ChainOk, StatusOk, JobsOk, NewKeysUnused, LiveTxOk, Separate;
    KeysAgree(s.otx, s.dispatch, s.jobs, s.versions);
  }

  /** What a commit does to the committed tables besides noncestore. */
  lemma CommitShape(s: State, t: nat)
    requires t in s.live
    ensures var lt, s' := s.live[t], CommitTx(s, t);
            && s'.otx == s.otx + Table(lt.rows) && s'.dispatch == s.dispatch + lt.dispatch
               && s'.jobs == s.jobs + lt.jobs
            && s'.versions == s.versions + Table(lt.rows).Values && s'.sent == s.sent && s'.mined == s.mined
  {
  }

  lemma CommitKeepsGapFree(s: State, t: nat, a: Address)
    requires t in s.live && s.live[t].signer == Some(a) && a in s.next && s.live[t].newKeys !! s.next.Keys
    requires GapFree(s.next, s.otx) && After(Table(s.live[t].rows), a, s.otx)
    requires Batch(a, s.next[a], s.live[t].acquired, Table(s.live[t].rows), s.live[t].dispatch, s.live[t].jobs)
    ensures GapFree(CommitTx(s, t).next, CommitTx(s, t).otx)
  {
    hide Table, GapFree, After, Batch, StartingNonces;
    var lt := s.live[t];
    CommitGapFree(s.next, s.otx, a, lt.acquired, lt.newKeys, Table(lt.rows), lt.dispatch, lt.jobs);
  }

  lemma CommitKeepsLiveOk(s: State, t: nat, a: Address)
    requires t in s.live && s.live[t].signer == Some(a) && a in s.next
    requires LiveOk(s.next, s.idSeq, s.otx, s.live)
    requires forall o :: o in Table(s.live[t].rows) ==>
               Table(s.live[t].rows)[o].account == a && o < s.idSeq && HasId(s.live[t].rows, o)
    ensures LiveOk(CommitTx(s, t).next, CommitTx(s, t).idSeq, CommitTx(s, t).otx, CommitTx(s, t).live)
  {
    hide Table, LiveOk, StartingNonces, HasId;
    CommitLiveOk(s.next, s.idSeq, s.otx, s.live, t, Table(s.live[t].rows), s.live[t].acquired);
  }

  lemma CommitKeeps(s: State, t: nat)
    requires Inv(s) && t in s.live && s.live[t].phase == Queued
    ensures Inv(CommitTx(s, t))
  {
    CommitFacts(s, t);
    hide GapFree, LiveOk, RowsOk, SentOk, ChainOk, StatusOk, JobsOk, NewKeysUnused, LiveTxOk, Table, After, Batch,
      CommitTx, HasId;
    var lt := s.live[t];
    BatchFromLive(s.next, s.idSeq, s.otx, lt);
    var a, n, batch := lt.signer.value, lt.acquired, Table(lt.rows);
    BatchSigner(a, s.next[a], n, batch, lt.dispatch, lt.jobs);
    CommitKeepsGapFree(s, t, a);
    CommitKeepsLiveOk(s, t, a);
    CommitChainOk(s, t);
    CommitRowsOk(s.otx, s.dispatch, s.jobs, s.versions, a, s.next[a], n, batch, lt.dispatch, lt.jobs);
    CommitSentOk(s.sent, s.jobs, lt.jobs);
    CommitStatusJobs(s.otx, s.dispatch, s.jobs, s.mined, a, s.next[a], n, batch, lt.dispatch, lt.jobs);
    CommitShape(s, t);
  }

  lemma BatchSigner(a: Address, base: nat, n: nat, otx: map<nat, OtxRow>, dispatch: map<nat, seq<Status>>,
                    jobs: map<nat, seq<Job>>)
    requires Batch(a, base, n, otx, dispatch, jobs)
    ensures forall o :: o in otx ==> otx[o].account == a
  {
    hide Filled;
  }

  lemma RollbackKeeps(s: State, t: nat)
    requires Inv(s) && Enabled(s, Rollback(t))
    ensures Inv(Apply(s, Rollback(t)))
  {
    hide GapFree, RowsOk, SentOk, ChainOk, StatusOk, JobsOk, LiveTxOk, Separate;
  }

  /** Sending a version of a committed otx keeps everything. */
  lemma SendVersion(s: State, tx: Tx, o: nat)
    requires Inv(s) && IsVersionOf(tx, o, s.jobs)
    ensures Inv(s.(sent := s.sent + {tx}))
  {
    hide GapFree, LiveOk, RowsOk, StatusOk, JobsOk, NewKeysUnused, IsVersionOf;
  }

  lemma SendKeeps(s: State, step: Step)
    requires Inv(s) && Enabled(s, step)
    requires step.SendJob? || step.Resubmit? || step.SendResigned?
    ensures Inv(Apply(s, step))
  {
    hide Inv;
    if step.SendJob? {
      JobFact(s, step.id);
      SendVersion(s, s.jobs[step.id][step.j].raw, step.id);
    } else {
      VersionFact(s, step.row);
      SendVersion(s, if step.Resubmit? then step.row.raw else Resigned(step.row.raw, step.fee, step.tip), step.row.id);
    }
  }

  lemma JobFact(s: State, o: nat)
    requires Inv(s) && o in s.jobs
    ensures |s.jobs[o]| == 1 && o in s.otx && o in s.dispatch && |s.dispatch[o]| == 1
  {
    hide GapFree, LiveOk, SentOk, ChainOk, StatusOk, JobsOk, NewKeysUnused;
    KeysAgree(s.otx, s.dispatch, s.jobs, s.versions);
    assert VersionOk(s.otx[o], s.otx, s.jobs);
  }

  lemma VersionFact(s: State, v: OtxRow)
    requires Inv(s) && v in s.versions
    ensures VersionOk(v, s.otx, s.jobs) && s.otx[v.id].id == v.id && v.id in s.dispatch
  {
    hide LiveOk, SentOk, ChainOk, StatusOk, JobsOk, NewKeysUnused, VersionOk;
    assert VersionOk(v, s.otx, s.jobs);
    assert v.id in s.otx by { IdKnown(v, s.otx, s.jobs); }
  }

  lemma IdKnown(v: OtxRow, otx: map<nat, OtxRow>, jobs: map<nat, seq<Job>>)
    requires VersionOk(v, otx, jobs)
    ensures v.id in otx
  {
  }

  lemma SetStatusRows(otx: map<nat, OtxRow>, dispatch: map<nat, seq<Status>>, jobs: map<nat, seq<Job>>,
                      versions: set<OtxRow>, id: nat, status: Status)
    requires RowsOk(otx, dispatch, jobs, versions) && id in dispatch && status in STATUS_TABLE
    ensures RowsOk(otx, SetStatus(dispatch, id, status), jobs, versions)
  {
    hide VersionOk;
    assert SetStatus(dispatch, id, status).Keys == dispatch.Keys;
  }

  lemma SetStatusTruth(otx: map<nat, OtxRow>, dispatch: map<nat, seq<Status>>, mined: map<Address, seq<Mined>>, id: nat,
                       status: Status)
    requires StatusOk(otx, dispatch, mined) && id in dispatch && (id in otx ==> Truthful(otx[id], status, mined))
    ensures StatusOk(otx, SetStatus(dispatch, id, status), mined)
  {
    hide Truthful;
  }

  lemma SetStatusJobs(jobs: map<nat, seq<Job>>, dispatch: map<nat, seq<Status>>, id: nat, status: Status)
    requires JobsOk(jobs, dispatch) && id in dispatch && status != PENDING
    ensures JobsOk(jobs, SetStatus(dispatch, id, status))
  {
  }

  /** Setting one status is fine when it is allowed, not PENDING, and true. */
  lemma SetStatusKeeps(s: State, id: nat, status: Status)
    requires Inv(s) && id in s.otx && id in s.dispatch && status in STATUS_TABLE && status != PENDING
    requires Truthful(s.otx[id], status, s.mined)
    ensures Inv(s.(dispatch := SetStatus(s.dispatch, id, status)))
  {
    hide GapFree, LiveOk, RowsOk, SentOk, ChainOk, StatusOk, JobsOk, NewKeysUnused, Truthful;
    SetStatusRows(s.otx, s.dispatch, s.jobs, s.versions, id, status);
    SetStatusTruth(s.otx, s.dispatch, s.mined, id, status);
    SetStatusJobs(s.jobs, s.dispatch, id, status);
  }

  lemma SetJobRows(otx: map<nat, OtxRow>, dispatch: map<nat, seq<Status>>, jobs: map<nat, seq<Job>>,
                   versions: set<OtxRow>, id: nat, j: nat, job: Job)
    requires RowsOk(otx, dispatch, jobs, versions) && id in jobs && j < |jobs[id]| && job.raw == jobs[id][j].raw
    ensures RowsOk(otx, dispatch, SetJob(jobs, id, j, job), versions)
  {
    var jobs' := SetJob(jobs, id, j, job);
    assert jobs'.Keys == jobs.Keys;
    forall v | v in versions ensures VersionOk(v, otx, jobs') {
      assert VersionOk(v, otx, jobs);
    }
  }

  lemma SetJobSent(sent: set<Tx>, jobs: map<nat, seq<Job>>, id: nat, j: nat, job: Job)
    requires SentOk(sent, jobs) && id in jobs && j < |jobs[id]| && job.raw == jobs[id][j].raw
    ensures SentOk(sent, SetJob(jobs, id, j, job))
  {
    forall tx | tx in sent ensures exists o :: IsVersionOf(tx, o, SetJob(jobs, id, j, job)) {
      var o :| IsVersionOf(tx, o, jobs);
      assert IsVersionOf(tx, o, SetJob(jobs, id, j, job));
    }
  }

  /** Marking or finishing a job changes neither its raw transaction nor the number of jobs. */
  lemma SetJobKeeps(s: State, id: nat, j: nat, job: Job)
    requires Inv(s) && id in s.jobs && j < |s.jobs[id]| && job.raw == s.jobs[id][j].raw
    requires job.wrote ==> id in s.dispatch && PENDING !in s.dispatch[id]
    requires job.state in {Completed, Cancelled} ==> job.wrote
    ensures Inv(s.(jobs := SetJob(s.jobs, id, j, job)))
  {
    hide GapFree, LiveOk, RowsOk, SentOk, ChainOk, StatusOk, NewKeysUnused;
    SetJobRows(s.otx, s.dispatch, s.jobs, s.versions, id, j, job);
    SetJobSent(s.sent, s.jobs, id, j, job);
  }

  lemma WriteDispatchKeeps(s: State, id: nat, j: nat, status: Status)
    requires Inv(s) && id in s.jobs && j < |s.jobs[id]| && status in DISPATCH_STATUSES && id in s.dispatch
    ensures Inv(s.(dispatch := SetStatus(s.dispatch, id, status),
                   jobs := SetJob(s.jobs, id, j, s.jobs[id][j].(wrote := true))))
  {
    hide GapFree, LiveOk, RowsOk, SentOk, ChainOk, NewKeysUnused, StatusOk, JobsOk;
    KeysAgree(s.otx, s.dispatch, s.jobs, s.versions);
    hide Inv;
    SetStatusKeeps(s, id, status);
    var s1 := s.(dispatch := SetStatus(s.dispatch, id, status));
    SetJobKeeps(s1, id, j, s.jobs[id][j].(wrote := true));
  }

  lemma WriteStatusKeeps(s: State, step: Step)
    requires Inv(s) && Enabled(s, step) && (step.MarkInNetwork? || step.WriteReceipt?)
    ensures Inv(Apply(s, step))
  {
    hide GapFree, LiveOk, RowsOk, SentOk, ChainOk, NewKeysUnused, StatusOk, JobsOk, Inv;
    var v := step.row;
    VersionFact(s, v);
    if step.MarkInNetwork? {
      SetStatusKeeps(s, v.id, IN_NETWORK);
    } else {
      SetStatusKeeps(s, v.id, ReceiptStatus(MinedBy(s.mined, v.hash.tx.intent.sender)[v.hash.tx.intent.nonce]));
    }
  }

  lemma FinishJobKeeps(s: State, step: Step)
    requires Inv(s) && Enabled(s, step) && step.FinishJob?
    ensures Inv(Apply(s, step))
  {
    assert s.jobs[step.id][step.j].wrote ==> step.id in s.dispatch && PENDING !in s.dispatch[step.id] by {
      hide GapFree, LiveOk, RowsOk, SentOk, ChainOk, NewKeysUnused, StatusOk;
    }
    hide GapFree, LiveOk, RowsOk, SentOk, ChainOk, NewKeysUnused, StatusOk, JobsOk, Inv;
    SetJobKeeps(s, step.id, step.j, s.jobs[step.id][step.j].(state := step.outcome));
  }

  lemma PutRowGapFree(next: map<Address, nat>, otx: map<nat, OtxRow>, id: nat, row: OtxRow)
    requires GapFree(next, otx) && id in otx && At(row, otx[id].account, otx[id].nonce) && row.id == id
    ensures GapFree(next, otx[id := row])
  {
    var otx' := otx[id := row];
    forall a, n: nat | a in next && n < next[a] ensures Filled(otx', a, n) {
      assert Filled(otx, a, n);
      var o :| o in otx && At(otx[o], a, n);
      assert o in otx' && At(otx'[o], a, n);
    }
  }

  lemma PutRowLive(next: map<Address, nat>, idSeq: nat, otx: map<nat, OtxRow>, live: map<nat, LiveTx>, id: nat,
                   row: OtxRow)
    requires LiveOk(next, idSeq, otx, live) && id in otx && row.account == otx[id].account
    ensures LiveOk(next, idSeq, otx[id := row], live)
  {
    hide Separate, LiveTables;
    forall t | t in live ensures LiveTxOk(next, idSeq, otx[id := row], live[t]) {
      assert LiveTxOk(next, idSeq, otx, live[t]);
    }
  }

  lemma PutRowRows(otx: map<nat, OtxRow>, dispatch: map<nat, seq<Status>>, jobs: map<nat, seq<Job>>,
                   versions: set<OtxRow>, id: nat, row: OtxRow)
    requires RowsOk(otx, dispatch, jobs, versions) && id in otx && otx[id].id == id
    requires At(row, otx[id].account, otx[id].nonce) && row.id == id && row.kind == otx[id].kind
    requires row.raw.intent == otx[id].raw.intent == row.hash.tx.intent
    ensures RowsOk(otx[id := row], dispatch, jobs, versions + {row})
  {
    var otx' := otx[id := row];
    assert otx'.Keys == otx.Keys;
    assert VersionOk(otx[id], otx, jobs);
    forall v | v in versions + {row} ensures VersionOk(v, otx', jobs) {
      if v in versions {
        assert VersionOk(v, otx, jobs);
      }
    }
  }

  lemma PutRowTruth(otx: map<nat, OtxRow>, dispatch: map<nat, seq<Status>>, mined: map<Address, seq<Mined>>, id: nat,
                    row: OtxRow)
    requires StatusOk(otx, dispatch, mined) && id in otx && At(row, otx[id].account, otx[id].nonce)
    ensures StatusOk(otx[id := row], dispatch, mined)
  {
    var otx' := otx[id := row];
    forall o, i | o in otx' && o in dispatch && 0 <= i < |dispatch[o]|
      ensures Truthful(otx'[o], dispatch[o][i], mined) {
      assert Truthful(otx[o], dispatch[o][i], mined);
    }
  }

  /** Rewriting a row's raw transaction or hash keeps the invariant when the intent stays the same. */
  lemma PutRowKeeps(s: State, id: nat, row: OtxRow, status: Status)
    requires Inv(s) && id in s.otx && id in s.dispatch && status in STATUS_TABLE && status != PENDING
    requires Truthful(s.otx[id], status, s.mined) && s.otx[id].id == id
    requires At(row, s.otx[id].account, s.otx[id].nonce) && row.kind == s.otx[id].kind && row.id == id
    requires row.raw.intent == s.otx[id].raw.intent == row.hash.tx.intent
    ensures Inv(PutRow(s, id, row, status))
  {
    hide GapFree, LiveOk, RowsOk, SentOk, ChainOk, StatusOk, JobsOk, NewKeysUnused, Truthful;
    SetStatusKeeps(s, id, status);
    var dispatch := SetStatus(s.dispatch, id, status);
    PutRowGapFree(s.next, s.otx, id, row);
    PutRowLive(s.next, s.idSeq, s.otx, s.live, id, row);
    PutRowRows(s.otx, dispatch, s.jobs, s.versions, id, row);
    PutRowTruth(s.otx, dispatch, s.mined, id, row);
  }

  lemma RewriteRowKeeps(s: State, step: Step)
    requires Inv(s) && Enabled(s, step) && (step.WriteResigned? || step.WriteRecovered?)
    ensures Inv(Apply(s, step))
  {
    hide GapFree, LiveOk, RowsOk, SentOk, ChainOk, JobsOk, StatusOk, NewKeysUnused, Inv;
    var v := step.row;
    VersionFact(s, v);
    CurrentVersionFact(s, v.id);
    if step.WriteResigned? {
      var tx := Resigned(v.raw, step.fee, step.tip);
      PutRowKeeps(s, v.id, s.otx[v.id].(raw := tx, hash := HashOf(tx)), IN_NETWORK);
    } else {
      var m := MinedBy(s.mined, v.account)[v.nonce];
      MinedIsVersion(s, v);
      PutRowKeeps(s, v.id, s.otx[v.id].(hash := HashOf(m.tx)), ReceiptStatus(m));
    }
  }

  lemma CurrentVersionFact(s: State, id: nat)
    requires Inv(s) && id in s.otx
    ensures VersionOk(s.otx[id], s.otx, s.jobs) && s.otx[id].id == id && s.otx[id] in s.versions
    ensures id in s.dispatch && |s.dispatch[id]| == 1
  {
    hide LiveOk, SentOk, ChainOk, StatusOk, JobsOk, NewKeysUnused, VersionOk;
    assert s.otx[id] in s.versions;
  }

  /** The otx of a sent transaction is the one at its sender and nonce. */
  lemma SentBelongs(s: State, tx: Tx) returns (o: nat)
    requires Inv(s) && tx in s.sent
    ensures IsVersionOf(tx, o, s.jobs) && o in s.otx && At(s.otx[o], tx.intent.sender, tx.intent.nonce)
    ensures tx.intent.sender in s.next && tx.intent.nonce < s.next[tx.intent.sender]
  {
    o :| IsVersionOf(tx, o, s.jobs);
    assert o in s.otx by { hide GapFree, LiveOk, SentOk, ChainOk, StatusOk, JobsOk, NewKeysUnused; }
    hide LiveOk, SentOk, ChainOk, StatusOk, JobsOk, NewKeysUnused, RowsOk, Filled;
    CurrentVersionFact(s, o);
  }

  /** Two committed rows of one key with one nonce are the same row. */
  lemma OneRowPerNonce(s: State, o: nat, p: nat)
    requires Inv(s) && o in s.otx && p in s.otx && At(s.otx[o], s.otx[p].account, s.otx[p].nonce)
    ensures o == p
  {
    hide LiveOk, SentOk, ChainOk, StatusOk, JobsOk, NewKeysUnused, RowsOk, Filled;
  }

  /** Whatever is mined at a known row's nonce was sent, and carries that row's intent. */
  lemma MinedIsVersion(s: State, v: OtxRow)
    requires Inv(s) && v in s.versions && v.nonce < |MinedBy(s.mined, v.account)|
    ensures v.id in s.otx && v.id in s.jobs && |s.jobs[v.id]| == 1
    ensures MinedBy(s.mined, v.account)[v.nonce].tx in s.sent
    ensures MinedBy(s.mined, v.account)[v.nonce].tx.intent == v.raw.intent == s.otx[v.id].raw.intent ==
              s.jobs[v.id][0].raw.intent
  {
    var m := MinedBy(s.mined, v.account)[v.nonce];
    VersionFact(s, v);
    assert v.account in s.next by { hide LiveOk, RowsOk, SentOk, ChainOk, StatusOk, JobsOk, NewKeysUnused, Filled; }
    assert m.tx in s.sent && m.tx.intent.sender == v.account && m.tx.intent.nonce == v.nonce by {
      hide LiveOk, RowsOk, SentOk, GapFree, StatusOk, JobsOk, NewKeysUnused;
    }
    hide GapFree, LiveOk, RowsOk, SentOk, ChainOk, JobsOk, StatusOk, NewKeysUnused, Inv;
    var o := SentBelongs(s, m.tx);
    CurrentVersionFact(s, o);
    CurrentVersionFact(s, v.id);
    OneRowPerNonce(s, o, v.id);
  }

  lemma MineChainOk(next: map<Address, nat>, sent: set<Tx>, mined: map<Address, seq<Mined>>, height: nat, m: Mined)
    requires ChainOk(next, sent, mined, height) && m.block == height
    requires m.tx.intent.nonce == |MinedBy(mined, m.tx.intent.sender)|
    requires m.tx.intent.sender in next ==> m.tx in sent
    ensures ChainOk(next, sent, mined[m.tx.intent.sender := MinedBy(mined, m.tx.intent.sender) + [m]], height)
  {
  }

  lemma MineStatusOk(otx: map<nat, OtxRow>, dispatch: map<nat, seq<Status>>, mined: map<Address, seq<Mined>>,
                     a: Address, m: Mined)
    requires StatusOk(otx, dispatch, mined)
    ensures StatusOk(otx, dispatch, mined[a := MinedBy(mined, a) + [m]])
  {
    var mined' := mined[a := MinedBy(mined, a) + [m]];
    forall o, i | o in otx && o in dispatch && 0 <= i < |dispatch[o]| ensures Truthful(otx[o], dispatch[o][i], mined') {
      assert Truthful(otx[o], dispatch[o][i], mined);
    }
  }

  lemma MineKeeps(s: State, tx: Tx, ok: bool)
    requires Inv(s) && Enabled(s, Mine(tx, ok))
    ensures Inv(Apply(s, Mine(tx, ok)))
  {
    hide GapFree, LiveOk, RowsOk, SentOk, StatusOk, JobsOk;
    var a, m := tx.intent.sender, Mined(tx, s.height, ok);
    var mined' := s.mined[a := MinedBy(s.mined, a) + [m]];
    assert forall t, k :: t in s.live && k in s.live[t].newKeys ==> k != a by {
      hide ChainOk, NewKeysUnused;
      if tx in s.sent {
        var o := SentBelongs(s, tx);
        NewKeysUncommitted(s);
      }
    }
    assert NewKeysUnused(s.live, mined') by {
      hide ChainOk, Enabled;
      forall t, k | t in s.live && k in s.live[t].newKeys ensures MinedBy(mined', k) == [] {
        assert MinedBy(s.mined, k) == [];
      }
    }
    hide ChainOk, NewKeysUnused;
    MineChainOk(s.next, s.sent, s.mined, s.height, m);
    MineStatusOk(s.otx, s.dispatch, s.mined, a, m);
  }

  lemma NewKeysUncommitted(s: State)
    requires Inv(s)
    ensures forall t, k :: t in s.live && k in s.live[t].newKeys ==> k !in s.next
  {
    hide GapFree, LiveTxOk, Separate, RowsOk, SentOk, StatusOk, JobsOk, ChainOk;
  }

  lemma OtherKeeps(s: State, step: Step)
    requires Inv(s) && Enabled(s, step)
    requires step.Activate? || step.NewBlock?
    ensures Inv(Apply(s, step))
  {
    hide GapFree, LiveOk, RowsOk, SentOk, StatusOk, JobsOk;
  }

  lemma CommitStepKeeps(s: State, t: nat)
    requires Inv(s) && Enabled(s, Commit(t))
    ensures Inv(Apply(s, Commit(t)))
  {
    hide Inv, CommitTx;
    CommitKeeps(s, t);
  }

  lemma WriteDispatchStepKeeps(s: State, id: nat, j: nat, status: Status)
    requires Inv(s) && Enabled(s, WriteDispatch(id, j, status))
    ensures Inv(Apply(s, WriteDispatch(id, j, status)))
  {
    hide Inv, SetStatus, SetJob;
    WriteDispatchKeeps(s, id, j, status);
  }

  lemma NextKeeps(s: State, step: Step)
    requires Inv(s)
    ensures Inv(Next(s, step))
  {
    hide GapFree, LiveOk, RowsOk, SentOk, ChainOk, StatusOk, JobsOk, NewKeysUnused, Apply, Enabled;
    if Enabled(s, step) {
      match step
      case Begin(t) => BeginKeeps(s, t);
      case InsertKeypair(t, key) => InsertKeypairKeeps(s, t, key);
      case Acquire(t, a) => AcquireKeeps(s, t, a);
      case InsertOtx(t, _, _, _, _, _, _, _) => InsertOtxKeeps(s, t, step);
      case InsertDispatch(t) => InsertDispatchKeeps(s, t);
      case Enqueue(t) => EnqueueKeeps(s, t);
      case Commit(t) => CommitStepKeeps(s, t);
      case Rollback(t) => RollbackKeeps(s, t);
      case SendJob(_, _) => SendKeeps(s, step);
      case Resubmit(_) => SendKeeps(s, step);
      case SendResigned(_, _, _) => SendKeeps(s, step);
      case WriteDispatch(id, j, status) => WriteDispatchStepKeeps(s, id, j, status);
      case MarkInNetwork(_) => WriteStatusKeeps(s, step);
      case WriteReceipt(_) => WriteStatusKeeps(s, step);
      case FinishJob(_, _, _) => FinishJobKeeps(s, step);
      case WriteResigned(_, _, _) => RewriteRowKeeps(s, step);
      case WriteRecovered(_) => RewriteRowKeeps(s, step);
      case Mine(tx, ok) => MineKeeps(s, tx, ok);
      case Activate(_) => OtherKeeps(s, step);
      case NewBlock => OtherKeeps(s, step);
    }
  }
}
