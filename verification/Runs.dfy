/** Concrete runs: a payment signed and committed, from any state in which no database transaction is open. */
module Runs {
  import opened Types
  import opened Lifecycle
  import opened Growth
  import opened Theorems

  const PAYER := Key(0)
  const OTHER := Key(2)

  /** A fresh service with two keys. */
  const FRESH := State(map[PAYER := 0, OTHER := 0], {}, 1, map[], map[], map[], map[], {}, {}, map[], 0)

  lemma FreshIsInit()
    ensures Init(FRESH)
  {
  }

  /** The payment of `a` with nonce `n`, as it is first signed. */
  function Payment(a: Address, n: nat): Tx {
    Tx(Intent(a, n, Some(Key(1)), 1, Opaque([]), 21000), 120, 100)
  }

  function PaymentRow(a: Address, n: nat, id: nat): OtxRow {
    OtxRow(id, a, n, TOKEN_TRANSFER, Payment(a, n), HashOf(Payment(a, n)))
  }

  /** The signing job of one payment. */
  function SignSteps(a: Address): seq<Step> {
    [ Begin(0), Acquire(0, a), InsertOtx(0, TOKEN_TRANSFER, Some(Key(1)), 1, Opaque([]), 21000, 120, 100),
      InsertDispatch(0), Enqueue(0), Commit(0) ]
  }

  /** What the job leaves. */
  function Signed(s: State, a: Address): State
    requires a in s.next
  {
    var id, row := s.idSeq, PaymentRow(a, s.next[a], s.idSeq);
    s.(next := s.next[a := s.next[a] + 1], idSeq := id + 1, otx := s.otx[id := row],
       dispatch := s.dispatch[id := [PENDING]], jobs := s.jobs[id := [Job(row.raw, Available, false)]],
       versions := s.versions + {row})
  }

  /** The open transaction of the job in each of its phases. */
  function Signing(phase: Phase, a: Address, rows: seq<OtxRow>, dispatch: map<nat, seq<Status>>,
                   jobs: map<nat, seq<Job>>): LiveTx {
    LiveTx(phase, Some(a), 1, rows, dispatch, jobs, {})
  }

  lemma SigningStarts(s: State, a: Address)
    requires s.live == map[] && a in s.next
    ensures var steps := SignSteps(a);
            Next(Next(Next(s, steps[0]), steps[1]), steps[2]) ==
              s.(live := map[0 := Signing(HaveRow, a, [PaymentRow(a, s.next[a], s.idSeq)], map[], map[])],
                 idSeq := s.idSeq + 1)
  {
    var steps := SignSteps(a);
    var s1 := Next(s, steps[0]);
    assert s1 == s.(live := map[0 := LiveTx(Idle, None, 0, [], map[], map[], {})]);
    var s2 := Next(s1, steps[1]);
    assert s2 == s.(live := map[0 := Signing(HaveNonce, a, [], map[], map[])]);
    var s3 := Next(s2, steps[2]);
    assert s3.live[0].rows == [PaymentRow(a, s.next[a], s.idSeq)];
  }

  lemma OneJob(row: OtxRow)
    ensures EnqueueAll(map[], [row]) == map[row.id := [Job(row.raw, Available, false)]]
    ensures Table([row]) == map[row.id := row] && Table([row]).Values == {row}
  {
    assert [row][..0] == [];
    var none: seq<Job> := [];
    assert EnqueueAll(map[], [row][..0]) == map[];
    assert none + [Job(row.raw, Available, false)] == [Job(row.raw, Available, false)];
    var table := Table([row]);
    assert Table([row][..0]) == map[];
    assert table == map[][row.id := row] == map[row.id := row];
    assert row.id in table.Keys && table[row.id] == row;
    assert row in table.Values;
    assert forall v :: v in table.Values ==> v == row;
  }

  lemma DispatchesOne(s: State, a: Address, row: OtxRow)
    requires s.live == map[0 := Signing(HaveRow, a, [row], map[], map[])]
    ensures Next(s, InsertDispatch(0)) ==
              s.(live := map[0 := Signing(Idle, a, [row], map[row.id := [PENDING]], map[])])
  {
    var t := Next(s, InsertDispatch(0));
    assert [] + [PENDING] == [PENDING];
    assert t.live[0].dispatch == map[row.id := [PENDING]];
  }

  lemma EnqueuesOne(s: State, a: Address, row: OtxRow)
    requires s.live == map[0 := Signing(Idle, a, [row], map[row.id := [PENDING]], map[])]
    ensures Next(s, Enqueue(0)) ==
              s.(live := map[0 := Signing(Queued, a, [row], map[row.id := [PENDING]],
                                          map[row.id := [Job(row.raw, Available, false)]])])
  {
    OneJob(row);
    hide EnqueueAll, Table;
    var t := Next(s, Enqueue(0));
    assert t.live[0] == Signing(Queued, a, [row], map[row.id := [PENDING]],
                                map[row.id := [Job(row.raw, Available, false)]]);
  }

  lemma Merged<T>(table: map<nat, T>, id: nat, row: T)
    ensures table + map[id := row] == table[id := row]
  {
  }

  lemma NoNewKeys(next: map<Address, nat>)
    ensures next + StartingNonces({}) == next
  {
  }

  lemma CommitsOne(s: State, a: Address, row: OtxRow)
    requires a in s.next
    requires s.live == map[0 := Signing(Queued, a, [row], map[row.id := [PENDING]],
                                        map[row.id := [Job(row.raw, Available, false)]])]
    ensures Next(s, Commit(0)) ==
              s.(live := map[], next := s.next[a := s.next[a] + 1], otx := s.otx[row.id := row],
                 dispatch := s.dispatch[row.id := [PENDING]],
                 jobs := s.jobs[row.id := [Job(row.raw, Available, false)]], versions := s.versions + {row})
  {
    OneJob(row);
    CommitIs(s, 0);
    hide Table, EnqueueAll, Enabled, Apply, StartingNonces;
    NoNewKeys(s.next[a := s.next[a] + 1]);
    Merged(s.otx, row.id, row);
    Merged(s.dispatch, row.id, [PENDING]);
    Merged(s.jobs, row.id, [Job(row.raw, Available, false)]);
    assert s.live - {0} == map[];
  }

  lemma SignRun(s: State, a: Address)
    ensures Run(s, SignSteps(a)) ==
              Next(Next(Next(Next(Next(Next(s, SignSteps(a)[0]), SignSteps(a)[1]), SignSteps(a)[2]), InsertDispatch(0)),
                        Enqueue(0)), Commit(0))
  {
    hide Next, Run;
    RunsSix(s, SignSteps(a));
  }

  lemma SigningEnds(s: State, a: Address, row: OtxRow)
    requires a in s.next && s.live == map[0 := Signing(HaveRow, a, [row], map[], map[])]
    ensures Next(Next(Next(s, InsertDispatch(0)), Enqueue(0)), Commit(0)) ==
              s.(live := map[], next := s.next[a := s.next[a] + 1], otx := s.otx[row.id := row],
                 dispatch := s.dispatch[row.id := [PENDING]],
                 jobs := s.jobs[row.id := [Job(row.raw, Available, false)]], versions := s.versions + {row})
  {
    hide Next, Signing;
    DispatchesOne(s, a, row);
    EnqueuesOne(Next(s, InsertDispatch(0)), a, row);
    CommitsOne(Next(Next(s, InsertDispatch(0)), Enqueue(0)), a, row);
  }

  lemma IsSigned(s: State, a: Address)
    requires s.live == map[] && a in s.next
    ensures var row := PaymentRow(a, s.next[a], s.idSeq);
            Signed(s, a) ==
              s.(live := map[], next := s.next[a := s.next[a] + 1], idSeq := s.idSeq + 1,
                 otx := s.otx[row.id := row], dispatch := s.dispatch[row.id := [PENDING]],
                 jobs := s.jobs[row.id := [Job(row.raw, Available, false)]], versions := s.versions + {row})
  {
  }

  /** The six steps commit one payment and leave nothing open. */
  lemma SignsPayment(s: State, a: Address)
    requires s.live == map[] && a in s.next
    ensures Run(s, SignSteps(a)) == Signed(s, a)
  {
    hide Next, Run, Signing, SignSteps, PaymentRow, Signed;
    var row := PaymentRow(a, s.next[a], s.idSeq);
    var started := s.(live := map[0 := Signing(HaveRow, a, [row], map[], map[])], idSeq := s.idSeq + 1);
    SigningStarts(s, a);
    SigningEnds(started, a, row);
    SignRun(s, a);
    IsSigned(s, a);
  }

  /** The payment has just been signed. */
  predicate JustSigned(s: State, a: Address, n: nat, id: nat) {
    && id in s.otx && s.otx[id] == PaymentRow(a, n, id) && s.otx[id] in s.versions
    && id in s.dispatch && s.dispatch[id] == [PENDING]
    && id in s.jobs && s.jobs[id] == [Job(Payment(a, n), Available, false)]
  }

  lemma IsJustSigned(s: State, a: Address)
    requires a in s.next
    ensures JustSigned(Signed(s, a), a, s.next[a], s.idSeq)
    ensures Signed(s, a).mined == s.mined && Signed(s, a).live == s.live && Signed(s, a).height == s.height
  {
  }

  lemma Mines(s: State, tx: Tx)
    requires tx in s.sent && tx.intent.nonce == |MinedBy(s.mined, tx.intent.sender)|
    ensures var a := tx.intent.sender;
            Next(s, Mine(tx, true)) ==
              s.(mined := s.mined[a := MinedBy(s.mined, a) + [Mined(tx, s.height, true)]])
  {
  }

  /** The job sends the payment, it is mined, and a receipt check writes SUCCESS. */
  function SettleSteps(a: Address, n: nat, id: nat): seq<Step> {
    [SendJob(id, 0), Mine(Payment(a, n), true), WriteReceipt(PaymentRow(a, n, id))]
  }

  function Settled(s: State, a: Address, n: nat, id: nat): State {
    s.(sent := s.sent + {Payment(a, n)}, dispatch := s.dispatch[id := [SUCCESS]],
       mined := s.mined[a := MinedBy(s.mined, a) + [Mined(Payment(a, n), s.height, true)]])
  }

  lemma SettlesPayment(s: State, a: Address, n: nat, id: nat)
    requires JustSigned(s, a, n, id) && n == |MinedBy(s.mined, a)|
    ensures Run(s, SettleSteps(a, n, id)) == Settled(s, a, n, id)
  {
    var steps := SettleSteps(a, n, id);
    var s1 := Next(s, steps[0]);
    assert s1 == s.(sent := s.sent + {Payment(a, n)});
    Mines(s1, Payment(a, n));
    WritesSuccess(Next(s1, steps[1]), a, n, id);
    hide Next, JustSigned, MinedBy, Run;
    RunsThree(s, steps);
  }

  lemma WritesSuccess(s: State, a: Address, n: nat, id: nat)
    requires PaymentRow(a, n, id) in s.versions && id in s.dispatch && s.dispatch[id] == [PENDING]
    requires n < |MinedBy(s.mined, a)| && MinedBy(s.mined, a)[n].tx == Payment(a, n) && MinedBy(s.mined, a)[n].ok
    ensures Next(s, WriteReceipt(PaymentRow(a, n, id))) == s.(dispatch := s.dispatch[id := [SUCCESS]])
  {
    var t := Next(s, WriteReceipt(PaymentRow(a, n, id)));
    assert t.dispatch[id] == [SUCCESS];
  }

  /** The job sends the payment and writes IN_NETWORK, and it is mined. */
  function DeliverSteps(a: Address, n: nat, id: nat): seq<Step> {
    [SendJob(id, 0), WriteDispatch(id, 0, IN_NETWORK), Mine(Payment(a, n), true)]
  }

  function Delivered(s: State, a: Address, n: nat, id: nat): State {
    s.(sent := s.sent + {Payment(a, n)}, dispatch := s.dispatch[id := [IN_NETWORK]],
       jobs := s.jobs[id := [Job(Payment(a, n), Available, true)]],
       mined := s.mined[a := MinedBy(s.mined, a) + [Mined(Payment(a, n), s.height, true)]])
  }

  lemma DeliversPayment(s: State, a: Address, n: nat, id: nat)
    requires JustSigned(s, a, n, id) && n == |MinedBy(s.mined, a)|
    ensures Run(s, DeliverSteps(a, n, id)) == Delivered(s, a, n, id)
  {
    var steps := DeliverSteps(a, n, id);
    var s1 := Next(s, steps[0]);
    assert s1 == s.(sent := s.sent + {Payment(a, n)});
    WritesInNetwork(s1, a, n, id);
    Mines(Next(s1, steps[1]), Payment(a, n));
    hide Next, JustSigned, MinedBy, Run;
    RunsThree(s, steps);
  }

  lemma WritesInNetwork(s: State, a: Address, n: nat, id: nat)
    requires id in s.dispatch && s.dispatch[id] == [PENDING] && Payment(a, n) in s.sent
    requires id in s.jobs && s.jobs[id] == [Job(Payment(a, n), Available, false)]
    ensures Next(s, WriteDispatch(id, 0, IN_NETWORK)) ==
              s.(dispatch := s.dispatch[id := [IN_NETWORK]],
                 jobs := s.jobs[id := [Job(Payment(a, n), Available, true)]])
  {
    var t := Next(s, WriteDispatch(id, 0, IN_NETWORK));
    assert t.dispatch[id] == [IN_NETWORK] && t.jobs[id] == [Job(Payment(a, n), Available, true)];
  }

  lemma RunsTwo(s: State, steps: seq<Step>)
    requires |steps| == 2
    ensures Run(s, steps) == Next(Next(s, steps[0]), steps[1])
  {
    hide Next;
    assert steps[..1] == [steps[0]];
    RunOne(s, steps[0]);
  }

  lemma RunsThree(s: State, steps: seq<Step>)
    requires |steps| == 3
    ensures Run(s, steps) == Next(Next(Next(s, steps[0]), steps[1]), steps[2])
  {
    hide Next;
    assert steps[..2][0] == steps[0] && steps[..2][1] == steps[1];
    RunsTwo(s, steps[..2]);
  }

  lemma RunsSix(s: State, steps: seq<Step>)
    requires |steps| == 6
    ensures Run(s, steps) == Next(Next(Next(Next(Next(Next(s, steps[0]), steps[1]), steps[2]), steps[3]), steps[4]),
                                  steps[5])
  {
    hide Next, Run;
    RunAppend(s, steps[..3], steps[3..]);
    assert steps == steps[..3] + steps[3..];
    RunsThree(s, steps[..3]);
    RunsThree(Run(s, steps[..3]), steps[3..]);
  }
}
