/** Signing jobs: one database transaction acquires nonces, inserts the signed transactions with their
    dispatch rows, enqueues the dispatch jobs, and commits. */
module Signing {
  import opened Types
  import Fees
  import opened Lifecycle
  import opened Invariant
  import opened Preservation
  import opened Growth
  import opened Theorems
  import opened Stability
  import opened World

  /** One transaction a job has signed: the id and type of its otx, and the raw transaction. */
  datatype Signed = Signed(id: nat, kind: OtxType, raw: Tx)

  /** Item i carries the i-th nonce from `base` on. */
  predicate InOrder(a: Address, base: nat, signed: seq<Signed>) {
    forall i :: 0 <= i < |signed| ==> signed[i].raw.intent.sender == a && signed[i].raw.intent.nonce == base + i
  }

  predicate Records(row: OtxRow, item: Signed) {
    row.id == item.id && row.kind == item.kind && row.raw == item.raw
  }

  /** No step of ours since `own0` has committed anything. */
  predicate NoCommit(own0: seq<Step>, own: seq<Step>) {
    own0 <= own && forall i :: |own0| <= i < |own| ==> !own[i].Commit?
  }

  /** The service holds the key, and no other open transaction has its nonce row locked. */
  predicate Free(s: State, t: nat, a: Address) {
    a in s.next && forall u :: u in s.live && u != t ==> s.live[u].signer != Some(a)
  }

  /** Nothing stands in the way of a job that signs with `a`. */
  predicate CanSign(s: State, a: Address) {
    a in s.next && forall u :: u in s.live ==> s.live[u].signer != Some(a)
  }

  lemma StaysFree(s: State, step: Step, t: nat, a: Address)
    requires Free(s, t, a) && Enabled(s, step)
    requires step == Acquire(t, a) || (step.InsertOtx? && step.t == t) || step == InsertDispatch(t)
    ensures Free(Next(s, step), t, a)
  {
  }

  /** Every item is signed with the caps the gas oracle gave. */
  predicate Priced(signed: seq<Signed>, caps: (nat, nat)) {
    forall i :: 0 <= i < |signed| ==> signed[i].raw.feeCap == caps.0 && signed[i].raw.tipCap == caps.1
  }

  /** What a job heard before it signed: its key was loaded, and the oracle gave these caps. */
  predicate CapsHeard(heard: seq<Reply>, n: nat, caps: (nat, nat)) {
    n + 1 < |heard| && heard[n] == DatabaseIs(true) && heard[n + 1] == GasIs(Some(caps))
  }

  /** The recorded types, in order. */
  function Kinds(signed: seq<Signed>): seq<OtxType> {
    seq(|signed|, i requires 0 <= i < |signed| => signed[i].kind)
  }

  /** Where a job began. */
  datatype Start = Start(s: State, log: seq<Step>, own: seq<Step>)

  /** The job has come this far without committing. */
  ghost predicate Uncommitted(w: World, start: Start)
    reads w
  {
    w.Later(start.s, start.log) && NoCommit(start.own, w.own)
  }

  /** The intents signed so far are the first of the script. */
  predicate Follows(signed: seq<Signed>, script: seq<Intent>) {
    |signed| <= |script| && forall i :: 0 <= i < |signed| ==> signed[i].raw.intent == script[i]
  }

  /** The open transaction `t` has locked `a` at `base` and holds exactly the rows `signed`. */
  predicate Building(s: State, t: nat, a: Address, base: nat, signed: seq<Signed>, phase: Phase) {
    && t in s.live && InOrder(a, base, signed)
    && var lt := s.live[t];
       && lt.phase == phase && lt.newKeys == {}
       && |lt.rows| == |signed| && (forall i :: 0 <= i < |signed| ==> Records(lt.rows[i], signed[i]))
       && lt.acquired == |signed| + (if phase == HaveNonce then 1 else 0)
       && if lt.acquired == 0 then lt.signer == None else lt.signer == Some(a) && a in s.next && s.next[a] == base
  }

  lemma BuildingIsOpen(s: State, t: nat, a: Address, base: nat, signed: seq<Signed>, phase: Phase)
    requires Building(s, t, a, base, signed, phase)
    ensures t in s.live
  {
  }

  lemma LeftBuilding(s: State, s': State, t: nat, a: Address, base: nat, signed: seq<Signed>, phase: Phase)
    requires Building(s, t, a, base, signed, phase) && Left(s, s', t)
    ensures Building(s', t, a, base, signed, phase)
  {
  }

  /** Begin */
  method BeginTx(w: World, a: Address) returns (t: nat)
    requires w.Valid()
    modifies w`s, w`log, w`own
    ensures w.Later(old(w.s), old(w.log)) && w.own == old(w.own) + [Begin(t)]
    ensures Building(w.s, t, a, 0, [], Idle)
    ensures w.quiet && CanSign(old(w.s), a) ==> Free(w.s, t, a)
  {
    hide Run, Init, Next;
    w.Interfere();
    ghost var unused := Unused(w.s.live.Keys);
    t :| t !in w.s.live;
    ghost var s0 := w.s;
    w.Do(Begin(t));
    Begins(s0, t, a);
  }

  lemma {:induction false} Unused(used: set<nat>) returns (t: nat)
    ensures t !in used && forall u :: u in used ==> u < t
    decreases |used|
  {
    if used == {} {
      t := 0;
    } else {
      var u :| u in used;
      var above := Unused(used - {u});
      t := if u < above then above else u + 1;
      forall v | v in used ensures v < t {
        assert v == u || v in used - {u};
      }
    }
  }

  lemma Begins(s: State, t: nat, a: Address)
    requires t !in s.live
    ensures Building(Next(s, Begin(t)), t, a, 0, [], Idle) && (CanSign(s, a) ==> Free(Next(s, Begin(t)), t, a))
  {
  }

  /** UPDATE noncestore ... RETURNING next_nonce - 1.  The first call waits for the row lock and fixes the base. */
  method AcquireNonce(w: World, t: nat, a: Address, ghost base0: nat, ghost signed: seq<Signed>)
    returns (nonce: Option<nat>, ghost base: nat)
    requires w.Valid() && Building(w.s, t, a, base0, signed, Idle)
    modifies w`s, w`log, w`own
    ensures w.Later(old(w.s), old(w.log))
    ensures nonce.Some? ==> Building(w.s, t, a, base, signed, HaveNonce) && nonce.value == base + |signed|
    ensures nonce.Some? && signed != [] ==> base == base0
    ensures nonce.None? ==> t in w.s.live
    ensures w.quiet && Free(old(w.s), t, a) ==> nonce.Some? && Free(w.s, t, a)
    ensures NoCommit(old(w.own), w.own)
  {
    hide Run, Init, Next;
    ghost var s0 := w.s;
    w.InterfereLeaving(t);
    LeftBuilding(s0, w.s, t, a, base0, signed, Idle);
    base := base0;
    var failed: bool := *;
    if (failed && !w.quiet) || !Enabled(w.s, Acquire(t, a)) {
      return None, base; // no such key, the wait timed out, or the database failed
    }
    ghost var s1 := w.s;
    base := w.s.next[a];
    w.Do(Acquire(t, a));
    Acquires(s1, t, a, base0, signed);
    if Free(s1, t, a) {
      StaysFree(s1, Acquire(t, a), t, a);
    }
    nonce := Some(w.s.next[a] + w.s.live[t].acquired - 1);
  }

  lemma Acquires(s: State, t: nat, a: Address, base0: nat, signed: seq<Signed>)
    requires Building(s, t, a, base0, signed, Idle) && Enabled(s, Acquire(t, a))
    ensures var s', base := Next(s, Acquire(t, a)), s.next[a];
            Building(s', t, a, base, signed, HaveNonce) && (signed != [] ==> base == base0)
  {
  }

  /** INSERT INTO otx, then INSERT INTO dispatch with PENDING. */
  method InsertOtxAndDispatch(w: World, t: nat, kind: OtxType, raw: Tx, ghost a: Address, ghost base: nat,
                              ghost signed: seq<Signed>)
    returns (id: Option<nat>)
    requires w.Valid() && Building(w.s, t, a, base, signed, HaveNonce)
    requires raw.intent.sender == a && raw.intent.nonce == base + |signed|
    modifies w`s, w`log, w`own
    ensures w.Later(old(w.s), old(w.log)) && t in w.s.live && NoCommit(old(w.own), w.own)
    ensures id.Some? ==> Building(w.s, t, a, base, signed + [Signed(id.value, kind, raw)], Idle)
    ensures w.quiet ==> id.Some? && (Free(old(w.s), t, a) ==> Free(w.s, t, a))
  {
    hide Run, Init, Next, Enabled, Free;
    ghost var s0 := w.s;
    w.InterfereLeaving(t);
    LeftBuilding(s0, w.s, t, a, base, signed, HaveNonce);
    var failed: bool := *;
    if failed && !w.quiet {
      return None;
    }
    ghost var s1 := w.s;
    var otxId := w.s.idSeq;
    var i := raw.intent;
    w.Do(InsertOtx(t, kind, i.to, i.value, i.call, i.gas, raw.feeCap, raw.tipCap));
    InsertsOtxFree(s1, t, a, base, signed, kind, raw);
    InsertsOtx(s1, t, a, base, signed, kind, raw);
    ghost var s2 := w.s;
    w.InterfereLeaving(t);
    LeftBuilding(s2, w.s, t, a, base, signed + [Signed(otxId, kind, raw)], HaveRow);
    failed := *;
    if failed && !w.quiet {
      return None;
    }
    ghost var s3 := w.s;
    w.Do(InsertDispatch(t));
    if Free(s3, t, a) {
      CanInsertDispatch(s3, t, a, base, signed + [Signed(otxId, kind, raw)]);
      StaysFree(s3, InsertDispatch(t), t, a);
    }
    InsertsDispatch(s3, t, a, base, signed + [Signed(otxId, kind, raw)]);
    id := Some(otxId);
  }

  lemma InsertsOtxFree(s: State, t: nat, a: Address, base: nat, signed: seq<Signed>, kind: OtxType, raw: Tx)
    requires Building(s, t, a, base, signed, HaveNonce)
    ensures var i := raw.intent;
            Free(s, t, a) ==>
              Free(Next(s, InsertOtx(t, kind, i.to, i.value, i.call, i.gas, raw.feeCap, raw.tipCap)), t, a)
  {
    var i := raw.intent;
    if Free(s, t, a) {
      StaysFree(s, InsertOtx(t, kind, i.to, i.value, i.call, i.gas, raw.feeCap, raw.tipCap), t, a);
    }
  }

  lemma CanInsertDispatch(s: State, t: nat, a: Address, base: nat, signed: seq<Signed>)
    requires Building(s, t, a, base, signed, HaveRow) && signed != []
    ensures Enabled(s, InsertDispatch(t))
  {
  }

  lemma InsertsOtx(s: State, t: nat, a: Address, base: nat, signed: seq<Signed>, kind: OtxType, raw: Tx)
    requires Building(s, t, a, base, signed, HaveNonce) && raw.intent.sender == a && raw.intent.nonce == base + |signed|
    ensures var i := raw.intent;
            Building(Next(s, InsertOtx(t, kind, i.to, i.value, i.call, i.gas, raw.feeCap, raw.tipCap)), t, a, base,
                     signed + [Signed(s.idSeq, kind, raw)], HaveRow)
  {
    var i := raw.intent;
    assert NewRow(s, s.live[t], kind, i.to, i.value, i.call, i.gas, raw.feeCap, raw.tipCap).raw == raw;
  }

  lemma InsertsDispatch(s: State, t: nat, a: Address, base: nat, signed: seq<Signed>)
    requires Building(s, t, a, base, signed, HaveRow) && signed != []
    ensures Building(Next(s, InsertDispatch(t)), t, a, base, signed, Idle)
  {
    hide Insert;
  }

  /** The otxs of a committed job, each with its nonce, its dispatch job and its transaction. */
  predicate Committed(s: State, a: Address, base: nat, signed: seq<Signed>) {
    && InOrder(a, base, signed)
    && forall i :: 0 <= i < |signed| ==>
         && signed[i].id in s.otx && At(s.otx[signed[i].id], a, base + i) && s.otx[signed[i].id].kind == signed[i].kind
         && |JobsOf(s, signed[i].id)| == 1 && JobsOf(s, signed[i].id)[0].raw == signed[i].raw
  }

  /** InsertManyTx, then the commit that makes the rows, the statuses and the jobs visible together. */
  method EnqueueAndCommit(w: World, t: nat, jobs: seq<Signed>, ghost a: Address, ghost base: nat) returns (ok: bool)
    requires w.Valid() && Building(w.s, t, a, base, jobs, Idle) && jobs != []
    modifies w`s, w`log, w`own
    ensures w.Later(old(w.s), old(w.log))
    ensures ok ==> w.own == old(w.own) + [Enqueue(t), Commit(t)]
    ensures ok ==>
              Committed(w.s, a, base, jobs) && forall i :: 0 <= i < |jobs| ==> StatusesOf(w.s, jobs[i].id) == [PENDING]
    ensures !ok ==> t !in w.s.live && NoCommit(old(w.own), w.own)
    ensures w.quiet ==> ok
  {
    hide Run, Init, Next, Inv, Reachable, Committed, StatusesOf, JobsOf;
    ghost var s0 := w.s;
    w.InterfereLeaving(t);
    LeftBuilding(s0, w.s, t, a, base, jobs, Idle);
    var failed: bool := *;
    if failed && !w.quiet {
      Abandon(w, t);
      return false;
    }
    ghost var s1 := w.s;
    w.Do(Enqueue(t));
    Enqueues(s1, t, a, base, jobs);
    ghost var s2 := w.s;
    w.InterfereLeaving(t);
    LeftBuilding(s2, w.s, t, a, base, jobs, Queued);
    failed := *;
    if failed && !w.quiet {
      Abandon(w, t);
      return false;
    }
    w.Known();
    ghost var s3 := w.s;
    w.Do(Commit(t));
    Commits(s3, t, a, base, jobs);
    ok := true;
  }

  lemma Enqueues(s: State, t: nat, a: Address, base: nat, signed: seq<Signed>)
    requires Building(s, t, a, base, signed, Idle) && signed != []
    ensures Building(Next(s, Enqueue(t)), t, a, base, signed, Queued)
  {
    hide EnqueueAll;
  }

  lemma Commits(s: State, t: nat, a: Address, base: nat, signed: seq<Signed>)
    requires Inv(s) && Reachable(s) && Building(s, t, a, base, signed, Queued) && signed != []
    ensures Committed(Next(s, Commit(t)), a, base, signed)
    ensures forall i :: 0 <= i < |signed| ==> StatusesOf(Next(s, Commit(t)), signed[i].id) == [PENDING]
  {
    CanCommit(s, t, a, base, signed);
    JobNoncesAreConsecutive(s, t);
    RowBase(s, t);
    hide Inv, Reachable, Enabled, Apply, StatusesOf, JobsOf;
    RowsAreSigned(Next(s, Commit(t)), s.live[t].rows, a, base, signed);
  }

  lemma CanCommit(s: State, t: nat, a: Address, base: nat, signed: seq<Signed>)
    requires Building(s, t, a, base, signed, Queued) && signed != []
    ensures Enabled(s, Commit(t)) && Next(s, Commit(t)) == Apply(s, Commit(t))
    ensures s.live[t].rows != [] && s.live[t].signer == Some(a) && a in s.next && s.next[a] == base
  {
    hide Apply;
  }

  lemma RowsAreSigned(s: State, rows: seq<OtxRow>, a: Address, base: nat, signed: seq<Signed>)
    requires InOrder(a, base, signed) && |rows| == |signed|
    requires forall i :: 0 <= i < |rows| ==> Records(rows[i], signed[i]) && At(rows[i], a, base + i)
    requires forall i :: 0 <= i < |rows| ==> rows[i].id in s.otx && s.otx[rows[i].id] == rows[i]
    requires forall i :: 0 <= i < |rows| ==>
               StatusesOf(s, rows[i].id) == [PENDING] && JobsOf(s, rows[i].id) == [Job(rows[i].raw, Available, false)]
    ensures Committed(s, a, base, signed) && forall i :: 0 <= i < |signed| ==> StatusesOf(s, signed[i].id) == [PENDING]
  {
    hide StatusesOf, JobsOf, InOrder;
    forall i | 0 <= i < |signed|
      ensures signed[i].id in s.otx && At(s.otx[signed[i].id], a, base + i)
              && s.otx[signed[i].id].kind == signed[i].kind
      ensures |JobsOf(s, signed[i].id)| == 1 && JobsOf(s, signed[i].id)[0].raw == signed[i].raw
              && StatusesOf(s, signed[i].id) == [PENDING] {
      assert rows[i].id == signed[i].id;
    }
  }

  lemma RowBase(s: State, t: nat)
    requires Inv(s) && t in s.live && s.live[t].rows != []
    ensures s.live[t].signer.Some? && s.live[t].signer.value in s.next
            && s.live[t].rows[0].nonce == s.next[s.live[t].signer.value]
  {
    LiveFacts(s, t);
    hide Inv, LiveTables;
  }

  /** defer tx.Rollback */
  method Abandon(w: World, t: nat)
    requires w.Valid() && t in w.s.live
    modifies w`s, w`log, w`own
    ensures w.Later(old(w.s), old(w.log)) && t !in w.s.live && w.own == old(w.own) + [Rollback(t)]
  {
    hide Run, Init, Next;
    w.InterfereLeaving(t);
    ghost var s1 := w.s;
    w.Do(Rollback(t));
    RollsBack(s1, t);
  }

  lemma RollsBack(s: State, t: nat)
    requires t in s.live
    ensures t !in Next(s, Rollback(t)).live
  {
  }

  /** AcquireNonce, sign, InsertOTX, InsertDispatchTx: the block every job repeats for each transaction. */
  method SignOne(w: World, t: nat, a: Address, ghost base0: nat, jobs: seq<Signed>, kind: OtxType,
                 to: Option<Address>, call: Call, gas: nat, caps: (nat, nat), ghost start: Start)
    returns (ok: bool, nonce: nat, next: seq<Signed>, ghost base: nat)
    requires w.Valid() && Uncommitted(w, start) && Building(w.s, t, a, base0, jobs, Idle)
    modifies w`s, w`log, w`own
    ensures w.Valid() && Uncommitted(w, start) && t in w.s.live
    ensures ok ==> Building(w.s, t, a, base, next, Idle) && nonce == base + |jobs| && (jobs != [] ==> base == base0)
    ensures ok ==> |next| == |jobs| + 1 && next[..|jobs|] == jobs && next[|jobs|].kind == kind
                   && next[|jobs|].raw == Tx(Intent(a, nonce, to, 0, call, gas), caps.0, caps.1)
    ensures w.quiet && Free(old(w.s), t, a) ==> ok && Free(w.s, t, a)
  {
    hide Run, Init, Next, Building, Left, Free;
    ok, nonce, next, base := false, 0, jobs, base0;
    var acquired;
    acquired, base := AcquireNonce(w, t, a, base0, jobs);
    if acquired.None? {
      return;
    }
    nonce := acquired.value;
    var raw := Tx(Intent(a, nonce, to, 0, call, gas), caps.0, caps.1);
    var id := InsertOtxAndDispatch(w, t, kind, raw, a, base, jobs);
    if id.None? {
      return;
    }
    next := jobs + [Signed(id.value, kind, raw)];
    ok := true;
  }

  /** The first transaction of a job whose script from each possible first nonce is `script`. */
  method SignFirst(w: World, t: nat, a: Address, kind: OtxType, to: Option<Address>, call: Call, gas: nat,
                   caps: (nat, nat), ghost start: Start, ghost script: nat -> seq<Intent>)
    returns (ok: bool, nonce: nat, jobs: seq<Signed>)
    requires w.Valid() && Uncommitted(w, start) && Building(w.s, t, a, 0, [], Idle)
    requires forall b: nat :: |script(b)| > 0 && script(b)[0] == Intent(a, b, to, 0, call, gas)
    modifies w`s, w`log, w`own
    ensures w.Valid() && Uncommitted(w, start) && t in w.s.live
    ensures ok ==>
              Building(w.s, t, a, nonce, jobs, Idle) && |jobs| == 1 && Kinds(jobs) == [kind] && Priced(jobs, caps)
                && Follows(jobs, script(nonce))
    ensures w.quiet && Free(old(w.s), t, a) ==> ok && Free(w.s, t, a)
  {
    hide Building, Uncommitted, Run, Init, Free;
    ghost var base;
    ok, nonce, jobs, base := SignOne(w, t, a, 0, [], kind, to, call, gas, caps, start);
  }

  /** The next one. */
  method SignNext(w: World, t: nat, a: Address, ghost base: nat, jobs: seq<Signed>, kind: OtxType, to: Option<Address>,
                  call: Call, gas: nat, caps: (nat, nat), ghost start: Start, ghost script: seq<Intent>)
    returns (ok: bool, nonce: nat, next: seq<Signed>)
    requires w.Valid() && Uncommitted(w, start) && Building(w.s, t, a, base, jobs, Idle) && jobs != []
             && Follows(jobs, script) && Priced(jobs, caps)
    requires |jobs| < |script| && script[|jobs|] == Intent(a, base + |jobs|, to, 0, call, gas)
    modifies w`s, w`log, w`own
    ensures w.Valid() && Uncommitted(w, start) && t in w.s.live
    ensures ok ==> nonce == base + |jobs| && Building(w.s, t, a, base, next, Idle) && Follows(next, script)
    ensures ok ==> |next| == |jobs| + 1 && Kinds(next) == Kinds(jobs) + [kind] && Priced(next, caps)
    ensures w.quiet && Free(old(w.s), t, a) ==> ok && Free(w.s, t, a)
  {
    hide Building, Uncommitted, Run, Init, Free;
    ghost var b;
    ok, nonce, next, b := SignOne(w, t, a, base, jobs, kind, to, call, gas, caps, start);
  }

  /** Begin, load the key, read the gas oracle: how every job starts. */
  method StartJob(w: World, a: Address) returns (t: nat, caps: Option<(nat, nat)>, ghost start: Start)
    requires w.Valid()
    modifies w
    ensures w.Valid() && start == Start(old(w.s), old(w.log), old(w.own)) && Uncommitted(w, start)
    ensures Building(w.s, t, a, 0, [], Idle) && t in w.s.live
    ensures old(w.heard) <= w.heard && (caps.Some? ==> CapsHeard(w.heard, |old(w.heard)|, caps.value))
    ensures w.quiet ==> caps.Some? && (CanSign(old(w.s), a) ==> Free(w.s, t, a))
  {
    start := Start(w.s, w.log, w.own);
    t := BeginTx(w, a);
    var loaded := w.Database();
    var settings := w.GasSettings();
    caps := if loaded then settings else None;
  }

  /** The end of a job that failed: its transaction is rolled back. */
  method AbandonJob(w: World, t: nat, ghost start: Start)
    requires w.Valid() && Uncommitted(w, start) && t in w.s.live
    modifies w`s, w`log, w`own
    ensures w.Later(start.s, start.log) && NoCommit(start.own, w.own)
  {
    hide Run, Init;
    Abandon(w, t);
  }

  /** The end of a job: everything it signed is committed at once, or nothing. */
  method CommitJob(w: World, t: nat, a: Address, jobs: seq<Signed>, ghost base: nat, ghost start: Start)
    returns (ok: bool)
    requires w.Valid() && Uncommitted(w, start) && Building(w.s, t, a, base, jobs, Idle) && jobs != []
    modifies w`s, w`log, w`own
    ensures w.Later(start.s, start.log)
    ensures ok ==> Committed(w.s, a, base, jobs)
    ensures !ok ==> NoCommit(start.own, w.own)
    ensures w.quiet ==> ok
  {
    hide Run, Init, Building, Committed;
    ok := EnqueueAndCommit(w, t, jobs, a, base);
  }

  /** From its commit on, a job's transactions can only be executed as they were signed, in their order:
      the account's chain holds their intents at consecutive nonces. */
  lemma CommittedExecutesInOrder(s: State, t: State, a: Address, base: nat, signed: seq<Signed>, i: nat)
    requires Reachable(s) && Leads(s, t) && Committed(s, a, base, signed) && i < |signed|
    requires base + i < |MinedBy(t.mined, a)|
    ensures MinedBy(t.mined, a)[base + i].tx.intent == signed[i].raw.intent
  {
    hide Inv, Reachable, Leads, MinedBy, Grows;
    var o := signed[i].id;
    var job := Outbox(s, o);
    OutboxIsStable(s, t, o, job);
    LeadsKeeps(s, t);
    ReachableInv(t);
    RowKey(t, o);
    var p := EveryExecutionHasOneOtx(t, a, base + i);
    OneRowPerNonce(t, o, p);
  }

  lemma RowKey(s: State, o: nat)
    requires Inv(s) && o in s.otx
    ensures s.otx[o].account in s.next
  {
    hide LiveOk, RowsOk, SentOk, ChainOk, StatusOk, JobsOk, NewKeysUnused, Filled;
  }

  /** The intents an account has executed at nonces `from` to `from + n - 1`. */
  function Executed(mined: map<Address, seq<Mined>>, a: Address, from: nat, n: nat): seq<Intent>
    requires from + n <= |MinedBy(mined, a)|
  {
    seq(n, i requires 0 <= i < n => MinedBy(mined, a)[from + i].tx.intent)
  }

  /** A committed job is executed as the script it follows, however its transactions were dispatched,
      re-signed or resubmitted. */
  lemma JobExecutesItsScript(s: State, t: State, a: Address, base: nat, jobs: seq<Signed>, script: seq<Intent>)
    requires Reachable(s) && Leads(s, t) && Committed(s, a, base, jobs)
    requires Follows(jobs, script) && |jobs| == |script| && base + |jobs| <= |MinedBy(t.mined, a)|
    ensures Executed(t.mined, a, base, |jobs|) == script
  {
    hide Reachable, Leads, Committed, MinedBy;
    forall i | 0 <= i < |jobs| ensures Executed(t.mined, a, base, |jobs|)[i] == script[i] {
      CommittedExecutesInOrder(s, t, a, base, jobs, i);
    }
  }

  /** What a job signs obeys EIP-1559 at the caps it was given, and so do its re-signs: the first at any ordered oracle
      reading from a gas price of 20 wei, any chain of them from 152 wei that is never tight. */
  lemma SignedKeepsTheRule(heard: seq<Reply>, n: nat, caps: (nat, nat), jobs: seq<Signed>, i: nat, gasPrice: nat,
                           tip: nat, prices: seq<(nat, nat)>)
    requires CapsHeard(heard, n, caps) && Priced(jobs, caps) && i < |jobs|
    requires heard[n + 1] == GasIs(Some((Fees.OracleFeeCap(gasPrice), tip))) && tip <= gasPrice
    ensures jobs[i].raw.tipCap <= jobs[i].raw.feeCap
    ensures gasPrice >= 20 ==>
              forall fee: nat, tip': nat :: tip' <= fee ==> Fees.WithinCap(Fees.Resigned(jobs[i].raw, fee, tip'))
    ensures gasPrice >= 152 && (forall j :: 0 <= j < |prices| ==> prices[j].0 >= 152 && prices[j].1 <= prices[j].0)
            && Fees.NeverTight(jobs[i].raw, Fees.Readings(prices)) ==>
              forall v :: v in Fees.Versions(jobs[i].raw, Fees.Readings(prices)) ==> v.tipCap <= v.feeCap
  {
    var raw := jobs[i].raw;
    assert raw == Tx(raw.intent, Fees.OracleFeeCap(gasPrice), tip);
    Fees.FreshTransactionsAreSafe(gasPrice, tip);
    if gasPrice >= 20 {
      forall fee: nat, tip': nat | tip' <= fee ensures Fees.WithinCap(Fees.Resigned(raw, fee, tip')) {
        Fees.TipWithinCapIff(raw, fee, tip');
      }
    }
    if gasPrice >= 152 && (forall j :: 0 <= j < |prices| ==> prices[j].0 >= 152 && prices[j].1 <= prices[j].0)
       && Fees.NeverTight(raw, Fees.Readings(prices)) {
      Fees.FreshChainsAreSafe(raw.intent, (gasPrice, tip), prices);
    }
  }
}
