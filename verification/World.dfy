/** The shared state as one running process sees it: a process acts through the methods of `World`,
    and before each of them every other process may take any number of steps. */
module World {
  import opened Types
  import opened Fees
  import opened Lifecycle
  import opened Invariant
  import opened Preservation
  import opened Growth
  import opened Theorems
  import opened RpcErrors
  import opened Queries
  import opened Stability

  datatype SendReply =
    | Accepted
    | RpcError(msg: string)                          // a JSON-RPC error reply
    | CallError(msg: string)                         // a call error that is not a JSON-RPC error
    | TransportError(msg: string, transport: bool)   // the call itself failed

  datatype ReceiptReply = CallFailed | NoReceipt | Receipt(block: nat, ok: bool)

  /** What a call or a query of this process came back with. */
  datatype Reply =
    | NonceIs(nonceOf: Address, count: Option<nat>)
    | ReceiptIs(asked: Hash, receipt: ReceiptReply)
    | BlockIs(number: nat, txs: Option<seq<Tx>>)
    | SendIs(sent: Tx, reply: SendReply)
    | GasIs(caps: Option<(nat, nat)>)
    | AnchorIs(account: Address, nonce: nat, anchor: Option<Hash>)
    | RowsAre(rows: Option<seq<OtxRow>>)
    | RowIs(failed: bool, row: Option<OtxRow>)
    | DatabaseIs(ok: bool)

  /** The call was answered; what it was answered is another matter. */
  predicate Answered(r: Reply) {
    match r
    case NonceIs(_, count) => count.Some?
    case ReceiptIs(_, receipt) => !receipt.CallFailed?
    case BlockIs(_, txs) => txs.Some?
    case SendIs(_, _) => true
    case GasIs(caps) => caps.Some?
    case AnchorIs(_, _, _) => true // the code takes a failed query for an empty one
    case RowsAre(rows) => rows.Some?
    case RowIs(failed, _) => !failed
    case DatabaseIs(ok) => ok
  }

  /** Everything asked between two moments was answered. */
  ghost predicate AllAnswered(before: seq<Reply>, after: seq<Reply>) {
    before <= after && forall i :: |before| <= i < |after| ==> Answered(after[i])
  }

  lemma NothingAsked(heard: seq<Reply>)
    ensures AllAnswered(heard, heard)
  {
  }

  lemma AnsweredBetween(x: seq<Reply>, y: seq<Reply>, z: seq<Reply>)
    requires x <= y <= z
    ensures AllAnswered(x, z) <==> AllAnswered(x, y) && AllAnswered(y, z)
  {
  }

  lemma OneAnswer(heard: seq<Reply>, r: Reply)
    ensures AllAnswered(heard, heard + [r]) <==> Answered(r)
  {
    assert (heard + [r])[|heard|] == r;
  }

  lemma OneMoreAnswer(x: seq<Reply>, y: seq<Reply>, r: Reply)
    requires x <= y
    ensures x <= y + [r] && (y + [r])[|y|] == r && y <= y + [r]
    ensures AllAnswered(x, y + [r]) <==> AllAnswered(x, y) && Answered(r)
    ensures (r.SendIs? ==> Answered(r)) && (r.DatabaseIs? ==> (Answered(r) <==> r.ok))
  {
    OneAnswer(y, r);
    AnsweredBetween(x, y, y + [r]);
  }

  class World {
    ghost const start: State
    var s: State
    /** Every step of every process, and of those the ones this process took. */
    ghost var log: seq<Step>
    ghost var own: seq<Step>
    /** Every reply this process got, in order. */
    ghost var heard: seq<Reply>
    /** While this process runs, no other process acts, the database does not fail and the node answers faithfully. */
    const quiet: bool

    /** The state is what the logged steps made of a fresh deployment. */
    ghost predicate Valid()
      reads this`s, this`log
    {
      Init(start) && Run(start, log) == s
    }

    /** The present is reached from an earlier moment by the steps logged since. */
    ghost predicate Later(s0: State, log0: seq<Step>)
      reads this`s, this`log
    {
      Valid() && Run(start, log0) == s0 && log0 <= log
    }

    /** A process may start at any moment of any run. */
    constructor (ghost initial: State, ghost steps: seq<Step>, current: State, isQuiet: bool)
      requires Init(initial) && Run(initial, steps) == current
      ensures Valid() && s == current && log == steps && own == [] && heard == [] && quiet == isQuiet
    {
      start := initial;
      s := current;
      log := steps;
      own := [];
      heard := [];
      quiet := isQuiet;
    }

    /** What holds in every state a process can see. */
    lemma Known()
      requires Valid()
      ensures Reachable(s) && Inv(s)
    {
      hide Inv, Init;
      ReachableInv(s);
    }

    /** What has held since an earlier moment of this process. */
    lemma Since(s0: State, log0: seq<Step>)
      requires Later(s0, log0)
      ensures Inv(s0) && Inv(s) && Grows(s0, s) && Onward(s0, s)
    {
      hide Inv, Grows, Init, Onward;
      InitInv(start);
      RunKeeps(start, log0);
      assert log == log0 + log[|log0|..];
      RunAppend(start, log0, log[|log0|..]);
      RunKeeps(s0, log[|log0|..]);
      GrowsIsOnward(s0, s);
    }

    /** A send that was open to this process stays open. */
    lemma StillSends(s0: State, log0: seq<Step>, step: Step)
      requires Later(s0, log0) && Sends(step) && Enabled(s0, step)
      ensures Enabled(s, step) && SentTx(s, step) == SentTx(s0, step)
    {
      Since(s0, log0);
      hide Later, Inv, Grows, Enabled, SentTx;
      EnabledStays(s0, s, step);
      SendStays(s0, s, step);
    }

    /** A row version that was committed, and what its hash or nonce met on chain, stay. */
    lemma StillHeld(s0: State, log0: seq<Step>, otx: OtxRow)
      requires Later(s0, log0) && otx in s0.versions
      ensures otx in s.versions && Inv(s)
      ensures otx.nonce < |MinedBy(s0.mined, otx.account)| ==>
                otx.nonce < |MinedBy(s.mined, otx.account)|
                  && MinedBy(s.mined, otx.account)[otx.nonce] == MinedBy(s0.mined, otx.account)[otx.nonce]
      ensures HashMined(s0, otx.hash) ==> HashMined(s, otx.hash) && MinedAt(s, otx.hash) == MinedAt(s0, otx.hash)
      ensures s0.sent <= s.sent
    {
      hide Inv, Grows, Run, Init;
      Since(s0, log0);
      OnwardHeld(s0, s, otx);
    }

    lemma KeepsSent(s0: State, log0: seq<Step>, tx: Tx)
      requires Later(s0, log0) && tx in s0.sent
      ensures tx in s.sent
    {
      hide Inv, Grows, Run, Init;
      Since(s0, log0);
    }

    /** One step, by anyone. */
    ghost method Log(step: Step)
      requires Init(start) && s == Next(Run(start, log), step)
      modifies this`log
      ensures Later(Run(start, old(log)), old(log)) && log == old(log) + [step]
    {
      hide Next, Init, Onward;
      assert (log + [step])[..|log|] == log;
      log := log + [step];
    }

    /** A step of this process. */
    method Do(step: Step)
      requires Valid()
      modifies this`s, this`log, this`own
      ensures Later(old(s), old(log)) && s == Next(old(s), step) && own == old(own) + [step]
    {
      hide Next, Init, Onward, Run;
      s := Next(s, step);
      own := own + [step];
      Log(step);
    }

    /** Any number of steps of other processes. */
    method Interfere()
      requires Valid()
      modifies this`s, this`log
      ensures Later(old(s), old(log))
      ensures quiet ==> s == old(s) && log == old(log)
    {
      hide Next, Init, Run, Onward;
      if !quiet {
        var n: nat := *;
        while n > 0
          invariant Valid() && old(log) <= log
        {
          var step: Step := *;
          s := Next(s, step);
          Log(step);
          n := n - 1;
        }
      }
    }

    /** The same, while this process has the database transaction `t` open: nobody else can touch what it
        holds, and the row lock keeps its signer's nonce where it is. */
    method InterfereLeaving(t: nat)
      requires Valid() && t in s.live
      modifies this`s, this`log
      ensures Later(old(s), old(log)) && Left(old(s), s, t)
      ensures quiet ==> s == old(s)
    {
      hide Next, Init, Run, Onward, Inv, TxOf, Reachable, Left;
      LeftAlone(s, t);
      var n: nat := *;
      while n > 0 && !quiet
        invariant Valid() && old(log) <= log && Left(old(s), s, t) && t in s.live
        invariant quiet ==> s == old(s)
      {
        var step: Step := *;
        if TxOf(step) != Some(t) {
          Known();
          ghost var s1 := s;
          OthersLeave(s, step, t);
          s := Next(s, step);
          LeftOn(old(s), s1, s, t);
          Log(step);
        }
        n := n - 1;
      }
    }

    /** Time passes, then this process takes a step that was open to it before. */
    method Act(step: Step) returns (ghost before: State)
      requires Valid() && StableStep(step) && Enabled(s, step)
      modifies this`s, this`log, this`own
      ensures Later(old(s), old(log)) && own == old(own) + [step]
      ensures Enabled(before, step) && s == Next(before, step)
      ensures quiet ==> s == Next(old(s), step)
      ensures Sends(step) ==> SentTx(old(s), step) in s.sent
    {
      hide Next, Init, Run, Enabled, Inv, Grows, SentTx, Sends;
      Interfere();
      Since(old(s), old(log));
      EnabledStays(old(s), s, step);
      before := s;
      Do(step);
      if Sends(step) {
        SendStays(old(s), before, step);
        SendSends(before, step);
      }
    }

    // ----- the node

    /** Hands a transaction to the node; from now on it may be mined, whatever the reply says. */
    method Send(tx: Tx, step: Step) returns (r: SendReply)
      requires Valid() && Sends(step) && Enabled(s, step) && tx == SentTx(s, step)
      modifies this`s, this`log, this`own, this`heard
      ensures Later(old(s), old(log)) && own == old(own) + [step]
      ensures tx in s.sent
      ensures quiet ==> s == old(s).(sent := old(s).sent + {tx})
      ensures quiet && tx.intent.nonce < |MinedBy(old(s).mined, tx.intent.sender)| ==>
                r.RpcError? && Contains(r.msg, NONCE_LOW)
      ensures heard == old(heard) + [SendIs(tx, r)]
    {
      hide Run, Init, MinedBy, Enabled, Onward;
      var stale := tx.intent.nonce < |MinedBy(s.mined, tx.intent.sender)|;
      ghost var before := Act(step);
      if quiet {
        QuietSend(old(s), step);
      }
      if quiet && stale {
        var before: string, after: string := *, *;
        assert Contains(before + NONCE_LOW + after, NONCE_LOW) by {
          assert OccursAt(NONCE_LOW, NONCE_LOW, 0);
          ContainsGrows(NONCE_LOW, before, after, NONCE_LOW);
        }
        r := RpcError(before + NONCE_LOW + after);
      } else {
        r := *;
      }
      heard := heard + [SendIs(tx, r)];
    }

    method ReadChainNonce(a: Address) returns (r: Option<nat>)
      requires Valid()
      modifies this`s, this`log, this`heard
      ensures Later(old(s), old(log))
      ensures r.Some? ==> r.value == |MinedBy(s.mined, a)|
      ensures quiet ==> r.Some? && s == old(s)
      ensures heard == old(heard) + [NonceIs(a, r)]
    {
      Interfere();
      var answered: bool := *;
      r := if quiet || answered then Some(|MinedBy(s.mined, a)|) else None;
      heard := heard + [NonceIs(a, r)];
    }

    method ReadReceipt(h: Hash) returns (r: ReceiptReply)
      requires Valid()
      modifies this`s, this`log, this`heard
      ensures Later(old(s), old(log))
      ensures r.Receipt? ==> HashMined(s, h) && r.block == MinedAt(s, h).block && r.ok == MinedAt(s, h).ok
      ensures r.NoReceipt? ==> !HashMined(s, h)
      ensures quiet ==> !r.CallFailed? && s == old(s)
      ensures heard == old(heard) + [ReceiptIs(h, r)]
    {
      hide Run, Init, MinedBy, Onward;
      Interfere();
      var answered: bool := *;
      if !quiet && !answered {
        r := CallFailed;
      } else if HashMined(s, h) {
        r := Receipt(MinedAt(s, h).block, MinedAt(s, h).ok);
      } else {
        r := NoReceipt;
      }
      heard := heard + [ReceiptIs(h, r)];
    }

    /** The transactions of a block, in some order, other senders' included. */
    method ReadBlock(b: nat) returns (r: Option<seq<Tx>>)
      requires Valid()
      modifies this`s, this`log, this`heard
      ensures Later(old(s), old(log))
      ensures r.Some? ==> forall tx :: tx in r.value <==> tx in BlockTxs(s.mined, b)
      ensures quiet ==> r.Some? && s == old(s)
      ensures heard == old(heard) + [BlockIs(b, r)]
    {
      hide Run, Init, Onward;
      Interfere();
      var answered: bool := *;
      if !quiet && !answered {
        heard := heard + [BlockIs(b, None)];
        return None;
      }
      var all := BlockTxs(s.mined, b);
      hide BlockTxs;
      var rest, txs := all, [];
      ghost var before, log0, s0 := heard, log, s;
      while rest != {}
        invariant rest <= all && heard == before && log == log0 && s == s0
        invariant forall tx :: tx in txs <==> tx in all - rest
      {
        var tx :| tx in rest;
        txs := txs + [tx];
        rest := rest - {tx};
      }
      r := Some(txs);
      heard := heard + [BlockIs(b, r)];
    }

    /** The gas oracle's caps. */
    method GasSettings() returns (r: Option<(nat, nat)>)
      modifies this`heard
      ensures quiet ==> r.Some?
      ensures heard == old(heard) + [GasIs(r)]
    {
      var fee: nat, tip: nat, answered: bool := *, *, *;
      r := if quiet || answered then Some((fee, tip)) else None;
      heard := heard + [GasIs(r)];
    }

    // ----- the database

    /** A query or a lock that does not change anything. */
    method Database() returns (ok: bool)
      modifies this`heard
      ensures quiet ==> ok
      ensures heard == old(heard) + [DatabaseIs(ok)]
    {
      ok := *;
      ok := ok || quiet;
      heard := heard + [DatabaseIs(ok)];
    }

    /** Commits one write, unless the database fails. */
    method Write(step: Step) returns (ok: bool, ghost before: State)
      requires Valid() && StableStep(step) && Enabled(s, step)
      modifies this`s, this`log, this`own, this`heard
      ensures ok ==> Enabled(before, step) && s == Next(before, step)
      ensures Later(old(s), old(log)) && own == old(own) + if ok then [step] else []
      ensures quiet ==> ok && s == Next(old(s), step)
      ensures heard == old(heard) + [DatabaseIs(ok)]
    {
      hide Next, Run, Init, Enabled;
      var failed: bool := *;
      if !quiet && failed {
        before := s;
        Interfere();
        heard := heard + [DatabaseIs(false)];
        return false, before;
      }
      before := Act(step);
      ok := true;
      heard := heard + [DatabaseIs(true)];
    }

    /** UPDATE dispatch after a run of a dispatch job has sent its transaction. */
    method SetDispatched(id: nat, j: nat, status: Status) returns (ok: bool)
      requires Valid() && id in s.jobs && j < |s.jobs[id]| && s.jobs[id][j].raw in s.sent && status in DISPATCH_STATUSES
      modifies this`s, this`log, this`own, this`heard
      ensures Later(old(s), old(log)) && own == old(own) + if ok then [WriteDispatch(id, j, status)] else []
      ensures HasJob(s, id, j, old(s).jobs[id][j].raw) && (ok ==> s.jobs[id][j].wrote)
      ensures quiet ==> ok && s == Next(old(s), WriteDispatch(id, j, status))
      ensures heard == old(heard) + [DatabaseIs(ok)]
    {
      Known();
      JobFact(s, id);
      hide Next, Run, Init, Inv, Onward, Grows, Enabled, Reachable;
      assert Enabled(s, WriteDispatch(id, j, status)) by { JobCanWrite(s, id, j, status); }
      ghost var before;
      ok, before := Write(WriteDispatch(id, j, status));
      JobHeld(old(s), old(log), id, j);
      if ok {
        JobWrote(before, id, j, status);
      }
    }

    /** What River records when a run of a dispatch job returns. */
    method Finish(id: nat, j: nat, outcome: JobState)
      requires Valid() && id in s.jobs && j < |s.jobs[id]| && outcome != Available
      requires outcome in {Completed, Cancelled} ==> s.jobs[id][j].wrote
      modifies this`s, this`log, this`own
      ensures Later(old(s), old(log)) && own == old(own) + [FinishJob(id, j, outcome)]
      ensures quiet ==> s == Next(old(s), FinishJob(id, j, outcome))
    {
      hide Next, Run, Init;
      Interfere();
      Do(FinishJob(id, j, outcome));
    }

    lemma JobHeld(s0: State, log0: seq<Step>, id: nat, j: nat)
      requires Later(s0, log0) && id in s0.jobs && j < |s0.jobs[id]|
      ensures HasJob(s, id, j, s0.jobs[id][j].raw) && (s0.jobs[id][j].wrote ==> s.jobs[id][j].wrote)
    {
      hide Inv, Grows, Run, Init;
      Since(s0, log0);
      JobStays(s0, s, id);
    }

    /** UPDATE dispatch to IN_NETWORK after a send of `row`. */
    method SetInNetwork(row: OtxRow) returns (ok: bool)
      requires Valid() && row in s.versions && row.raw in s.sent
      modifies this`s, this`log, this`own, this`heard
      ensures Later(old(s), old(log)) && own == old(own) + if ok then [MarkInNetwork(row)] else []
      ensures ok ==> StatusesOf(s, row.id) == [IN_NETWORK]
      ensures quiet ==> ok && s == Next(old(s), MarkInNetwork(row))
      ensures heard == old(heard) + [DatabaseIs(ok)]
    {
      Known();
      hide Next, Run, Init, Inv, Onward, Enabled, StatusesOf;
      HeldCanWrite(s, row);
      ghost var before;
      ok, before := Write(MarkInNetwork(row));
      if ok {
        Known();
        MarkWritten(before, row);
      }
    }

    /** UPDATE dispatch to the status of the receipt of the hash that `row` holds. */
    method SetReceiptStatus(row: OtxRow, status: Status) returns (ok: bool)
      requires Valid() && row in s.versions && HashMined(s, row.hash) && status == ReceiptStatus(MinedAt(s, row.hash))
      modifies this`s, this`log, this`own, this`heard
      ensures Later(old(s), old(log)) && own == old(own) + if ok then [WriteReceipt(row)] else []
      ensures ok ==> StatusesOf(s, row.id) == [status]
      ensures quiet ==> ok && s == Next(old(s), WriteReceipt(row))
      ensures heard == old(heard) + [DatabaseIs(ok)]
    {
      Known();
      hide Next, Run, Init, Inv, Onward, MinedBy, Enabled, HashMined, StatusesOf;
      HeldCanWrite(s, row);
      ghost var before;
      ok, before := Write(WriteReceipt(row));
      StillHeld(old(s), old(log), row);
      if ok {
        ReceiptWritten(before, row);
      }
    }

    /** UPDATE otx and dispatch with the transaction found at the nonce of `row`. */
    method SetRecovered(row: OtxRow, hash: Hash, status: Status) returns (ok: bool)
      requires Valid() && row in s.versions && row.nonce < |MinedBy(s.mined, row.account)|
      requires hash == HashOf(MinedBy(s.mined, row.account)[row.nonce].tx)
      requires status == ReceiptStatus(MinedBy(s.mined, row.account)[row.nonce])
      modifies this`s, this`log, this`own, this`heard
      ensures Later(old(s), old(log)) && own == old(own) + if ok then [WriteRecovered(row)] else []
      ensures ok ==> row.id in s.otx && s.otx[row.id].hash == hash && StatusesOf(s, row.id) == [status]
      ensures quiet ==> ok && s == Next(old(s), WriteRecovered(row))
      ensures heard == old(heard) + [DatabaseIs(ok)]
    {
      Known();
      hide Next, Run, Init, Inv, Onward, MinedBy, Enabled, StatusesOf;
      HeldCanWrite(s, row);
      ghost var before;
      ok, before := Write(WriteRecovered(row));
      StillHeld(old(s), old(log), row);
      if ok {
        RecoveryWritten(before, row);
      }
    }

    /** UPDATE otx with the re-signed transaction, and dispatch to IN_NETWORK. */
    method SetResigned(row: OtxRow, tx: Tx, fee: nat, tip: nat) returns (ok: bool)
      requires Valid() && row in s.versions && tx == Resigned(row.raw, fee, tip) && tx in s.sent
      modifies this`s, this`log, this`own, this`heard
      ensures Later(old(s), old(log)) && own == old(own) + if ok then [WriteResigned(row, fee, tip)] else []
      ensures ok ==>
                row.id in s.otx && s.otx[row.id].raw == tx && s.otx[row.id].hash == HashOf(tx)
                  && StatusesOf(s, row.id) == [IN_NETWORK]
      ensures quiet ==> ok && s == Next(old(s), WriteResigned(row, fee, tip))
      ensures heard == old(heard) + [DatabaseIs(ok)]
    {
      Known();
      hide Next, Run, Init, Inv, Onward, Enabled, StatusesOf;
      HeldCanResign(s, row, fee, tip);
      ghost var before;
      ok, before := Write(WriteResigned(row, fee, tip));
      if ok {
        Known();
        ResignWritten(before, row, fee, tip);
      }
    }

    /** The first 100 stuck otxs; `aged` are those left alone for long enough by the clock. */
    method ReadStuck(aged: set<nat>) returns (r: Option<seq<OtxRow>>)
      requires Valid()
      modifies this`s, this`log, this`heard
      ensures Later(old(s), old(log))
      ensures r.Some? ==> IsPage(s, StuckIds(s, aged), r.value)
      ensures quiet ==> r.Some? && s == old(s)
      ensures heard == old(heard) + [RowsAre(r)]
    {
      hide Run, Init, Onward, Inv, Reachable, IsPage;
      Interfere();
      var answered: bool := *;
      if !quiet && !answered {
        heard := heard + [RowsAre(None)];
        return None;
      }
      Known();
      var db := s;
      var rows := SelectPage(db, StuckIds(db, aged));
      r := Some(rows);
      heard := heard + [RowsAre(r)];
    }

    /** The first 100 failed otxs. */
    method ReadFailed() returns (r: Option<seq<OtxRow>>)
      requires Valid()
      modifies this`s, this`log, this`heard
      ensures Later(old(s), old(log))
      ensures r.Some? ==> IsPage(s, FailedIds(s), r.value)
      ensures quiet ==> r.Some? && s == old(s)
      ensures heard == old(heard) + [RowsAre(r)]
    {
      hide Run, Init, Onward, Inv, Reachable, IsPage;
      Interfere();
      var answered: bool := *;
      if !quiet && !answered {
        heard := heard + [RowsAre(None)];
        return None;
      }
      Known();
      var db := s;
      var rows := SelectPage(db, FailedIds(db));
      r := Some(rows);
      heard := heard + [RowsAre(r)];
    }

    /** One transaction with a status update per row; nothing is visible before its commit. */
    method SetReceiptStatuses(rows: seq<OtxRow>) returns (ok: bool)
      requires Valid() && forall row :: row in rows ==> row in s.versions && HashMined(s, row.hash)
      modifies this`s, this`log, this`own, this`heard
      ensures Later(old(s), old(log)) && own == old(own) + if ok then Receipts(rows) else []
      ensures quiet ==> ok && s == Run(old(s), Receipts(rows))
      ensures heard == old(heard) + [DatabaseIs(ok)]
    {
      hide Next, Run, Init, Inv, Onward, MinedBy, Enabled, HashMined, Receipts, Reachable;
      var failed: bool := *;
      Interfere();
      if !quiet && failed {
        heard := heard + [DatabaseIs(false)];
        return false;
      }
      ghost var s1 := s;
      NoReceipts(s1);
      for i := 0 to |rows|
        invariant Later(old(s), old(log)) && own == old(own) + Receipts(rows[..i])
        invariant s == Run(s1, Receipts(rows[..i])) && heard == old(heard)
      {
        Do(WriteReceipt(rows[i]));
        assert rows[..i + 1][..i] == rows[..i];
        ReceiptsGrow(s1, rows[..i + 1]);
      }
      assert rows[..|rows|] == rows;
      ok := true;
      heard := heard + [DatabaseIs(true)];
    }

    /** The row that stores a hash: the lookup by hash is single-valued. */
    method ReadByHash(h: Hash) returns (failed: bool, r: Option<OtxRow>)
      requires Valid()
      modifies this`s, this`log, this`heard
      ensures Later(old(s), old(log))
      ensures !failed && r.Some? ==> r.value.id in s.otx && s.otx[r.value.id] == r.value && r.value.hash == h
      ensures !failed && r.None? ==> forall o :: o in s.otx ==> s.otx[o].hash != h
      ensures quiet ==> !failed && s == old(s)
      ensures heard == old(heard) + [RowIs(failed, r)]
    {
      hide Run, Init, Onward, Inv, Reachable;
      Interfere();
      failed := *;
      failed := failed && !quiet;
      if exists o :: o in s.otx && s.otx[o].hash == h {
        var o :| o in s.otx && s.otx[o].hash == h;
        Known();
        IdOf(s, o);
        r := Some(s.otx[o]);
      } else {
        r := None;
      }
      heard := heard + [RowIs(failed, r)];
    }

    /** One transaction that may activate a key, and updates one status. */
    method SetEventStatus(row: OtxRow, status: Status, key: Option<Address>) returns (ok: bool)
      requires Valid() && row in s.versions && HashMined(s, row.hash) && status == ReceiptStatus(MinedAt(s, row.hash))
      modifies this`s, this`log, this`own, this`heard
      ensures Later(old(s), old(log)) && own == old(own) + if ok then EventSteps(row, key) else []
      ensures quiet ==> ok && s == Run(old(s), EventSteps(row, key))
      ensures heard == old(heard) + [DatabaseIs(ok)]
    {
      hide Next, Run, Init, Inv, Onward, MinedBy, Enabled, HashMined, Reachable;
      var failed: bool := *;
      Interfere();
      if !quiet && failed {
        heard := heard + [DatabaseIs(false)];
        return false;
      }
      ghost var s1 := s;
      if key.Some? {
        Do(Activate(key.value));
      }
      Do(WriteReceipt(row));
      EventRuns(s1, row, key);
      ok := true;
      heard := heard + [DatabaseIs(true)];
    }

    /** The row of `a` with nonce `n` that is SUCCESS, if any; a failed query looks the same as none. */
    method ReadAnchor(a: Address, n: nat) returns (r: Option<Hash>)
      requires Valid()
      modifies this`s, this`log, this`heard
      ensures Later(old(s), old(log))
      ensures r.Some? ==> exists o :: IsAnchor(s, o, a, n) && s.otx[o].hash == r.value
      ensures quiet ==> s == old(s) && (r.None? ==> forall o :: !IsAnchor(s, o, a, n))
      ensures heard == old(heard) + [AnchorIs(a, n, r)]
    {
      hide Run, Init, Onward;
      Interfere();
      var answered: bool := *;
      if (quiet || answered) && exists o :: o in s.otx && IsAnchor(s, o, a, n) {
        var o :| o in s.otx && IsAnchor(s, o, a, n);
        r := Some(s.otx[o].hash);
      } else {
        r := None;
      }
      heard := heard + [AnchorIs(a, n, r)];
    }

    /** SELECT ... ORDER BY nonce ASC */
    method ReadListing(a: Address, from: nat, alsoOpen: bool) returns (r: Option<seq<OtxRow>>)
      requires Valid()
      modifies this`s, this`log, this`heard
      ensures Later(old(s), old(log))
      ensures r.Some? ==> IsListing(s, r.value, a, from, alsoOpen)
      ensures quiet ==> r.Some? && s == old(s)
      ensures heard == old(heard) + [RowsAre(r)]
    {
      hide Run, Init, Onward, Inv, Reachable;
      Interfere();
      var answered: bool := *;
      if !quiet && !answered {
        heard := heard + [RowsAre(None)];
        return None;
      }
      Known();
      var db := s;
      var rows := Select(db, a, from, alsoOpen);
      r := Some(rows);
      heard := heard + [RowsAre(r)];
    }
  }
}
