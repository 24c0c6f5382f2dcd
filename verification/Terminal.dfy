/** Terminal statuses over single steps: what can take SUCCESS away, that it really happens, and what never appears. */
module Terminal {
  import opened Types
  import opened Fees
  import opened Lifecycle
  import opened Invariant
  import opened Preservation
  import opened Growth
  import opened Theorems
  import opened Runs

  /** The writes that put a non-terminal status on an otx, whatever it had before. */
  predicate Overwrites(step: Step, o: nat) {
    || (step.WriteDispatch? && step.id == o)
    || (step.MarkInNetwork? && step.row.id == o)
    || (step.WriteResigned? && step.row.id == o)
  }

  lemma NextLeads(s: State, step: Step)
    requires Reachable(s)
    ensures Leads(s, Next(s, step)) && Reachable(Next(s, step))
  {
    hide Inv, Next, Reachable, Grows;
    RunOne(s, step);
    LeadsKeeps(s, Next(s, step));
  }

  /** The status a step writes, and the otx it writes it on. */
  function Written(s: State, step: Step): Option<(nat, Status)>
    requires Enabled(s, step)
  {
    match step
    case WriteDispatch(id, _, status) => Some((id, status))
    case MarkInNetwork(v) => Some((v.id, IN_NETWORK))
    case WriteResigned(v, _, _) => Some((v.id, IN_NETWORK))
    case WriteReceipt(v) => Some((v.id,
                                  ReceiptStatus(MinedBy(s.mined, v.hash.tx.intent.sender)[v.hash.tx.intent.nonce])))
    case WriteRecovered(v) => Some((v.id, ReceiptStatus(MinedBy(s.mined, v.account)[v.nonce])))
    case _ => None
  }

  lemma OnlyWrittenChanges(s: State, step: Step)
    requires Enabled(s, step) && !step.Commit?
    ensures var t := Next(s, step);
            match Written(s, step)
            case None => t.dispatch == s.dispatch
            case Some((id, status)) => id in s.dispatch && t.dispatch == SetStatus(s.dispatch, id, status)
  {
    hide SetStatus, SetJob, EnqueueAll, Insert, CommitTx, Foreign, HashMined, MinedBy, ReceiptStatus, Resigned, NewRow;
  }

  lemma OneStatus(s: State, o: nat)
    requires Inv(s) && o in s.dispatch
    ensures |s.dispatch[o]| == 1
  {
    hide GapFree, LiveOk, SentOk, ChainOk, StatusOk, JobsOk, NewKeysUnused, VersionOk;
  }

  lemma CommitKeepsStatus(s: State, t: nat, o: nat)
    requires Inv(s) && o in s.otx && Enabled(s, Commit(t))
    ensures StatusesOf(Next(s, Commit(t)), o) == StatusesOf(s, o)
  {
    CommitIs(s, t);
    hide Inv, Enabled, Apply, CommitTx, IdsAppend, Table;
    CommitIds(s, t);
    CommitShape(s, t);
  }

  /** A step leaves on an otx the status it writes there, or the one it had. */
  lemma StatusAfter(s: State, step: Step, o: nat)
    requires Inv(s) && o in s.otx && Enabled(s, step)
    ensures o in s.dispatch && |s.dispatch[o]| == 1
    ensures StatusesOf(Next(s, step), o) ==
            if !step.Commit? && Written(s, step).Some? && Written(s, step).value.0 == o then [Written(s, step).value.1]
              else StatusesOf(s, o)
  {
    hide Inv, Enabled, Apply, Written, VersionOk;
    CurrentVersionFact(s, o);
    if step.Commit? {
      CommitKeepsStatus(s, step.t, o);
    } else {
      hide Next, SetStatus;
      OnlyWrittenChanges(s, step);
      if Written(s, step).Some? {
        SetOnly(s.dispatch, Written(s, step).value.0, Written(s, step).value.1, o);
      }
    }
  }

  lemma SetOnly(dispatch: map<nat, seq<Status>>, id: nat, status: Status, o: nat)
    requires id in dispatch && o in dispatch && |dispatch[o]| == 1
    ensures SetStatus(dispatch, id, status).Keys == dispatch.Keys
    ensures SetStatus(dispatch, id, status)[o] == if o == id then [status] else dispatch[o]
  {
  }

  lemma WrittenIs(s: State, step: Step, o: nat)
    requires Enabled(s, step)
    ensures Overwrites(step, o) ==>
              Written(s, step).Some? && Written(s, step).value.0 == o
                && Written(s, step).value.1 !in {SUCCESS, REVERTED}
    ensures Written(s, step).Some? && Written(s, step).value.0 == o && !Overwrites(step, o) ==>
              Written(s, step).value.1 in {SUCCESS, REVERTED}
    ensures Written(s, step).Some? ==> !step.Commit? && Written(s, step).value.1 != EXTERNAL_DISPATCH
  {
    hide MinedBy, HashMined;
  }

  /** A step takes SUCCESS away exactly when it is a dispatch, in-network or re-sign write on that very otx. */
  lemma SuccessStaysIff(s: State, step: Step, o: nat)
    requires Reachable(s) && o in s.otx && StatusesOf(s, o) == [SUCCESS]
    ensures StatusesOf(Next(s, step), o) == [SUCCESS] <==> !(Enabled(s, step) && Overwrites(step, o))
  {
    ReachableInv(s);
    NextLeads(s, step);
    hide Inv, Enabled, Apply, Reachable, Leads, StatusesOf, Written, Overwrites;
    if Enabled(s, step) {
      StatusAfter(s, step, o);
      WrittenIs(s, step, o);
      if StatusesOf(Next(s, step), o) == [REVERTED] {
        TerminalStatusesAgree(s, Next(s, step), o, SUCCESS, REVERTED);
      }
    }
  }

  // ----- EXTERNAL_DISPATCH: terminal for the queries, and never written

  ghost predicate NoExternal(dispatch: map<nat, seq<Status>>) {
    forall o :: o in dispatch ==> EXTERNAL_DISPATCH !in dispatch[o]
  }

  lemma NoExternalStays(s: State, step: Step)
    requires Inv(s) && NoExternal(s.dispatch)
    ensures NoExternal(Next(s, step).dispatch)
  {
    hide Inv, Apply, Enabled, Written, NoExternal;
    if Enabled(s, step) {
      if step.Commit? {
        CommitAddsPending(s, step.t);
      } else {
        OnlyWrittenChanges(s, step);
        WrittenIs(s, step, 0);
        WriteKeepsOut(s.dispatch, Next(s, step).dispatch, Written(s, step));
      }
    }
  }

  lemma WriteKeepsOut(dispatch: map<nat, seq<Status>>, dispatch': map<nat, seq<Status>>, w: Option<(nat, Status)>)
    requires NoExternal(dispatch) && (w.Some? ==> w.value.1 != EXTERNAL_DISPATCH && w.value.0 in dispatch)
    requires dispatch' == if w.None? then dispatch else SetStatus(dispatch, w.value.0, w.value.1)
    ensures NoExternal(dispatch')
  {
  }

  lemma CommitAddsPending(s: State, t: nat)
    requires Inv(s) && NoExternal(s.dispatch) && Enabled(s, Commit(t))
    ensures NoExternal(Next(s, Commit(t)).dispatch)
  {
    CommitIs(s, t);
    hide Inv, Enabled, Apply, CommitTx;
    CommitShape(s, t);
    LivePending(s, t);
    PendingAdded(s.dispatch, s.live[t].dispatch);
  }

  lemma PendingAdded(dispatch: map<nat, seq<Status>>, added: map<nat, seq<Status>>)
    requires NoExternal(dispatch) && forall d :: d in added ==> added[d] == [PENDING]
    ensures NoExternal(dispatch + added)
  {
  }

  lemma LivePending(s: State, t: nat)
    requires Inv(s) && t in s.live
    ensures forall d :: d in s.live[t].dispatch ==> s.live[t].dispatch[d] == [PENDING]
  {
    LiveHolds(s, t);
    hide Inv, Table, OneJobPerRow;
  }

  lemma LiveHolds(s: State, t: nat)
    requires Inv(s) && t in s.live
    ensures LiveTables(s.live[t])
  {
    hide GapFree, RowsOk, SentOk, ChainOk, StatusOk, JobsOk, NewKeysUnused, Separate, LiveTables, RowSigned;
    assert LiveTxOk(s.next, s.idSeq, s.otx, s.live[t]);
  }

  lemma {:induction false} NoExternalRun(s: State, steps: seq<Step>)
    requires Inv(s) && NoExternal(s.dispatch)
    ensures NoExternal(Run(s, steps).dispatch)
    decreases |steps|
  {
    if steps != [] {
      hide Inv, Next, NoExternal, Grows;
      RunKeeps(s, steps[..|steps| - 1]);
      NoExternalRun(s, steps[..|steps| - 1]);
      NoExternalStays(Run(s, steps[..|steps| - 1]), steps[|steps| - 1]);
    }
  }

  /** No process ever enters EXTERNAL_DISPATCH, although the table allows it and the queries treat it as terminal. */
  lemma ExternalNeverEntered(s: State, o: nat)
    requires Reachable(s)
    ensures EXTERNAL_DISPATCH !in StatusesOf(s, o)
  {
    hide Inv, Run;
    var s0, steps :| Init(s0) && Run(s0, steps) == s;
    InitInv(s0);
    NoExternalRun(s0, steps);
  }

  // ----- a run that loses SUCCESS

  const SIGNED := Signed(FRESH, PAYER)
  const SETTLED := Settled(SIGNED, PAYER, 0, 1)

  lemma LateWrite()
    ensures StatusesOf(SETTLED, 1) == [SUCCESS]
    ensures StatusesOf(Next(SETTLED, WriteDispatch(1, 0, IN_NETWORK)), 1) == [IN_NETWORK]
  {
    assert SETTLED.jobs[1][0].raw == Payment(PAYER, 0);
    assert Enabled(SETTLED, WriteDispatch(1, 0, IN_NETWORK));
  }

  /** From a fresh service, one payment signed, sent, mined and settled: SUCCESS is written, and then lost to the
      dispatch job's own late write. */
  lemma SuccessIsLost()
    ensures var settling := SignSteps(PAYER) + SettleSteps(PAYER, 0, 1);
            && Init(FRESH) && StatusesOf(Run(FRESH, settling), 1) == [SUCCESS]
            && StatusesOf(Run(FRESH, settling + [WriteDispatch(1, 0, IN_NETWORK)]), 1) == [IN_NETWORK]
  {
    FreshIsInit();
    LateWrite();
    IsJustSigned(FRESH, PAYER);
    hide Next, Init, Run, Signed, Settled, JustSigned;
    SignsPayment(FRESH, PAYER);
    SettlesPayment(SIGNED, PAYER, 0, 1);
    var settling := SignSteps(PAYER) + SettleSteps(PAYER, 0, 1);
    RunAppend(FRESH, SignSteps(PAYER), SettleSteps(PAYER, 0, 1));
    RunAppend(FRESH, settling, [WriteDispatch(1, 0, IN_NETWORK)]);
    RunOne(SETTLED, WriteDispatch(1, 0, IN_NETWORK));
  }
}
