/** The dispatch worker: one send attempt, its status committed before the job is cancelled or retried. */
module Dispatch {
  import opened Types
  import opened Lifecycle
  import opened Invariant
  import opened Preservation
  import opened Theorems
  import opened RpcErrors
  import opened Stability
  import opened World

  /** What a run of the job tells River. */
  datatype JobResult = Done | Retry | Cancel

  /** The status a reply stands for, by the node's own words; a transport error that is not a network
      error stands for none. */
  function StatusFor(r: SendReply): (st: Option<Status>)
    ensures st.Some? ==> st.value in DISPATCH_STATUSES && st.value in STATUS_TABLE
  {
    match r
    case Accepted => Some(IN_NETWORK)
    case CallError(_) => Some(IN_NETWORK)
    case RpcError(msg) =>
      Some(if Contains(msg, FUNDS) then NO_GAS
           else if Contains(msg, REPLACEMENT) then REPLACEMENT_UNDERPRICED
           else if Contains(msg, UNDERPRICED) || Contains(msg, FEE_CAP) then LOW_GAS_PRICE
           else if Contains(msg, NONCE_LOW) then LOW_NONCE
           else IN_NETWORK)
    case TransportError(msg, transport) => if transport || Contains(msg, TIMEOUT) then Some(NETWORK_ERROR) else None
  }

  /** IN_NETWORK does not mean that the node took the transaction: it is also what is written for every
      call error without one of the known phrases. */
  lemma InNetworkIff(r: SendReply)
    ensures StatusFor(r) == Some(IN_NETWORK) <==>
            r.Accepted? || r.CallError? || (r.RpcError? && forall p :: p in PHRASES ==> !Contains(r.msg, p))
  {
    if r.RpcError? && Contains(r.msg, REPLACEMENT) {
      LongerContainsShorter(r.msg);
    }
  }

  /** What a node of the go-ethereum family says to a transaction that is in its pool. */
  const ALREADY_KNOWN := "already known"

  /** A node that rejects a duplicate with these words is taken to have accepted it. */
  lemma RejectionsPass()
    ensures StatusFor(RpcError(ALREADY_KNOWN)) == StatusFor(Accepted)
  {
    NoPhraseInKnown();
    InNetworkIff(RpcError(ALREADY_KNOWN));
  }

  lemma NoPhraseInKnown()
    ensures forall p :: p in PHRASES ==> !Contains(ALREADY_KNOWN, p)
  {
    forall p, i: nat | p in PHRASES ensures !OccursAt(ALREADY_KNOWN, p, i) {
      assert |p| >= |ALREADY_KNOWN| && p[0] != ALREADY_KNOWN[0];
    }
  }

  /** What a run does and reports for each reply, unless the database or the queue fails it. */
  function Steps(id: nat, j: nat, r: SendReply): seq<Step> {
    [SendJob(id, j)] + if StatusFor(r).Some? then [WriteDispatch(id, j, StatusFor(r).value)] else []
  }

  function Result(r: SendReply): JobResult {
    if StatusFor(r) == Some(IN_NETWORK) then Done
    else if StatusFor(r) in {None, Some(NETWORK_ERROR)} then Retry
    else Cancel
  }

  /** A failed run is retried and has done less; it never reports more than it has committed. */
  predicate DispatchTrace(id: nat, j: nat, reply: Option<SendReply>, steps: seq<Step>, result: JobResult,
                          failed: bool) {
    match reply
    case None => failed && steps == [] && result == Retry
    case Some(r) =>
      if failed then result == Retry && (steps == [SendJob(id, j)] || steps == Steps(id, j, r))
      else steps == Steps(id, j, r) && result == Result(r)
  }

  /** The error of a send; an unclassified JSON-RPC error and any other call error count as success. */
  method SendRawTx(w: World, id: nat, j: nat, raw: Tx) returns (err: Option<GoError>, ghost reply: SendReply)
    requires w.Valid() && HasJob(w.s, id, j, raw)
    modifies w
    ensures w.Later(old(w.s), old(w.log)) && w.own == old(w.own) + [SendJob(id, j)] && raw in w.s.sent
    ensures w.heard == old(w.heard) + [SendIs(raw, reply)]
    ensures w.quiet ==> w.s == old(w.s).(sent := old(w.s).sent + {raw})
    ensures err.None? <==> StatusFor(reply) == Some(IN_NETWORK)
    ensures err.Some? && err.value.Dispatch? ==>
              StatusFor(reply) == Some(match err.value.err
                                       case InsufficientGas => NO_GAS
                                       case GasPriceTooLow => LOW_GAS_PRICE
                                       case NonceTooLow => LOW_NONCE
                                       case ReplacementTxUnderpriced => REPLACEMENT_UNDERPRICED
                                       case Network => NETWORK_ERROR)
    ensures err.Some? && err.value.Plain? ==> StatusFor(reply) == None
  {
    hide Contains, MinedBy, Run, Init, Enabled, Sends, SentTx;
    JobCanSend(w.s, id, j, raw);
    var r := w.Send(raw, SendJob(id, j));
    reply := r;
    err := None;
    match r
    case Accepted =>
    case CallError(_) =>
    case RpcError(msg) =>
      var jsonRpcError := HandleJsonRpcError(msg);
      if jsonRpcError.Some? {
        err := Some(GoError.Dispatch(jsonRpcError.value, msg));
      }
    case TransportError(msg, transport) =>
      err := Some(HandleNetworkError(msg, transport));
  }

  /** The replies of a run from position `n` on: the begin of its database transaction, then the send. */
  predicate RunHeard(heard: seq<Reply>, n: nat, raw: Tx, reply: Option<SendReply>) {
    && n < |heard| && heard[n] == DatabaseIs(reply.Some?)
    && (reply.Some? ==> n + 1 < |heard| && heard[n + 1] == SendIs(raw, reply.value))
  }

  /** What a run that nothing failed writes and reports, by the node's words. */
  lemma RunByWords(id: nat, j: nat, r: SendReply, steps: seq<Step>, result: JobResult)
    requires DispatchTrace(id, j, Some(r), steps, result, false)
    ensures r.Accepted? || r.CallError? || (r.RpcError? && OtherWords(r.msg)) ==>
              steps == [SendJob(id, j), WriteDispatch(id, j, IN_NETWORK)] && result == Done
    ensures r.RpcError? && FundsWords(r.msg) ==>
              steps == [SendJob(id, j), WriteDispatch(id, j, NO_GAS)] && result == Cancel
    ensures r.RpcError? && PriceWords(r.msg) && !Contains(r.msg, "insufficient funds for gas") ==>
              && result == Cancel
              && steps == [SendJob(id, j),
                           WriteDispatch(id, j, if Contains(r.msg, "replacement transaction underpriced")
                                                then REPLACEMENT_UNDERPRICED else LOW_GAS_PRICE)]
    ensures r.RpcError? && Contains(r.msg, "nonce too low") && !Contains(r.msg, "insufficient funds for gas")
            && !Contains(r.msg, "replacement transaction underpriced") && !Contains(r.msg, "transaction underpriced")
            && !Contains(r.msg, "gas fee cap is below the minimum base fee") ==>
              steps == [SendJob(id, j), WriteDispatch(id, j, LOW_NONCE)] && result == Cancel
    ensures r.TransportError? ==>
              && result == Retry
              && steps == if r.transport || Contains(r.msg, "timeout")
                          then [SendJob(id, j), WriteDispatch(id, j, NETWORK_ERROR)] else [SendJob(id, j)]
  {
    hide Contains;
  }

  lemma NotBegun(id: nat, j: nat)
    ensures DispatchTrace(id, j, None, [], Retry, true)
  {
  }

  lemma Unwritten(id: nat, j: nat, r: SendReply, failed: bool)
    requires failed || StatusFor(r).None?
    ensures DispatchTrace(id, j, Some(r), [SendJob(id, j)], Retry, failed)
  {
  }

  lemma Written(id: nat, j: nat, r: SendReply, status: Status)
    requires StatusFor(r) == Some(status)
    ensures DispatchTrace(id, j, Some(r), [SendJob(id, j), WriteDispatch(id, j, status)], Retry, true)
    ensures status == NETWORK_ERROR ==>
              DispatchTrace(id, j, Some(r), [SendJob(id, j), WriteDispatch(id, j, status)], Retry, false)
    ensures status in {LOW_GAS_PRICE, NO_GAS, LOW_NONCE, REPLACEMENT_UNDERPRICED} ==>
              DispatchTrace(id, j, Some(r), [SendJob(id, j), WriteDispatch(id, j, status)], Cancel, false)
    ensures status == IN_NETWORK ==>
              DispatchTrace(id, j, Some(r), [SendJob(id, j), WriteDispatch(id, j, status)], Done, false)
  {
  }

  method Work(w: World, id: nat, j: nat, raw: Tx)
    returns (result: JobResult, ghost reply: Option<SendReply>, ghost did: seq<Step>)
    requires w.Valid() && HasJob(w.s, id, j, raw)
    modifies w
    ensures w.Later(old(w.s), old(w.log)) && w.own == old(w.own) + did && old(w.heard) <= w.heard
    ensures RunHeard(w.heard, |old(w.heard)|, raw, reply)
    ensures DispatchTrace(id, j, reply, did, result, !AllAnswered(old(w.heard), w.heard))
    ensures HasJob(w.s, id, j, raw) && (result != Retry ==> w.s.jobs[id][j].wrote)
    ensures w.quiet ==> AllAnswered(old(w.heard), w.heard)
    ensures w.quiet && StatusFor(reply.value).Some? ==> StatusesOf(w.s, id) == [StatusFor(reply.value).value]
  {
    hide Run, Init, StatusFor, Next, AllAnswered, Answered, DispatchTrace, Result, Steps, StatusesOf;
    reply, did := None, [];
    NothingAsked(w.heard);
    var begun := w.Database();
    ghost var heard1 := w.heard;
    OneMoreAnswer(old(w.heard), old(w.heard), DatabaseIs(begun));
    if !begun {
      NotBegun(id, j);
      return Retry, reply, did;
    }
    var err;
    ghost var r;
    err, r := SendRawTx(w, id, j, raw);
    OneMoreAnswer(old(w.heard), heard1, SendIs(raw, r));
    w.JobHeld(old(w.s), old(w.log), id, j);
    ghost var heard2, more := w.heard, [];
    result, more := Record(w, id, j, raw, err, r);
    AnsweredBetween(old(w.heard), heard2, w.heard);
    reply, did := Some(r), [SendJob(id, j)] + more;
  }

  /** After the send: the status is written and committed, and only then the job is cancelled or retried. */
  method Record(w: World, id: nat, j: nat, raw: Tx, err: Option<GoError>, ghost r: SendReply)
    returns (result: JobResult, ghost did: seq<Step>)
    requires w.Valid() && HasJob(w.s, id, j, raw) && raw in w.s.sent
    requires err.None? <==> StatusFor(r) == Some(IN_NETWORK)
    requires err.Some? && err.value.Dispatch? ==>
               StatusFor(r) == Some(match err.value.err
                                    case InsufficientGas => NO_GAS
                                    case GasPriceTooLow => LOW_GAS_PRICE
                                    case NonceTooLow => LOW_NONCE
                                    case ReplacementTxUnderpriced => REPLACEMENT_UNDERPRICED
                                    case Network => NETWORK_ERROR)
    requires err.Some? && err.value.Plain? ==> StatusFor(r) == None
    modifies w
    ensures w.Later(old(w.s), old(w.log)) && w.own == old(w.own) + did && old(w.heard) <= w.heard
    ensures DispatchTrace(id, j, Some(r), [SendJob(id, j)] + did, result, !AllAnswered(old(w.heard), w.heard))
    ensures HasJob(w.s, id, j, raw) && (result != Retry ==> w.s.jobs[id][j].wrote)
    ensures w.quiet ==> AllAnswered(old(w.heard), w.heard)
    ensures w.quiet && StatusFor(r).Some? ==> StatusesOf(w.s, id) == [StatusFor(r).value]
  {
    hide Run, Init, StatusFor, Next, AllAnswered, Answered, DispatchTrace, Result, Steps, StatusesOf;
    did := [];
    assert [SendJob(id, j)] + did == [SendJob(id, j)];
    NothingAsked(w.heard);
    var status := UNKNOWN_ERROR;
    if err.Some? {
      if err.value.Plain? {
        Unwritten(id, j, r, !AllAnswered(old(w.heard), w.heard));
        return Retry, did;
      }
      if err.value.err == Network {
        status := NETWORK_ERROR;
      } else {
        match err.value.err
        case GasPriceTooLow => status := LOW_GAS_PRICE;
        case InsufficientGas => status := NO_GAS;
        case NonceTooLow => status := LOW_NONCE;
        case ReplacementTxUnderpriced => status := REPLACEMENT_UNDERPRICED;
      }
      var written := Commit(w, id, j, status, r);
      ghost var heard1 := w.heard;
      OneMoreAnswer(old(w.heard), old(w.heard), DatabaseIs(written));
      if !written {
        Unwritten(id, j, r, true);
        return Retry, did;
      }
      did := [WriteDispatch(id, j, status)];
      assert [SendJob(id, j)] + did == [SendJob(id, j), WriteDispatch(id, j, status)];
      Written(id, j, r, status);
      if err.value.err == Network {
        return Retry, did;
      }
      var queued := w.Database();
      OneMoreAnswer(old(w.heard), heard1, DatabaseIs(queued));
      if !queued {
        return Retry, did;
      }
      return Cancel, did;
    }
    status := IN_NETWORK;
    var written := Commit(w, id, j, status, r);
    OneMoreAnswer(old(w.heard), old(w.heard), DatabaseIs(written));
    if !written {
      Unwritten(id, j, r, true);
      return Retry, did;
    }
    did := [WriteDispatch(id, j, status)];
    assert [SendJob(id, j)] + did == [SendJob(id, j), WriteDispatch(id, j, status)];
    Written(id, j, r, status);
    return Done, did;
  }

  /** UpdateDispatchTxStatus and the commit after it. */
  method Commit(w: World, id: nat, j: nat, status: Status, ghost r: SendReply) returns (ok: bool)
    requires w.Valid() && id in w.s.jobs && j < |w.s.jobs[id]| && w.s.jobs[id][j].raw in w.s.sent
    requires StatusFor(r) == Some(status)
    modifies w
    ensures w.Later(old(w.s), old(w.log)) && w.own == old(w.own) + if ok then [WriteDispatch(id, j, status)] else []
    ensures HasJob(w.s, id, j, old(w.s).jobs[id][j].raw) && (ok ==> w.s.jobs[id][j].wrote)
    ensures w.heard == old(w.heard) + [DatabaseIs(ok)]
    ensures w.quiet ==> ok && StatusesOf(w.s, id) == [status]
  {
    w.Known();
    JobSets(w.s, id, j, status);
    hide Run, Init, Next, Inv, Reachable;
    ok := w.SetDispatched(id, j, status);
  }

  lemma JobSets(s: State, id: nat, j: nat, status: Status)
    requires Inv(s) && id in s.jobs && j < |s.jobs[id]| && s.jobs[id][j].raw in s.sent && status in DISPATCH_STATUSES
    ensures StatusesOf(Next(s, WriteDispatch(id, j, status)), id) == [status]
  {
    JobFact(s, id);
    hide Inv;
    JobCanWrite(s, id, j, status);
  }

  /** River's side: a job completes or is cancelled only on the word of a run that committed a status. */
  method RunJob(w: World, id: nat, j: nat, raw: Tx, attemptsLeft: bool)
    returns (ghost reply: Option<SendReply>, ghost did: seq<Step>, ghost result: JobResult)
    requires w.Valid() && HasJob(w.s, id, j, raw)
    modifies w
    ensures w.Later(old(w.s), old(w.log)) && old(w.heard) <= w.heard && RunHeard(w.heard, |old(w.heard)|, raw, reply)
    ensures DispatchTrace(id, j, reply, did, result, !AllAnswered(old(w.heard), w.heard))
    ensures w.quiet ==> AllAnswered(old(w.heard), w.heard)
    ensures w.own == old(w.own) + did + match result
                                        case Done => [FinishJob(id, j, Completed)]
                                        case Cancel => [FinishJob(id, j, Cancelled)]
                                        case Retry => if attemptsLeft then [] else [FinishJob(id, j, Discarded)]
  {
    hide Run, Init, StatusFor, Next, DispatchTrace, AllAnswered;
    var outcome;
    outcome, reply, did := Work(w, id, j, raw);
    result := outcome;
    match outcome
    case Done => w.Finish(id, j, Completed);
    case Cancel => w.Finish(id, j, Cancelled);
    case Retry =>
      if !attemptsLeft {
        w.Finish(id, j, Discarded);
      }
  }
}
