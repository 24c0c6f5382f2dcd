/** The periodic unlocker: resubmits, classifies, re-signs, checks receipts and recovers orphaned nonces. */
module Unlocker {
  import opened Types
  import opened Fees
  import opened Lifecycle
  import opened Invariant
  import opened Growth
  import opened Preservation
  import opened Theorems
  import opened RpcErrors
  import opened Queries
  import opened Stability
  import opened World
  import opened Recovery
  import opened Draining

  /** What one receipt check of `otx` may do. */
  predicate ReceiptTrace(otx: OtxRow, steps: seq<Step>) {
    steps == [] || steps == [WriteReceipt(otx)] || steps == [WriteRecovered(otx)]
  }

  /** What a re-sign of `otx` may do: nothing for a contract creation; otherwise one send of the raised
      transaction, then either the rewrite or, if the nonce was used up meanwhile, a receipt check. */
  predicate ResignTrace(otx: OtxRow, steps: seq<Step>, resend: Option<SendReply>, raced: bool, ok: bool) {
    if otx.raw.intent.to.None? then steps == [] && resend == None && ok
    else if resend.None? then steps == [] && !ok // no gas price, or no key
    else
      && steps != [] && steps[0].SendResigned? && steps[0].row == otx
      && AfterResign(otx, steps[0], steps[1..], resend.value, raced, ok)
  }

  predicate AfterResign(otx: OtxRow, sent: Step, steps: seq<Step>, resend: SendReply, raced: bool, ok: bool)
    requires sent.SendResigned?
  {
    if !resend.Accepted? then steps == [] && !ok && !raced
    else if raced then ReceiptTrace(otx, steps)
    else steps == if ok then [WriteResigned(otx, sent.fee, sent.tip)] else []
  }

  /** The error a send returns for a node's reply. */
  function SendError(r: SendReply): Option<GoError> {
    match r
    case Accepted => None
    case RpcError(msg) => Some(UnlockerSendError(msg))
    case CallError(msg) => Some(Plain(msg, false))
    case TransportError(msg, transport) => Some(HandleNetworkError(msg, transport))
  }

  /** The class of a reply by the node's own words. */
  function ReplyClass(r: SendReply): Class {
    match r
    case Accepted => Unknown
    case RpcError(msg) => UnlockerClassify(msg)
    case CallError(msg) => UnlockerClassify(msg)
    case TransportError(msg, _) => UnlockerClassify(msg)
  }

  /** The branch taken for one otx follows from the node's own words, whatever wrapper they arrive in. */
  predicate OtxTrace(otx: OtxRow, reply: SendReply, steps: seq<Step>, resend: Option<SendReply>, raced: bool,
                     ok: bool) {
    steps != [] && steps[0] == Resubmit(otx) && AfterReply(otx, reply, steps[1..], resend, raced, ok)
  }

  predicate AfterReply(otx: OtxRow, reply: SendReply, steps: seq<Step>, resend: Option<SendReply>, raced: bool,
                       ok: bool) {
    if reply.Accepted? then steps == if ok then [MarkInNetwork(otx)] else []
    else match ReplyClass(reply) {
      case NonceLow => ReceiptTrace(otx, steps)
      case GasPrice | ReplacementUnderpriced => ResignTrace(otx, steps, resend, raced, ok)
      case NoGas => steps == [] && ok // not an error: the account's sequence goes on
      case _ => steps == [] && !ok
    }
  }

  /** When every call is answered, an accepted send is recorded, a used-up nonce is checked, and a gas error leads to
      a re-sign. */
  predicate Prompt(otx: OtxRow, reply: SendReply, resend: Option<SendReply>, ok: bool) {
    && (reply.Accepted? || ReplyClass(reply) == NonceLow ==> ok)
    && (!reply.Accepted? && ReplyClass(reply) in {GasPrice, ReplacementUnderpriced} && otx.raw.intent.to.Some? ==>
          resend.Some? && (resend.value.Accepted? ==> ok))
  }

  lemma FirstThenRest(first: Step, rest: seq<Step>)
    ensures ([first] + rest)[0] == first && ([first] + rest)[1..] == rest
  {
  }

  method SendRawTx(w: World, tx: Tx, step: Step) returns (err: Option<GoError>, ghost reply: SendReply)
    requires w.Valid() && Sends(step) && Enabled(w.s, step) && tx == SentTx(w.s, step)
    modifies w
    ensures w.Later(old(w.s), old(w.log)) && w.own == old(w.own) + [step] && tx in w.s.sent
    ensures err == SendError(reply) && w.heard == old(w.heard) + [SendIs(tx, reply)]
    ensures err.Some? ==> UnlockerClassify(Text(err.value)) == ReplyClass(reply)
    ensures w.quiet ==> w.s == old(w.s).(sent := old(w.s).sent + {tx})
    ensures w.quiet && tx.intent.nonce < |MinedBy(old(w.s).mined, tx.intent.sender)| ==>
              err.Some? && ReplyClass(reply) == NonceLow
  {
    hide Contains, UnlockerClassify, HandleJsonRpcError, HandleNetworkError, Enabled, MinedBy, Onward, Run, Init;
    var r := w.Send(tx, step);
    reply := r;
    match r
    case Accepted => err := None;
    case RpcError(msg) =>
      WrappingIsTransparent(msg);
      LowIsLow(msg);
      var classified := HandleJsonRpcError(msg);
      if classified.Some? {
        err := Some(Dispatch(classified.value, msg));
      } else {
        err := Some(Plain(msg, false));
      }
    case CallError(msg) => err := Some(Plain(msg, false));
    case TransportError(msg, transport) =>
      NetworkWrappingIsTransparent(msg, transport);
      err := Some(HandleNetworkError(msg, transport));
  }

  /** The row now stores the one transaction mined at its signer and nonce, and that transaction's receipt. */
  predicate Recovered(s: State, otx: OtxRow) {
    otx.nonce < |MinedBy(s.mined, otx.account)| && ResolvedBy(s, otx.id, otx.account, otx.nonce)
  }

  lemma IsRecovered(s: State, otx: OtxRow)
    requires Inv(s) && otx in s.versions && otx.nonce < |MinedBy(s.mined, otx.account)|
    ensures var m := MinedBy(s.mined, otx.account)[otx.nonce];
            otx.id in s.otx
              && (s.otx[otx.id].hash == HashOf(m.tx) && StatusesOf(s, otx.id) == [ReceiptStatus(m)] ==>
                    Recovered(s, otx))
  {
    HeldRow(s, otx);
    hide Inv, MinedBy, StatusesOf;
  }

  /** The inner loop of the scan: adopts the transaction of `otx` if the block has it.  `target` is what
      the chain holds at that nonce; nothing else matches. */
  method ScanTransactions(w: World, otx: OtxRow, txs: seq<Tx>, ghost target: Mined)
    returns (found: bool, ok: bool, ghost did: seq<Step>)
    requires w.Valid() && otx in w.s.versions
    requires otx.nonce < |MinedBy(w.s.mined, otx.account)| && MinedBy(w.s.mined, otx.account)[otx.nonce] == target
    requires forall tx :: tx in txs && tx.intent.sender == otx.account && tx.intent.nonce == otx.nonce ==>
               tx == target.tx
    modifies w
    ensures w.Later(old(w.s), old(w.log)) && w.own == old(w.own) + did && old(w.heard) <= w.heard
    ensures did == if found && ok then [WriteRecovered(otx)] else []
    ensures did != [] ==> Recovered(w.s, otx)
    ensures found ==> target.tx in txs
    ensures AllAnswered(old(w.heard), w.heard) ==> (target.tx in txs ==> found) && (found ==> ok)
    ensures w.quiet ==> AllAnswered(old(w.heard), w.heard)
    ensures w.quiet ==> w.s == if found then Next(old(w.s), WriteRecovered(otx)) else old(w.s)
  {
    hide Onward, Run, Init, Inv, Next, MinedBy, HashMined, Recovered, StatusesOf, AllAnswered;
    found, ok, did := false, true, [];
    w.StillHeld(old(w.s), old(w.log), otx);
    TargetMined(w.s, otx);
    NothingAsked(w.heard);
    for i := 0 to |txs|
      invariant w.Later(old(w.s), old(w.log)) && w.own == old(w.own) && old(w.heard) <= w.heard
      invariant AllAnswered(old(w.heard), w.heard) ==> target.tx !in txs[..i]
      invariant w.quiet ==> AllAnswered(old(w.heard), w.heard) && w.s == old(w.s)
    {
      var tx := txs[i];
      if tx.intent.nonce != otx.nonce {
        continue;
      }
      if tx.intent.sender != otx.account {
        continue;
      }
      assert tx in txs;
      var actualHash := HashOf(tx);
      ghost var heard1 := w.heard;
      var actualReceipt := w.ReadReceipt(actualHash);
      OneMoreAnswer(old(w.heard), heard1, ReceiptIs(actualHash, actualReceipt));
      w.StillHeld(old(w.s), old(w.log), otx);
      TargetMined(w.s, otx);
      if !actualReceipt.Receipt? {
        continue;
      }
      var status := REVERTED;
      if actualReceipt.ok {
        status := SUCCESS;
      }
      found := true;
      ghost var heard2 := w.heard;
      ok := w.SetRecovered(otx, actualHash, status);
      OneMoreAnswer(old(w.heard), heard2, DatabaseIs(ok));
      did := if ok then [WriteRecovered(otx)] else [];
      w.StillHeld(old(w.s), old(w.log), otx);
      IsRecovered(w.s, otx);
      return;
    }
    assert txs[..|txs|] == txs;
  }

  /** The outer loop: the blocks of the window, oldest first, until one of them has the transaction. */
  method ScanBlocks(w: World, otx: OtxRow, anchorBlock: nat, ghost target: Mined)
    returns (ok: bool, ghost did: seq<Step>)
    requires w.Valid() && otx in w.s.versions
    requires otx.nonce < |MinedBy(w.s.mined, otx.account)| && MinedBy(w.s.mined, otx.account)[otx.nonce] == target
    modifies w
    ensures w.Later(old(w.s), old(w.log)) && w.own == old(w.own) + did && old(w.heard) <= w.heard
    ensures did == [] || did == [WriteRecovered(otx)]
    ensures did != [] ==> Recovered(w.s, otx) && InWindow(target.block, anchorBlock)
    ensures AllAnswered(old(w.heard), w.heard) ==>
              ok && (InWindow(target.block, anchorBlock) ==> did == [WriteRecovered(otx)])
    ensures w.quiet ==> AllAnswered(old(w.heard), w.heard)
    ensures w.quiet ==> w.s == if did == [] then old(w.s) else Next(old(w.s), WriteRecovered(otx))
  {
    hide Onward, Run, Init, Inv, Next, MinedBy, HashMined, BlockTxs, Reachable, Recovered, AllAnswered;
    did := [];
    NothingAsked(w.heard);
    var scanFrom := anchorBlock;
    if anchorBlock > 5 {
      scanFrom := anchorBlock - 5;
    }
    var blockNum := scanFrom;
    while blockNum <= anchorBlock
      invariant scanFrom <= blockNum <= anchorBlock + 1
      invariant w.Later(old(w.s), old(w.log)) && w.own == old(w.own) && did == [] && old(w.heard) <= w.heard
      invariant AllAnswered(old(w.heard), w.heard) ==> !(scanFrom <= target.block < blockNum)
      invariant w.quiet ==> AllAnswered(old(w.heard), w.heard) && w.s == old(w.s)
    {
      ghost var heard1 := w.heard;
      var txs := w.ReadBlock(blockNum);
      OneMoreAnswer(old(w.heard), heard1, BlockIs(blockNum, txs));
      if txs.None? {
        blockNum := blockNum + 1;
        continue;
      }
      w.StillHeld(old(w.s), old(w.log), otx);
      w.Known();
      Matches(w.s, otx, txs.value, blockNum);
      var found: bool;
      ghost var heard2 := w.heard;
      found, ok, did := ScanTransactions(w, otx, txs.value, target);
      AnsweredBetween(old(w.heard), heard2, w.heard);
      if found {
        return;
      }
      blockNum := blockNum + 1;
    }
    return true, did;
  }

  /** The replies from position `n` on begin with the otx of the next nonce and, if there is one, its receipt. */
  predicate AnchorHeard(heard: seq<Reply>, n: nat, otx: OtxRow) {
    && n < |heard| && heard[n].AnchorIs? && heard[n].account == otx.account && heard[n].nonce == otx.nonce + 1
    && (heard[n].anchor.Some? ==>
          n + 1 < |heard| && heard[n + 1].ReceiptIs? && heard[n + 1].asked == heard[n].anchor.value)
  }

  /** The anchor that was heard of puts `block` in the window. */
  predicate AnchorCovers(heard: seq<Reply>, n: nat, block: nat) {
    && n + 1 < |heard| && heard[n].AnchorIs? && heard[n].anchor.Some?
    && heard[n + 1].ReceiptIs? && heard[n + 1].receipt.Receipt? && InWindow(block, heard[n + 1].receipt.block)
  }

  /** Looks for the transaction that used up the nonce of `otx` in the blocks before its anchor.  Whatever it
      writes is that transaction; and whatever other processes do, when every call is answered it misses only
      what lies outside the window of the anchor it was told of. */
  method RecoverOrphanedNonce(w: World, otx: OtxRow) returns (ok: bool, ghost did: seq<Step>)
    requires w.Valid() && otx in w.s.versions && otx.nonce < |MinedBy(w.s.mined, otx.account)|
    modifies w
    ensures w.Later(old(w.s), old(w.log)) && w.own == old(w.own) + did && old(w.heard) <= w.heard
    ensures AnchorHeard(w.heard, |old(w.heard)|, otx)
    ensures did == [] || did == [WriteRecovered(otx)]
    ensures did != [] ==>
              && Recovered(w.s, otx)
              && AnchorCovers(w.heard, |old(w.heard)|, MinedBy(old(w.s).mined, otx.account)[otx.nonce].block)
    ensures AllAnswered(old(w.heard), w.heard) ==>
              ok && (AnchorCovers(w.heard, |old(w.heard)|, MinedBy(old(w.s).mined, otx.account)[otx.nonce].block) ==>
                       did == [WriteRecovered(otx)])
    ensures w.quiet ==> AllAnswered(old(w.heard), w.heard)
    ensures w.quiet ==> w.s == if did == [] then old(w.s) else Next(old(w.s), WriteRecovered(otx))
    ensures w.quiet ==> (did != [] <==> Anchored(old(w.s), otx))
  {
    hide Onward, Run, Init, Inv, Next, MinedBy, HashMined, Anchored, BlockTxs, Reachable, IsAnchor, Recovered,
      AllAnswered;
    did := [];
    ghost var n, target := |w.heard|, MinedBy(w.s.mined, otx.account)[otx.nonce];
    NothingAsked(w.heard);
    var anchorTxHash := w.ReadAnchor(otx.account, otx.nonce + 1);
    OneMoreAnswer(old(w.heard), old(w.heard), AnchorIs(otx.account, otx.nonce + 1, anchorTxHash));
    w.StillHeld(old(w.s), old(w.log), otx);
    if anchorTxHash.None? {
      if w.quiet {
        NoAnchor(w.s, otx, otx.nonce + 1);
      }
      return true, did;
    }
    ghost var s1, heard1 := w.s, w.heard;
    var anchorReceipt := w.ReadReceipt(anchorTxHash.value);
    OneMoreAnswer(old(w.heard), heard1, ReceiptIs(anchorTxHash.value, anchorReceipt));
    w.Known();
    if !anchorReceipt.Receipt? {
      if w.quiet {
        AnchorUnseen(s1, otx, otx.nonce + 1, anchorTxHash.value);
      }
      return true, did;
    }
    var anchorBlock := anchorReceipt.block;
    if w.quiet {
      AnchorSeen(s1, otx, otx.nonce + 1, anchorTxHash.value);
    }
    w.StillHeld(old(w.s), old(w.log), otx);
    ghost var s2, log2, heard2 := w.s, w.log, w.heard;
    ok, did := ScanBlocks(w, otx, anchorBlock, target);
    AnsweredBetween(old(w.heard), heard2, w.heard);
    w.StillHeld(s2, log2, otx);
  }

  /** The replies of a receipt check from position `n` on. */
  predicate ReceiptHeard(heard: seq<Reply>, n: nat, otx: OtxRow) {
    && n < |heard| && heard[n].ReceiptIs? && heard[n].asked == otx.hash
    && (heard[n].receipt.NoReceipt? ==>
          && n + 1 < |heard| && heard[n + 1].NonceIs? && heard[n + 1].nonceOf == otx.account
          && (UsedUp(heard, n + 1, otx) ==> AnchorHeard(heard, n + 2, otx)))
  }

  predicate UsedUp(heard: seq<Reply>, n: nat, otx: OtxRow) {
    n < |heard| && heard[n].NonceIs? && heard[n].count.Some? && heard[n].count.value > otx.nonce
  }

  /** What a receipt check with every call answered does, by what it was told: it writes the receipt it got, or
      else, for a used-up nonce, its transaction exactly if that is in the anchor's window. */
  predicate CheckedAsTold(s: State, heard: seq<Reply>, n: nat, otx: OtxRow, did: seq<Step>)
    requires ReceiptHeard(heard, n, otx)
  {
    && (heard[n].receipt.Receipt? ==> did == [WriteReceipt(otx)])
    && (heard[n].receipt.NoReceipt? ==>
          if UsedUp(heard, n + 1, otx) then
            && otx.nonce < |MinedBy(s.mined, otx.account)|
            && var target := MinedBy(s.mined, otx.account)[otx.nonce];
               did == if AnchorCovers(heard, n + 2, target.block) then [WriteRecovered(otx)] else []
          else did == [])
  }

  /** Looks up the receipt of the hash that was read; without one it looks for what else used up the nonce. */
  method CheckReceipt(w: World, otx: OtxRow) returns (ok: bool, ghost did: seq<Step>)
    requires w.Valid() && otx in w.s.versions
    modifies w
    ensures w.Later(old(w.s), old(w.log)) && w.own == old(w.own) + did && ReceiptTrace(otx, did)
    ensures old(w.heard) <= w.heard && ReceiptHeard(w.heard, |old(w.heard)|, otx)
    ensures did == [WriteReceipt(otx)] ==>
              HashMined(w.s, otx.hash) && StatusesOf(w.s, otx.id) == [ReceiptStatus(MinedAt(w.s, otx.hash))]
    ensures did == [WriteRecovered(otx)] ==> Recovered(w.s, otx)
    ensures AllAnswered(old(w.heard), w.heard) ==> ok && CheckedAsTold(w.s, w.heard, |old(w.heard)|, otx, did)
    ensures w.quiet ==> AllAnswered(old(w.heard), w.heard) && w.s == Settle(old(w.s), otx)
  {
    hide Onward, Run, Init, Inv, Next, MinedBy, HashMined, Anchored, Recovered, StatusesOf, AllAnswered, InWindow;
    did := [];
    NothingAsked(w.heard);
    var receipt := w.ReadReceipt(otx.hash);
    ghost var heard1 := w.heard;
    OneMoreAnswer(old(w.heard), old(w.heard), ReceiptIs(otx.hash, receipt));
    w.StillHeld(old(w.s), old(w.log), otx);
    if receipt.CallFailed? {
      return false, did;
    }
    if receipt.NoReceipt? {
      var networkNonce := w.ReadChainNonce(otx.account);
      OneMoreAnswer(old(w.heard), heard1, NonceIs(otx.account, networkNonce));
      if networkNonce.None? {
        return false, did;
      }
      w.StillHeld(old(w.s), old(w.log), otx);
      if networkNonce.value > otx.nonce {
        ghost var s2, log2, heard2 := w.s, w.log, w.heard;
        ok, did := RecoverOrphanedNonce(w, otx);
        AnsweredBetween(old(w.heard), heard2, w.heard);
        w.StillHeld(s2, log2, otx);
        return;
      }
      AnchoredIsMined(w.s, otx);
      return true, did;
    }
    var status := REVERTED;
    if receipt.ok {
      status := SUCCESS;
    }
    ghost var s1, log1 := w.s, w.log;
    ok := w.SetReceiptStatus(otx, status);
    OneMoreAnswer(old(w.heard), heard1, DatabaseIs(ok));
    did := if ok then [WriteReceipt(otx)] else [];
    w.StillHeld(s1, log1, otx);
  }

  /** A re-sign was sent with the caps the gas oracle gave, and this is what the node said. */
  predicate ResendHeard(heard: seq<Reply>, n: nat, otx: OtxRow, steps: seq<Step>, resend: SendReply) {
    && n + 2 < |heard| && steps != [] && steps[0].SendResigned? && heard[n] == GasIs(Some((steps[0].fee, steps[0].tip)))
    && heard[n + 2] == SendIs(Resigned(otx.raw, steps[0].fee, steps[0].tip), resend)
  }

  /** Re-signs `otx` with raised caps and resubmits it. */
  method ResignAndResubmit(w: World, otx: OtxRow)
    returns (ok: bool, ghost did: seq<Step>, ghost resend: Option<SendReply>, ghost raced: bool)
    requires w.Valid() && otx in w.s.versions
    modifies w
    ensures w.Later(old(w.s), old(w.log)) && w.own == old(w.own) + did && old(w.heard) <= w.heard
    ensures ResignTrace(otx, did, resend, raced, ok)
    ensures resend.Some? ==> ResendHeard(w.heard, |old(w.heard)|, otx, did, resend.value)
    ensures resend.Some? ==> Resigned(otx.raw, did[0].fee, did[0].tip) in w.s.sent
    ensures AllAnswered(old(w.heard), w.heard) && otx.raw.intent.to.Some? ==>
              resend.Some? && (resend.value.Accepted? ==> ok)
    ensures raced ==> otx.nonce < |MinedBy(w.s.mined, otx.account)|
    ensures w.quiet ==> AllAnswered(old(w.heard), w.heard)
    ensures w.quiet && otx.nonce >= |MinedBy(old(w.s).mined, otx.account)| ==> OnlyRow(old(w.s), w.s, otx.id)
  {
    hide Onward, Run, Init, Inv, Next, MinedBy, Resigned, OnlyRow, AfterResign, AllAnswered;
    did, resend, raced := [], None, false;
    Unchanged(w.s, otx.id);
    NothingAsked(w.heard);
    if otx.raw.intent.to.None? {
      return true, did, resend, raced;
    }
    var gasSettings := w.GasSettings();
    ghost var heard1 := w.heard;
    OneMoreAnswer(old(w.heard), old(w.heard), GasIs(gasSettings));
    if gasSettings.None? {
      return false, did, resend, raced;
    }
    var (fee, tip) := gasSettings.value;
    var newGasFeeCap, newGasTipCap := fee, tip;
    if newGasFeeCap <= otx.raw.feeCap {
      newGasFeeCap := otx.raw.feeCap * 115 / 100;
    }
    if newGasTipCap <= otx.raw.tipCap {
      newGasTipCap := otx.raw.tipCap * 115 / 100;
    }
    var keyLoaded := w.Database();
    ghost var heard2 := w.heard;
    OneMoreAnswer(old(w.heard), heard1, DatabaseIs(keyLoaded));
    if !keyLoaded {
      return false, did, resend, raced;
    }
    var newTx := Tx(otx.raw.intent, newGasFeeCap, newGasTipCap);
    CapsAreRaised(otx.raw, fee, tip);
    ghost var reply;
    ok, did, reply, raced := SubmitResigned(w, otx, newTx, fee, tip);
    AnsweredBetween(old(w.heard), heard2, w.heard);
    resend := Some(reply);
  }

  /** The row holds `tx`, its hash, and IN_NETWORK. */
  predicate Rewritten(s: State, otx: OtxRow, tx: Tx) {
    otx.id in s.otx && s.otx[otx.id].raw == tx && s.otx[otx.id].hash == HashOf(tx)
      && StatusesOf(s, otx.id) == [IN_NETWORK]
  }

  /** Sends the re-signed transaction, then rewrites the row unless the nonce was used up while re-signing. */
  method SubmitResigned(w: World, otx: OtxRow, newTx: Tx, fee: nat, tip: nat)
    returns (ok: bool, ghost did: seq<Step>, ghost reply: SendReply, ghost raced: bool)
    requires w.Valid() && otx in w.s.versions && otx.raw.intent.to.Some? && newTx == Resigned(otx.raw, fee, tip)
    modifies w
    ensures w.Later(old(w.s), old(w.log)) && w.own == old(w.own) + did && newTx in w.s.sent
    ensures old(w.heard) + [SendIs(newTx, reply)] <= w.heard
    ensures did != [] && did[0] == SendResigned(otx, fee, tip) && AfterResign(otx, did[0], did[1..], reply, raced, ok)
    ensures raced ==> otx.nonce < |MinedBy(w.s.mined, otx.account)|
    ensures AllAnswered(old(w.heard), w.heard) && reply.Accepted? ==> ok
    ensures w.quiet ==> AllAnswered(old(w.heard), w.heard)
    ensures w.quiet && reply.Accepted? ==> (raced <==> otx.nonce < |MinedBy(old(w.s).mined, otx.account)|)
    ensures ok && !raced ==> Rewritten(w.s, otx, newTx)
    ensures w.quiet && otx.nonce >= |MinedBy(old(w.s).mined, otx.account)| ==> OnlyRow(old(w.s), w.s, otx.id)
  {
    hide Onward, Run, Init, Inv, Next, MinedBy, HashMined, Anchored, Resigned, OnlyRow, Enabled, SentTx, Sends,
      AfterResign, ReceiptTrace, Recovered, AllAnswered, ReceiptHeard, CheckedAsTold;
    raced := false;
    HeldCanSend(w.s, otx, fee, tip);
    ghost var sent, rest: seq<Step> := SendResigned(otx, fee, tip), [];
    var err;
    NothingAsked(w.heard);
    err, reply := SendRawTx(w, newTx, SendResigned(otx, fee, tip));
    OneMoreAnswer(old(w.heard), old(w.heard), SendIs(newTx, reply));
    ghost var s1, log1, heard1 := w.s, w.log, w.heard;
    if w.quiet {
      OnlySent(old(w.s), w.s, newTx, otx.id);
    }
    if err.Some? {
      ok := false;
      RefusedIs(otx, sent, reply);
    } else {
      w.StillHeld(old(w.s), old(w.log), otx);
      ok, rest, raced := RewriteOrRecover(w, otx, newTx, fee, tip);
      AnsweredBetween(old(w.heard), heard1, w.heard);
      if w.quiet && otx.nonce >= |MinedBy(old(w.s).mined, otx.account)| {
        OnlyRowTransitive(old(w.s), s1, w.s, otx.id);
      }
    }
    w.KeepsSent(s1, log1, newTx);
    FirstThenRest(sent, rest);
    did := [sent] + rest;
  }

  /** The guard after an accepted re-sign: a nonce that was used up meanwhile is settled, and the row is left as it
      was. */
  method RewriteOrRecover(w: World, otx: OtxRow, newTx: Tx, fee: nat, tip: nat)
    returns (ok: bool, ghost did: seq<Step>, ghost raced: bool)
    requires w.Valid() && otx in w.s.versions && newTx == Resigned(otx.raw, fee, tip) && newTx in w.s.sent
    modifies w
    ensures w.Later(old(w.s), old(w.log)) && w.own == old(w.own) + did && old(w.heard) <= w.heard
    ensures AfterResign(otx, SendResigned(otx, fee, tip), did, SendReply.Accepted, raced, ok)
    ensures raced ==> otx.nonce < |MinedBy(w.s.mined, otx.account)|
    ensures AllAnswered(old(w.heard), w.heard) ==> ok
    ensures w.quiet ==>
              AllAnswered(old(w.heard), w.heard) && (raced <==> otx.nonce < |MinedBy(old(w.s).mined, otx.account)|)
    ensures ok && !raced ==> Rewritten(w.s, otx, newTx)
    ensures w.quiet && otx.nonce >= |MinedBy(old(w.s).mined, otx.account)| ==> OnlyRow(old(w.s), w.s, otx.id)
  {
    hide Onward, Run, Init, Inv, Next, MinedBy, HashMined, Anchored, Resigned, OnlyRow, AfterResign, ReceiptTrace,
      Recovered, AllAnswered, ReceiptHeard, CheckedAsTold;
    NothingAsked(w.heard);
    var chainNonce := w.ReadChainNonce(otx.account);
    OneMoreAnswer(old(w.heard), old(w.heard), NonceIs(otx.account, chainNonce));
    w.StillHeld(old(w.s), old(w.log), otx);
    w.KeepsSent(old(w.s), old(w.log), newTx);
    ghost var sent, s1, log1, heard1 := SendResigned(otx, fee, tip), w.s, w.log, w.heard;
    if chainNonce.Some? && chainNonce.value > otx.nonce {
      raced := true;
      ok, did := CheckReceipt(w, otx);
      AnsweredBetween(old(w.heard), heard1, w.heard);
      RacedIs(otx, sent, did, SendReply.Accepted, ok);
      w.StillHeld(s1, log1, otx);
    } else {
      raced := false;
      ok := w.SetResigned(otx, newTx, fee, tip);
      OneMoreAnswer(old(w.heard), heard1, DatabaseIs(ok));
      did := if ok then [WriteResigned(otx, fee, tip)] else [];
      RewrittenIs(otx, sent, did, SendReply.Accepted, ok);
      if w.quiet {
        WriteIsLocal(s1, WriteResigned(otx, fee, tip), otx);
      }
    }
  }

  lemma RefusedIs(otx: OtxRow, sent: Step, reply: SendReply)
    requires sent.SendResigned? && !reply.Accepted?
    ensures AfterResign(otx, sent, [], reply, false, false)
  {
  }

  lemma RacedIs(otx: OtxRow, sent: Step, rest: seq<Step>, reply: SendReply, ok: bool)
    requires sent.SendResigned? && ReceiptTrace(otx, rest) && reply.Accepted?
    ensures AfterResign(otx, sent, rest, reply, true, ok)
  {
  }

  lemma RewrittenIs(otx: OtxRow, sent: Step, rest: seq<Step>, reply: SendReply, ok: bool)
    requires sent.SendResigned? && reply.Accepted? && rest ==
               if ok then [WriteResigned(otx, sent.fee, sent.tip)] else []
    ensures AfterResign(otx, sent, rest, reply, false, ok)
  {
  }

  lemma AcceptedIs(otx: OtxRow, reply: SendReply, steps: seq<Step>, ok: bool)
    requires reply.Accepted? && steps == if ok then [MarkInNetwork(otx)] else []
    ensures AfterReply(otx, reply, steps, None, false, ok) && (ok ==> Prompt(otx, reply, None, ok))
  {
  }

  /** The switch over the class of a failed send. */
  method ActOnError(w: World, otx: OtxRow, err: GoError, ghost reply: SendReply)
    returns (ok: bool, ghost did: seq<Step>, ghost resend: Option<SendReply>, ghost raced: bool)
    requires w.Valid() && otx in w.s.versions && !reply.Accepted? && UnlockerClassify(Text(err)) == ReplyClass(reply)
    modifies w
    ensures w.Later(old(w.s), old(w.log)) && w.own == old(w.own) + did && AfterReply(otx, reply, did, resend, raced, ok)
    ensures old(w.heard) <= w.heard
    ensures resend.Some? ==> ResendHeard(w.heard, |old(w.heard)|, otx, did, resend.value)
    ensures resend.Some? ==> Resigned(otx.raw, did[0].fee, did[0].tip) in w.s.sent
    ensures AllAnswered(old(w.heard), w.heard) ==> Prompt(otx, reply, resend, ok)
    ensures ReplyClass(reply) == NonceLow ==> ReceiptHeard(w.heard, |old(w.heard)|, otx)
    ensures ReplyClass(reply) == NonceLow && AllAnswered(old(w.heard), w.heard) ==>
              ok && CheckedAsTold(w.s, w.heard, |old(w.heard)|, otx, did)
    ensures w.quiet ==> AllAnswered(old(w.heard), w.heard)
    ensures w.quiet && ReplyClass(reply) == NonceLow ==> w.s == Settle(old(w.s), otx)
    ensures w.quiet && otx.nonce >= |MinedBy(old(w.s).mined, otx.account)| ==> OnlyRow(old(w.s), w.s, otx.id)
  {
    hide Onward, Run, Init, Inv, Next, MinedBy, HashMined, Anchored, Resigned, OnlyRow, UnlockerClassify, Text,
      ReplyClass, Settle, ResignTrace, ReceiptTrace, AllAnswered, ReceiptHeard, CheckedAsTold, ResendHeard, Reachable;
    did, resend, raced := [], None, false;
    NothingAsked(w.heard);
    Unchanged(w.s, otx.id);
    match UnlockerClassify(Text(err))
    case NonceLow =>
      w.Known();
      if otx.nonce >= |MinedBy(w.s.mined, otx.account)| {
        PendingNotSettled(w.s, otx);
      }
      ok, did := CheckReceipt(w, otx);
    case GasPrice | ReplacementUnderpriced =>
      ok, did, resend, raced := ResignAndResubmit(w, otx);
    case NoGas =>
      ok := true;
    case _ =>
      ok := false;
  }

  /** Resubmits one otx and acts on the reply.  An otx whose nonce is used up is settled; any other is the
      only one that changes. */
  method ProcessOtx(w: World, otx: OtxRow)
    returns (ok: bool, ghost reply: SendReply, ghost did: seq<Step>, ghost resend: Option<SendReply>, ghost raced: bool)
    requires w.Valid() && otx in w.s.versions
    modifies w
    ensures w.Later(old(w.s), old(w.log)) && w.own == old(w.own) + did && OtxTrace(otx, reply, did, resend, raced, ok)
    ensures old(w.heard) + [SendIs(otx.raw, reply)] <= w.heard
    ensures resend.Some? ==> ResendHeard(w.heard, |old(w.heard)| + 1, otx, did[1..], resend.value)
    ensures resend.Some? ==> Resigned(otx.raw, did[1].fee, did[1].tip) in w.s.sent
    ensures AllAnswered(old(w.heard), w.heard) ==> Prompt(otx, reply, resend, ok)
    ensures !reply.Accepted? && ReplyClass(reply) == NonceLow ==> ReceiptHeard(w.heard, |old(w.heard)| + 1, otx)
    ensures !reply.Accepted? && ReplyClass(reply) == NonceLow && AllAnswered(old(w.heard), w.heard) ==>
              ok && CheckedAsTold(w.s, w.heard, |old(w.heard)| + 1, otx, did[1..])
    ensures otx.raw in w.s.sent && (reply.Accepted? && ok ==> StatusesOf(w.s, otx.id) == [IN_NETWORK])
    ensures w.quiet ==> AllAnswered(old(w.heard), w.heard)
    ensures w.quiet && otx.nonce < |MinedBy(old(w.s).mined, otx.account)| ==>
              ok && w.s == Settle(old(w.s).(sent := old(w.s).sent + {otx.raw}), otx)
    ensures w.quiet && otx.nonce >= |MinedBy(old(w.s).mined, otx.account)| ==> OnlyRow(old(w.s), w.s, otx.id)
  {
    hide Onward, Run, Init, Inv, Next, MinedBy, HashMined, Anchored, Resigned, OnlyRow, UnlockerClassify, Text,
      ReplyClass, Contains, Enabled, SentTx, Sends, Settle, ResignTrace, ReceiptTrace, AllAnswered, ReceiptHeard,
      CheckedAsTold, ResendHeard, Reachable, AfterReply, Prompt;
    w.StillHeld(old(w.s), old(w.log), otx);
    var err;
    HeldCanSend(w.s, otx, 0, 0);
    NothingAsked(w.heard);
    err, reply := SendRawTx(w, otx.raw, Resubmit(otx));
    OneMoreAnswer(old(w.heard), old(w.heard), SendIs(otx.raw, reply));
    resend, raced := None, false;
    ghost var s1, log1, heard1 := w.s, w.log, w.heard;
    w.StillHeld(old(w.s), old(w.log), otx);
    HeldRow(w.s, otx);
    ghost var more: seq<Step>;
    if w.quiet {
      OnlySent(old(w.s), w.s, otx.raw, otx.id);
    }
    if err.None? {
      ok := w.SetInNetwork(otx);
      OneMoreAnswer(old(w.heard), heard1, DatabaseIs(ok));
      more := if ok then [MarkInNetwork(otx)] else [];
      AcceptedIs(otx, reply, more, ok);
      if w.quiet {
        WriteIsLocal(s1, MarkInNetwork(otx), otx);
      }
    } else {
      ok, more, resend, raced := ActOnError(w, otx, err.value, reply);
      AnsweredBetween(old(w.heard), heard1, w.heard);
    }
    if w.quiet && otx.nonce >= |MinedBy(old(w.s).mined, otx.account)| {
      OnlyRowTransitive(old(w.s), s1, w.s, otx.id);
    }
    FirstThenRest(Resubmit(otx), more);
    did := [Resubmit(otx)] + more;
    w.KeepsSent(s1, log1, otx.raw);
  }

  /** What happened to one otx of a pass; the first reply it got was number `at`. */
  datatype Visit = Visit(otx: OtxRow, at: nat, reply: SendReply, steps: seq<Step>, resend: Option<SendReply>,
                         raced: bool, ok: bool)

  function AllSteps(visits: seq<Visit>): seq<Step> {
    if visits == [] then [] else AllSteps(visits[..|visits| - 1]) + visits[|visits| - 1].steps
  }

  lemma AllStepsGrow(visits: seq<Visit>, v: Visit)
    ensures AllSteps(visits + [v]) == AllSteps(visits) + v.steps
  {
    assert (visits + [v])[..|visits|] == visits;
  }

  /** The rows are visited in order, each as its reply demands, until one fails; nothing is skipped. */
  ghost predicate Visited(rows: seq<OtxRow>, visits: seq<Visit>) {
    && |visits| <= |rows|
    && (forall i :: 0 <= i < |visits| ==>
          visits[i].otx == rows[i]
            && OtxTrace(rows[i], visits[i].reply, visits[i].steps, visits[i].resend, visits[i].raced, visits[i].ok))
    && (forall i :: 0 <= i < |visits| - 1 ==> visits[i].ok)
    && (|visits| < |rows| ==> visits != [] && !visits[|visits| - 1].ok)
  }

  lemma VisitNext(rows: seq<OtxRow>, visits: seq<Visit>, v: Visit)
    requires |visits| < |rows| && v.otx == rows[|visits|] && OtxTrace(v.otx, v.reply, v.steps, v.resend, v.raced, v.ok)
    requires Visited(rows[..|visits|], visits) && forall i :: 0 <= i < |visits| ==> visits[i].ok
    ensures Visited(rows[..|visits| + 1], visits + [v])
    ensures !v.ok ==> Visited(rows, visits + [v])
    ensures v.steps != []
  {
    assert v.steps != [];
    hide OtxTrace;
  }

  /** The replies of a visit are the ones this process heard for it. */
  predicate VisitHeard(heard: seq<Reply>, v: Visit) {
    && v.at < |heard| && heard[v.at] == SendIs(v.otx.raw, v.reply)
    && (v.resend.Some? ==> v.steps != [] && ResendHeard(heard, v.at + 1, v.otx, v.steps[1..], v.resend.value))
  }

  /** What the node said to the stored transaction, if it did not take it. */
  function Words(r: SendReply): string
    requires !r.Accepted?
  {
    match r
    case RpcError(msg) => msg
    case CallError(msg) => msg
    case TransportError(msg, _) => msg
  }

  /** The visit ends the pass: the node refused the stored transaction with none of the known phrases, or for its
      price, and then refused the re-signed one as well. */
  predicate Halts(v: Visit) {
    && !v.reply.Accepted?
    && (OtherWords(Words(v.reply))
        || (PriceWords(Words(v.reply)) && v.otx.raw.intent.to.Some? && v.resend.Some? && !v.resend.value.Accepted?))
  }

  /** A pass goes on after an otx without funds, and does nothing more about it. */
  lemma FundsDoNotHalt(rows: seq<OtxRow>, visits: seq<Visit>, i: nat)
    requires Visited(rows, visits) && i < |visits|
    requires !visits[i].reply.Accepted? && FundsWords(Words(visits[i].reply))
    ensures visits[i].steps == [Resubmit(rows[i])] && (i + 1 < |rows| ==> i + 1 < |visits|)
  {
    ClassByWords(Words(visits[i].reply));
    hide UnlockerClassify, FundsWords, ResignTrace;
    var v := visits[i];
    assert AfterReply(v.otx, v.reply, v.steps[1..], v.resend, v.raced, v.ok);
    assert v.steps == [v.steps[0]] + v.steps[1..];
  }

  /** With every call answered, a visit fails exactly if it halts. */
  lemma FailsIffHalts(v: Visit)
    requires OtxTrace(v.otx, v.reply, v.steps, v.resend, v.raced, v.ok) && Prompt(v.otx, v.reply, v.resend, v.ok)
    ensures v.ok <==> !Halts(v)
  {
    if !v.reply.Accepted? {
      ClassByWords(Words(v.reply));
    }
    hide UnlockerClassify, OtherWords, PriceWords, FundsWords;
  }

  /** And so a pass with every call answered stops exactly at the first otx that halts it. */
  lemma PassStopsIff(rows: seq<OtxRow>, visits: seq<Visit>, i: nat)
    requires Visited(rows, visits) && i < |visits| && i + 1 < |rows|
    requires forall v :: v in visits ==> Prompt(v.otx, v.reply, v.resend, v.ok)
    ensures i + 1 < |visits| <==> !Halts(visits[i])
  {
    FailsIffHalts(visits[i]);
    hide OtxTrace, Prompt, Halts;
  }

  /** What the node accepted during a visit: the transaction that was read, or the re-signed one. */
  function Taken(v: Visit): set<Tx> {
    (if v.reply.Accepted? then {v.otx.raw} else {}) +
    (if v.resend == Some(SendReply.Accepted) && |v.steps| > 1 && v.steps[1].SendResigned?
     then {Resigned(v.otx.raw, v.steps[1].fee, v.steps[1].tip)} else {})
  }

  /** The network has been given what it took, and the row was passed on to it first. */
  predicate VisitSent(s: State, v: Visit) {
    v.otx.raw in s.sent && Taken(v) <= s.sent
  }

  /** What the node accepted during a pass. */
  function Accepted(visits: seq<Visit>): set<Tx> {
    set v, tx | v in visits && tx in Taken(v) :: tx
  }

  /** The replies from position `n` on begin with the account's nonce and its otxs, or with the failure to get them. */
  predicate PassHeard(heard: seq<Reply>, n: nat, a: Address, rows: seq<OtxRow>, ok: bool) {
    && n < |heard| && heard[n].NonceIs? && heard[n].nonceOf == a
    && if heard[n].count.None? then rows == [] && !ok
       else && n + 1 < |heard| && heard[n + 1].RowsAre?
            && if heard[n + 1].rows.None? then rows == [] && !ok else rows == heard[n + 1].rows.value && ok
  }

  /** If the node accepted something for every otx still waiting, it holds a version for each nonce below `upTo`,
      so it can mine the account up to there by itself. */
  ghost predicate DrainsAfter(s: State, a: Address, upTo: nat, visits: seq<Visit>) {
    (forall v :: v in visits && v.otx.nonce >= |MinedBy(s.mined, a)| ==> Taken(v) != {}) ==>
      && (forall n :: |MinedBy(s.mined, a)| <= n < upTo ==> Holds(Accepted(visits), a, n))
      && Reaches(s, a, upTo)
  }

  /** Goes over an account's otxs in nonce order until one fails.  With every call answered on a frozen
      chain it settles every otx whose nonce is used up.  Whatever else happens, if it gets to the end and
      the node accepts something for every otx still waiting, the network can mine the account up to where
      `next_nonce` stood. */
  method ProcessAccount(w: World, a: Address) returns (ok: bool, ghost rows: seq<OtxRow>, ghost visits: seq<Visit>)
    requires w.Valid()
    modifies w
    ensures w.Later(old(w.s), old(w.log)) && w.own == old(w.own) + AllSteps(visits)
    ensures old(w.heard) <= w.heard && PassHeard(w.heard, |old(w.heard)|, a, rows, ok)
    ensures Visited(rows, visits)
    ensures forall v :: v in visits ==> VisitSent(w.s, v) && VisitHeard(w.heard, v)
    ensures AllAnswered(old(w.heard), w.heard) ==>
              ok && forall v :: v in visits ==> Prompt(v.otx, v.reply, v.resend, v.ok)
    ensures GoesOn(rows, visits) && (AllAnswered(old(w.heard), w.heard) ==> StopsRight(rows, visits))
    ensures w.quiet ==> AllAnswered(old(w.heard), w.heard) && PassEffect(old(w.s), w.s, a)
    ensures ok && |visits| == |rows| && a in old(w.s).next ==> DrainsAfter(w.s, a, old(w.s).next[a], visits)
  {
    hide Onward, Run, Init, Inv, Grows, Next, MinedBy, HashMined, Anchored, SettledRow, SameRow, SameChain, Settle,
      IsListing, Reachable, OtxTrace, Prompt, PassEffect, PassSoFar, Visited, AllSteps, AllAnswered, VisitHeard,
      VisitSent, DrainsAfter, ReceiptHeard, CheckedAsTold, GoesOn, StopsRight;
    rows, visits := [], [];
    NothingVisited();
    NothingAsked(w.heard);
    var networkNonce := w.ReadChainNonce(a);
    OneMoreAnswer(old(w.heard), old(w.heard), NonceIs(a, networkNonce));
    if networkNonce.None? {
      return false, rows, visits;
    }
    ghost var sN, logN, heardN := w.s, w.log, w.heard;
    var otxs := w.ReadListing(a, networkNonce.value, true);
    OneMoreAnswer(old(w.heard), heardN, RowsAre(otxs));
    if otxs.None? {
      return false, rows, visits;
    }
    rows := otxs.value;
    ghost var s0, heard0 := w.s, w.heard;
    w.Since(old(w.s), old(w.log));
    ListingFacts(s0, rows, a, networkNonce.value);
    visits := ProcessOtxs(w, a, otxs.value);
    PassByWords(rows, visits);
    AnsweredBetween(old(w.heard), heard0, w.heard);
    w.Since(sN, logN);
    ChainStays(sN, w.s, a);
    if w.quiet {
      PassEnds(s0, w.s, a, networkNonce.value, rows, |visits|);
    }
    if a in old(w.s).next && |visits| == |rows| {
      NextGrew(old(w.s), s0, a);
      PassDrains(s0, w.s, rows, a, networkNonce.value, visits, old(w.s).next[a]);
    }
    return true, rows, visits;
  }

  /** The visits are a prefix of the rows, empty only if there are none; after an otx without funds, about which
      nothing more is done, the next one is visited. */
  predicate GoesOn(rows: seq<OtxRow>, visits: seq<Visit>) {
    && |visits| <= |rows| && (rows != [] ==> visits != [])
       && (forall i :: 0 <= i < |visits| ==> visits[i].otx == rows[i])
    && forall i :: 0 <= i < |visits| && !visits[i].reply.Accepted? && FundsWords(Words(visits[i].reply)) ==>
         visits[i].steps == [Resubmit(rows[i])] && (i + 1 < |rows| ==> i + 1 < |visits|)
  }

  /** The pass ends early exactly at the first visit that halts it, and answers every complaint about the price with a
      re-sign, except for a contract creation. */
  predicate StopsRight(rows: seq<OtxRow>, visits: seq<Visit>) {
    && (forall i :: 0 <= i < |visits| && i + 1 < |rows| ==> (i + 1 < |visits| <==> !Halts(visits[i])))
    && forall v :: v in visits && !v.reply.Accepted? && PriceWords(Words(v.reply)) && v.otx.raw.intent.to.Some? ==>
         v.resend.Some?
  }

  lemma PassByWords(rows: seq<OtxRow>, visits: seq<Visit>)
    requires Visited(rows, visits)
    ensures GoesOn(rows, visits)
    ensures (forall v :: v in visits ==> Prompt(v.otx, v.reply, v.resend, v.ok)) ==> StopsRight(rows, visits)
  {
    hide OtxTrace, Halts, FundsWords, PriceWords, UnlockerClassify;
    forall i: nat | i < |visits| && !visits[i].reply.Accepted? && FundsWords(Words(visits[i].reply))
      ensures visits[i].steps == [Resubmit(rows[i])] && (i + 1 < |rows| ==> i + 1 < |visits|) {
      FundsDoNotHalt(rows, visits, i);
    }
    if forall v :: v in visits ==> Prompt(v.otx, v.reply, v.resend, v.ok) {
      forall i: nat | i < |visits| && i + 1 < |rows| ensures i + 1 < |visits| <==> !Halts(visits[i]) {
        PassStopsIff(rows, visits, i);
      }
      forall v | v in visits && !v.reply.Accepted? && PriceWords(Words(v.reply)) && v.otx.raw.intent.to.Some?
        ensures v.resend.Some? {
        ClassByWords(Words(v.reply));
      }
    }
  }

  /** The loop over an account's otxs; a failure ends it. */
  method ProcessOtxs(w: World, a: Address, otxs: seq<OtxRow>) returns (ghost visits: seq<Visit>)
    requires w.Valid()
    requires forall row :: row in otxs ==>
               row.account == a && row.id in w.s.otx && w.s.otx[row.id] == row && row in w.s.versions
    requires forall i, j :: 0 <= i < j < |otxs| ==> otxs[i].nonce < otxs[j].nonce
    modifies w
    ensures w.Later(old(w.s), old(w.log)) && w.own == old(w.own) + AllSteps(visits) && old(w.heard) <= w.heard
    ensures |visits| <= |otxs| && Visited(otxs, visits)
    ensures forall v :: v in visits ==> VisitSent(w.s, v) && VisitHeard(w.heard, v)
    ensures AllAnswered(old(w.heard), w.heard) ==> forall v :: v in visits ==> Prompt(v.otx, v.reply, v.resend, v.ok)
    ensures w.quiet ==> AllAnswered(old(w.heard), w.heard) && PassSoFar(old(w.s), w.s, a, otxs[..|visits|])
    ensures w.quiet && |visits| < |otxs| ==> otxs[|visits|].nonce >= |MinedBy(old(w.s).mined, a)|
  {
    hide Onward, Run, Init, Inv, Next, MinedBy, HashMined, Anchored, SettledRow, SameRow, SameChain, Settle, Reachable,
      OtxTrace, Prompt, PassSoFar, Visited, AllSteps, AllAnswered, VisitHeard, VisitSent, ReceiptHeard, CheckedAsTold,
        ResendHeard;
    visits := [];
    NothingVisited();
    NothingAsked(w.heard);
    PassStarts(w.s, a);
    w.Known();
    var i := 0;
    while i < |otxs|
      invariant 0 <= i <= |otxs|
      invariant w.Later(old(w.s), old(w.log)) && w.own == old(w.own) + AllSteps(visits) && old(w.heard) <= w.heard
      invariant |visits| == i && Visited(otxs[..i], visits) && (forall j :: 0 <= j < i ==> visits[j].ok)
      invariant forall v :: v in visits ==> VisitSent(w.s, v) && VisitHeard(w.heard, v)
      invariant AllAnswered(old(w.heard), w.heard) ==> forall v :: v in visits ==>
                  Prompt(v.otx, v.reply, v.resend, v.ok)
      invariant w.quiet ==> AllAnswered(old(w.heard), w.heard) && PassSoFar(old(w.s), w.s, a, otxs[..i])
    {
      var otx := otxs[i];
      w.StillHeld(old(w.s), old(w.log), otx);
      ghost var s1, log1, heard1 := w.s, w.log, w.heard;
      ghost var reply, did, resend, raced;
      var ok;
      ok, reply, did, resend, raced := ProcessOtx(w, otx);
      w.StillHeld(s1, log1, otx);
      ghost var v := Visit(otx, |heard1|, reply, did, resend, raced, ok);
      AnsweredBetween(old(w.heard), heard1, w.heard);
      VisitNext(otxs, visits, v);
      VisitsOnward(s1, w.s, heard1, w.heard, visits, v);
      AllStepsGrow(visits, v);
      visits := visits + [v];
      if w.quiet {
        PassKeepsChain(old(w.s), s1, a, otxs[..i]);
        PassStep(old(w.s), s1, w.s, a, otxs[..i], otx);
        assert otxs[..i] + [otx] == otxs[..i + 1];
      }
      i := i + 1;
      if !ok {
        return;
      }
    }
    assert otxs[..|otxs|] == otxs;
  }

  lemma NothingVisited()
    ensures Visited([], []) && AllSteps([]) == [] && GoesOn([], []) && StopsRight([], [])
  {
  }

  lemma VisitsOnward(s: State, t: State, heard: seq<Reply>, heard': seq<Reply>, visits: seq<Visit>, v: Visit)
    requires s.sent <= t.sent && heard <= heard'
    requires forall u :: u in visits ==> VisitSent(s, u) && VisitHeard(heard, u)
    requires v.at == |heard| && heard + [SendIs(v.otx.raw, v.reply)] <= heard' && v.steps != [] && v.otx.raw in t.sent
    requires v.resend.Some? ==> ResendHeard(heard', |heard| + 1, v.otx, v.steps[1..], v.resend.value)
    requires v.resend.Some? ==> Resigned(v.otx.raw, v.steps[1].fee, v.steps[1].tip) in t.sent
    ensures forall u :: u in visits + [v] ==> VisitSent(t, u) && VisitHeard(heard', u)
  {
    hide Resigned;
    assert heard'[|heard|] == (heard + [SendIs(v.otx.raw, v.reply)])[|heard|];
    forall u | u in visits ensures VisitSent(t, u) && VisitHeard(heard', u) {
    }
  }

  /** The drain claim of a pass that got to its end rests on what its visits heard and nothing else. */
  lemma PassDrains(s: State, t: State, rows: seq<OtxRow>, a: Address, from: nat, visits: seq<Visit>, upTo: nat)
    requires Inv(s) && IsListing(s, rows, a, from, true) && a in s.next && upTo <= s.next[a]
    requires from <= |MinedBy(t.mined, a)| && (forall v :: v in visits ==> VisitSent(t, v))
    requires Visited(rows, visits) && |visits| == |rows|
    ensures DrainsAfter(t, a, upTo, visits)
  {
    hide Inv, IsListing, OtxTrace, MinedBy, Reaches, Resigned;
    var count := |MinedBy(t.mined, a)|;
    if forall v :: v in visits && v.otx.nonce >= count ==> Taken(v) != {} {
      forall n | count <= n < upTo ensures Holds(Accepted(visits), a, n) {
        ListingReaches(s, rows, a, from, n);
        var j :| 0 <= j < |rows| && rows[j].nonce == n && rows[j].raw.intent.sender == a
          && rows[j].raw.intent.nonce == n;
        assert visits[j] in visits;
        var tx :| tx in Taken(visits[j]);
        TakenIntent(visits[j], tx);
        assert tx in Accepted(visits);
      }
      HeldReaches(t, a, Accepted(visits), upTo);
    }
  }

  lemma TakenIntent(v: Visit, tx: Tx)
    requires tx in Taken(v)
    ensures tx.intent == v.otx.raw.intent
  {
  }

  lemma PassStarts(s: State, a: Address)
    ensures PassSoFar(s, s, a, [])
  {
  }

  lemma ListingFacts(s: State, rows: seq<OtxRow>, a: Address, from: nat)
    requires Inv(s) && IsListing(s, rows, a, from, true)
    ensures forall row :: row in rows ==>
              row.account == a && row.id in s.otx && s.otx[row.id] == row && row in s.versions
    ensures forall i, j :: 0 <= i < j < |rows| ==> rows[i].nonce < rows[j].nonce
  {
    hide Inv;
    forall row | row in rows ensures row in s.versions {
      CurrentVersionFact(s, row.id);
    }
  }

  lemma PassKeepsChain(s: State, t: State, a: Address, done: seq<OtxRow>)
    requires PassSoFar(s, t, a, done)
    ensures t.mined == s.mined
  {
    hide SameRow, SettledRow;
  }

  /** Nonce order puts every used-up nonce before the first otx that can stop the pass. */
  lemma PassEnds(s: State, t: State, a: Address, from: nat, rows: seq<OtxRow>, i: nat)
    requires Inv(s) && from == |MinedBy(s.mined, a)| && IsListing(s, rows, a, from, true) && i <= |rows|
    requires PassSoFar(s, t, a, rows[..i])
    requires i < |rows| ==> rows[i].nonce >= from
    ensures PassEffect(s, t, a)
  {
    hide Inv, SameRow, SettledRow, MinedBy, IsOpen, SameChain, IsListing;
    forall o | o in s.otx && s.otx[o].account == a && s.otx[o].nonce < from
      ensures if IsOpen(s, o) then SettledRow(s, t, o) else SameRow(s, t, o) {
      OpenIsVisited(s, a, from, rows, i, o);
    }
  }

  lemma OpenIsVisited(s: State, a: Address, from: nat, rows: seq<OtxRow>, i: nat, o: nat)
    requires Inv(s) && IsListing(s, rows, a, from, true) && i <= |rows| && (i < |rows| ==> rows[i].nonce >= from)
    requires o in s.otx && s.otx[o].account == a && s.otx[o].nonce < from
    ensures IsOpen(s, o) <==> s.otx[o] in rows[..i]
  {
    hide Inv, StatusesOf;
    IdOf(s, o);
    assert Listed(s, o, a, from, true) <==> IsOpen(s, o);
    hide Listed, IsOpen;
    if s.otx[o] in rows {
      var j :| 0 <= j < |rows| && rows[j] == s.otx[o];
      assert j < i;
      assert rows[..i][j] == s.otx[o];
    }
  }

  lemma ListingReaches(s: State, rows: seq<OtxRow>, a: Address, from: nat, n: nat)
    requires Inv(s) && IsListing(s, rows, a, from, true) && a in s.next && from <= n < s.next[a]
    ensures exists j ::
              0 <= j < |rows| && rows[j].nonce == n && rows[j].raw.intent.sender == a && rows[j].raw.intent.nonce == n
  {
    RowAt(s, a, n);
    var o :| o in s.otx && At(s.otx[o], a, n);
    CurrentVersionFact(s, o);
    hide Inv;
    assert Listed(s, o, a, from, true);
    var j :| 0 <= j < |rows| && rows[j] == s.otx[o];
  }

  lemma NextGrew(s: State, t: State, a: Address)
    requires Grows(s, t) && a in s.next
    ensures a in t.next && s.next[a] <= t.next[a]
  {
    hide Kept, IdsAppend, ChainGrows, PendingNotReentered;
  }

  /** A pass over one account; the first reply it got was number `at`. */
  datatype Pass = Pass(account: Address, at: nat, rows: seq<OtxRow>, visits: seq<Visit>, ok: bool)

  function PassSteps(passes: seq<Pass>): seq<Step> {
    if passes == [] then [] else PassSteps(passes[..|passes| - 1]) + AllSteps(passes[|passes| - 1].visits)
  }

  function AccountsOf(passes: seq<Pass>): set<Address> {
    set p | p in passes :: p.account
  }

  /** The pass went by what this process heard, from its first reply to its last. */
  ghost predicate PassFits(heard: seq<Reply>, p: Pass) {
    && PassHeard(heard, p.at, p.account, p.rows, p.ok) && Visited(p.rows, p.visits)
    && forall v :: v in p.visits ==> VisitHeard(heard, v)
  }

  predicate PassPrompt(p: Pass) {
    p.ok && forall v :: v in p.visits ==> Prompt(v.otx, v.reply, v.resend, v.ok)
  }

  lemma PassNext(heard: seq<Reply>, heard': seq<Reply>, passes: seq<Pass>, p: Pass)
    requires heard <= heard' && PassFits(heard', p) && forall q :: q in passes ==> PassFits(heard, q)
    ensures forall q :: q in passes + [p] ==> PassFits(heard', q)
    ensures PassSteps(passes + [p]) == PassSteps(passes) + AllSteps(p.visits)
    ensures AccountsOf(passes + [p]) == AccountsOf(passes) + {p.account}
  {
    assert (passes + [p])[..|passes|] == passes;
    assert forall q :: q in passes + [p] <==> q in passes || q == p;
    hide Visited;
    forall q | q in passes ensures PassFits(heard', q) {
    }
  }

  lemma OnePassEach(passes: seq<Pass>, p: Pass)
    requires forall i, j :: 0 <= i < j < |passes| ==> passes[i].account != passes[j].account
    requires p.account !in AccountsOf(passes)
    ensures var all := passes + [p]; forall i, j :: 0 <= i < j < |all| ==> all[i].account != all[j].account
  {
    assert forall i :: 0 <= i < |passes| ==> passes[i] in passes;
  }

  lemma NoPasses()
    ensures AccountsOf([]) == {} && PassSteps([]) == []
  {
  }

  /** A run of the periodic unlocker: every account with an otx on the page of stuck ones, as it was when this
      process saw it, gets one pass; nothing else is done, and one account's failure does not keep the others
      from theirs. */
  method Work(w: World, aged: set<nat>) returns (ok: bool, ghost seen: State, ghost passes: seq<Pass>)
    requires w.Valid()
    modifies w
    ensures w.Later(old(w.s), old(w.log)) && w.own == old(w.own) + PassSteps(passes)
    ensures old(w.heard) <= w.heard && |old(w.heard)| < |w.heard| && w.heard[|old(w.heard)|].RowsAre?
    ensures var stuck := w.heard[|old(w.heard)|].rows;
            ok == stuck.Some? && AccountsOf(passes) == if ok then AffectedAccounts(stuck.value) else {}
    ensures ok ==>
              IsPage(seen, StuckIds(seen, aged), w.heard[|old(w.heard)|].rows.value) && Grows(old(w.s), seen)
                && Grows(seen, w.s)
    ensures forall i, j :: 0 <= i < j < |passes| ==> passes[i].account != passes[j].account
    ensures forall p :: p in passes ==> PassFits(w.heard, p)
    ensures AllAnswered(old(w.heard), w.heard) ==> forall p :: p in passes ==> PassPrompt(p)
    ensures w.quiet ==> AllAnswered(old(w.heard), w.heard) && ok && RunEffect(old(w.s), w.s, AccountsOf(passes))
    ensures w.quiet ==> forall o :: OnPage(StuckIds(old(w.s), aged), o) ==>
              o in old(w.s).otx && old(w.s).otx[o].account in AccountsOf(passes)
    ensures w.quiet ==>
              forall a :: a in AccountsOf(passes) ==>
                exists o :: OnPage(StuckIds(old(w.s), aged), o) && o in old(w.s).otx && old(w.s).otx[o].account == a
  {
    hide Onward, Run, Init, Inv, Grows, Next, MinedBy, RunEffect, PassEffect, IsPage, OnPage, StuckIds, Visited,
      AllSteps, Reachable, PassFits, PassPrompt, PassSteps, AccountsOf, AllAnswered, AffectedAccounts, DrainsAfter,
      VisitHeard, VisitSent, PassHeard, Prompt;
    passes, seen := [], w.s;
    NoPasses();
    NothingAsked(w.heard);
    var stuckOtxs := w.ReadStuck(aged);
    OneMoreAnswer(old(w.heard), old(w.heard), RowsAre(stuckOtxs));
    if stuckOtxs.None? {
      return false, seen, passes;
    }
    ghost var s0, log0, heard0 := w.s, w.log, w.heard;
    seen := s0;
    w.Since(old(w.s), old(w.log));
    RunStarts(s0);
    PageAccounts(s0, aged, stuckOtxs.value);
    var rest := AffectedAccounts(stuckOtxs.value);
    ghost var affected := rest;
    if |stuckOtxs.value| == 0 {
      NobodyAffected(stuckOtxs.value);
      w.Since(s0, log0);
      return true, seen, passes;
    }
    while rest != {}
      invariant w.Later(old(w.s), old(w.log)) && w.Later(s0, log0) && w.own == old(w.own) + PassSteps(passes)
                && heard0 <= w.heard
      invariant rest !! AccountsOf(passes) && rest + AccountsOf(passes) == affected
      invariant forall i, j :: 0 <= i < j < |passes| ==> passes[i].account != passes[j].account
      invariant forall p :: p in passes ==> PassFits(w.heard, p)
      invariant AllAnswered(old(w.heard), w.heard) ==> forall p :: p in passes ==> PassPrompt(p)
      invariant w.quiet ==> AllAnswered(old(w.heard), w.heard) && RunEffect(s0, w.s, AccountsOf(passes))
    {
      var account :| account in rest;
      rest := rest - {account};
      ghost var s1, heard1 := w.s, w.heard;
      ghost var rows, visits;
      var done;
      done, rows, visits := ProcessAccount(w, account);
      ghost var p := Pass(account, |heard1|, rows, visits, done);
      AnsweredBetween(old(w.heard), heard1, w.heard);
      if w.quiet {
        RunStep(s0, s1, w.s, AccountsOf(passes), account);
      }
      Fits(w.heard, p);
      PassNext(heard1, w.heard, passes, p);
      OnePassEach(passes, p);
      passes := passes + [p];
    }
    w.Since(s0, log0);
    return true, seen, passes;
  }

  lemma NobodyAffected(rows: seq<OtxRow>)
    requires rows == []
    ensures AffectedAccounts(rows) == {}
  {
  }

  lemma Fits(heard: seq<Reply>, p: Pass)
    requires PassHeard(heard, p.at, p.account, p.rows, p.ok) && Visited(p.rows, p.visits)
    requires forall v :: v in p.visits ==> VisitHeard(heard, v)
    ensures PassFits(heard, p)
    ensures PassPrompt(p) <==> p.ok && forall v :: v in p.visits ==> Prompt(v.otx, v.reply, v.resend, v.ok)
  {
    hide PassHeard, Visited, VisitHeard, Prompt;
  }
}
