/** The command-line unlocker: several nodes, five counters, and accounts that stop at the first sign of no gas. */
module Cli {
  import opened Types
  import opened Fees
  import opened Lifecycle
  import opened Invariant
  import opened Preservation
  import opened Growth
  import opened Theorems
  import opened RpcErrors
  import opened Queries
  import opened Stability
  import opened World

  const ALL_NODES_FAILED := "all nodes failed: "

  lemma AllNodesWrappingIsTransparent(msg: string)
    ensures UnlockerClassify(ALL_NODES_FAILED + msg) == UnlockerClassify(msg)
  {
    AllNodesHoldsNoPhrase();
    assert ALL_NODES_FAILED[|ALL_NODES_FAILED| - 2] == ':' && ALL_NODES_FAILED[|ALL_NODES_FAILED| - 1] == ' ';
    hide Contains;
    forall p | p in PHRASES ensures Contains(ALL_NODES_FAILED + msg, p) <==> Contains(msg, p) {
      PhrasesArePlain(p);
      NoPhraseSpansWrapper(ALL_NODES_FAILED, msg, "", p);
      assert ALL_NODES_FAILED + msg + "" == ALL_NODES_FAILED + msg;
    }
  }

  lemma AllNodesHoldsNoPhrase()
    ensures !Contains(ALL_NODES_FAILED, NONCE_LOW) && !Contains(ALL_NODES_FAILED, REPLACEMENT)
    ensures !Contains(ALL_NODES_FAILED, UNDERPRICED) && !Contains(ALL_NODES_FAILED, FEE_CAP)
            && !Contains(ALL_NODES_FAILED, FUNDS)
  {
    hide Contains, HasPair;
    AllNodesPairs();
    PairsRuleOut(ALL_NODES_FAILED);
  }

  lemma PairsRuleOut(s: string)
    requires !HasPair(s, 'o', 'n') && !HasPair(s, 'e', 'p') && !HasPair(s, 't', 'r') && !HasPair(s, 'f', 'e')
             && !HasPair(s, 'f', 'u')
    ensures !Contains(s, NONCE_LOW) && !Contains(s, REPLACEMENT) && !Contains(s, UNDERPRICED) && !Contains(s, FEE_CAP)
            && !Contains(s, FUNDS)
  {
    hide HasPair, Contains;
    assert !Contains(s, NONCE_LOW) by { PairRulesOut(s, NONCE_LOW, 1); }
    assert !Contains(s, REPLACEMENT) by { PairRulesOut(s, REPLACEMENT, 1); }
    FeeAndFundsPairs(s);
  }

  lemma FeeAndFundsPairs(s: string)
    requires !HasPair(s, 't', 'r') && !HasPair(s, 'f', 'e') && !HasPair(s, 'f', 'u')
    ensures !Contains(s, UNDERPRICED) && !Contains(s, FEE_CAP) && !Contains(s, FUNDS)
  {
    hide HasPair, Contains;
    assert !Contains(s, UNDERPRICED) by { PairRulesOut(s, UNDERPRICED, 0); }
    assert !Contains(s, FEE_CAP) by { PairRulesOut(s, FEE_CAP, 4); }
    assert !Contains(s, FUNDS) by { PairRulesOut(s, FUNDS, 13); }
  }

  lemma AllNodesPairs()
    ensures var s := ALL_NODES_FAILED;
            !HasPair(s, 'o', 'n') && !HasPair(s, 'e', 'p') && !HasPair(s, 't', 'r') && !HasPair(s, 'f', 'e')
              && !HasPair(s, 'f', 'u')
  {
  }

  // ----- several nodes

  /** The next node is tried only after a network error. */
  predicate IsNetworkReply(r: SendReply) {
    r.TransportError? && (r.transport || Contains(r.msg, TIMEOUT))
  }

  /** The error after the replies of the nodes tried so far: the first reply that is no network error decides. */
  function MultiError(replies: seq<SendReply>): Option<GoError>
    requires replies != []
  {
    match replies[|replies| - 1]
    case Accepted => None
    case RpcError(msg) => Some(Plain(msg, false))
    case CallError(msg) => Some(Plain(msg, false))
    case TransportError(msg, transport) =>
      Some(Plain(if transport || Contains(msg, TIMEOUT) then ALL_NODES_FAILED + msg else msg, transport))
  }

  /** The nodes are asked in turn; every reply but the last is a network error, and after a network error
      only the end of the list stops the search. */
  predicate Tried(replies: seq<SendReply>, clients: nat) {
    && 0 < |replies| <= clients
    && (forall i :: 0 <= i < |replies| - 1 ==> IsNetworkReply(replies[i]))
    && (IsNetworkReply(replies[|replies| - 1]) ==> |replies| == clients)
  }

  function Repeat(step: Step, n: nat): seq<Step> {
    seq(n, _ => step)
  }

  /** The replies from position `n` on are what the nodes said to `tx`. */
  predicate SendsHeard(heard: seq<Reply>, n: nat, tx: Tx, replies: seq<SendReply>) {
    n + |replies| <= |heard| && forall i, k :: 0 <= i < |replies| && k == n + i ==> heard[k] == SendIs(tx, replies[i])
  }

  method SendRawTxMultiNode(w: World, clients: nat, tx: Tx, step: Step)
    returns (err: Option<GoError>, ghost replies: seq<SendReply>)
    requires clients > 0 && w.Valid() && Sends(step) && Enabled(w.s, step) && tx == SentTx(w.s, step)
    modifies w
    ensures w.Later(old(w.s), old(w.log)) && tx in w.s.sent
    ensures Tried(replies, clients) && w.own == old(w.own) + Repeat(step, |replies|)
    ensures 0 < |replies| <= clients
    ensures forall i :: 0 <= i < |replies| ==>
              (i + 1 < clients && replies[i].TransportError?
               && (replies[i].transport || Contains(replies[i].msg, "timeout"))
               <==> i + 1 < |replies|)
    ensures old(w.heard) <= w.heard && |w.heard| == |old(w.heard)| + |replies|
            && SendsHeard(w.heard, |old(w.heard)|, tx, replies)
    ensures AllAnswered(old(w.heard), w.heard)
    ensures err == MultiError(replies)
    ensures err.None? <==> replies[|replies| - 1].Accepted?
    ensures err.Some? ==> UnlockerClassify(Text(err.value)) == WordsClass(replies)
    ensures w.quiet && tx.intent.nonce < |MinedBy(old(w.s).mined, tx.intent.sender)| ==>
              err.Some? && WordsClass(replies) == NonceLow
    ensures w.quiet ==> w.s == old(w.s).(sent := old(w.s).sent + {tx})
  {
    hide Run, Init, Contains, Enabled, SentTx, Sends, UnlockerClassify, Text, MinedBy;
    replies := [];
    var lastErr := GoError.Plain("", false);
    for c := 0 to clients
      invariant w.Later(old(w.s), old(w.log)) && w.own == old(w.own) + Repeat(step, |replies|)
      invariant old(w.heard) <= w.heard && |w.heard| == |old(w.heard)| + c
                && SendsHeard(w.heard, |old(w.heard)|, tx, replies)
      invariant AllAnswered(old(w.heard), w.heard)
      invariant w.quiet ==> w.s == if c == 0 then old(w.s) else old(w.s).(sent := old(w.s).sent + {tx})
      invariant w.quiet && tx.intent.nonce < |MinedBy(old(w.s).mined, tx.intent.sender)| ==> c == 0
      invariant |replies| == c && forall i :: 0 <= i < c ==> IsNetworkReply(replies[i])
      invariant c > 0 ==>
                  tx in w.s.sent && replies[c - 1].TransportError?
                    && lastErr == Plain(replies[c - 1].msg, replies[c - 1].transport)
    {
      w.StillSends(old(w.s), old(w.log), step);
      var r := w.Send(tx, step);
      replies := replies + [r];
      DecidedBy(replies);
      match r
      case Accepted => return None, replies;
      case RpcError(msg) =>
        LowIsLow(msg);
        return Some(Plain(msg, false)), replies;
      case CallError(msg) => return Some(Plain(msg, false)), replies;
      case TransportError(msg, transport) =>
        if !(transport || Contains(msg, TIMEOUT)) {
          return Some(Plain(msg, transport)), replies;
        }
        lastErr := Plain(msg, transport);
    }
    DecidedBy(replies);
    return Some(Plain(ALL_NODES_FAILED + lastErr.text, lastErr.transport)), replies;
  }

  /** The class of what the deciding node said, in its own words. */
  function WordsClass(replies: seq<SendReply>): Class
    requires replies != []
  {
    match replies[|replies| - 1]
    case Accepted => Unknown
    case RpcError(msg) => UnlockerClassify(msg)
    case CallError(msg) => UnlockerClassify(msg)
    case TransportError(msg, _) => UnlockerClassify(msg)
  }

  /** However the error of a send is wrapped, it has the class of the deciding node's own words. */
  lemma DecidedBy(replies: seq<SendReply>)
    requires replies != []
    ensures MultiError(replies).None? <==> replies[|replies| - 1].Accepted?
    ensures MultiError(replies).Some? ==> UnlockerClassify(Text(MultiError(replies).value)) == WordsClass(replies)
  {
    hide Contains, UnlockerClassify;
    var last := replies[|replies| - 1];
    if last.TransportError? {
      AllNodesWrappingIsTransparent(last.msg);
    }
  }

  method GetNonceMultiNode(w: World, clients: nat, a: Address) returns (r: Option<nat>)
    requires clients > 0 && w.Valid()
    modifies w
    ensures w.Later(old(w.s), old(w.log)) && w.own == old(w.own)
    ensures r.Some? ==> r.value == |MinedBy(w.s.mined, a)|
    ensures old(w.heard) < w.heard && w.heard[|w.heard| - 1] == NonceIs(a, r)
    ensures w.quiet ==> w.s == old(w.s) && r.Some?
  {
    hide Run, Init, MinedBy;
    for c := 0 to clients
      invariant w.Later(old(w.s), old(w.log)) && w.own == old(w.own)
      invariant w.quiet ==> w.s == old(w.s) && c == 0
      invariant old(w.heard) <= w.heard
                && (c > 0 ==> old(w.heard) < w.heard && w.heard[|w.heard| - 1] == NonceIs(a, None))
    {
      var nonce := w.ReadChainNonce(a);
      if nonce.Some? {
        return nonce;
      }
    }
    return None;
  }

  method GetReceiptMultiNode(w: World, clients: nat, h: Hash) returns (r: ReceiptReply)
    requires clients > 0 && w.Valid()
    modifies w
    ensures w.Later(old(w.s), old(w.log)) && w.own == old(w.own)
    ensures r.Receipt? ==> HashMined(w.s, h) && r.ok == MinedAt(w.s, h).ok
    ensures r.NoReceipt? ==> !HashMined(w.s, h)
    ensures old(w.heard) < w.heard && w.heard[|w.heard| - 1] == ReceiptIs(h, r)
    ensures w.quiet ==> w.s == old(w.s) && !r.CallFailed? && AllAnswered(old(w.heard), w.heard)
  {
    hide Run, Init, MinedBy, HashMined;
    for c := 0 to clients
      invariant w.Later(old(w.s), old(w.log)) && w.own == old(w.own)
      invariant w.quiet ==> w.s == old(w.s) && w.heard == old(w.heard) && c == 0
      invariant old(w.heard) <= w.heard
                && (c > 0 ==> old(w.heard) < w.heard && w.heard[|w.heard| - 1] == ReceiptIs(h, CallFailed))
    {
      ghost var heard1 := w.heard;
      r := w.ReadReceipt(h);
      OneAnswer(heard1, ReceiptIs(h, r));
      if !r.CallFailed? {
        return;
      }
    }
    return CallFailed;
  }

  // ----- one otx

  /** What became of one otx, and the counter it goes to.  `Crashed`: the tool dereferences a missing receipt. */
  datatype Outcome = Resubmitted | Resigned | AlreadyDone | OutOfGas | Failed | Crashed

  /** The last thing this process heard. */
  predicate LastHeard(heard: seq<Reply>, r: Reply) {
    heard != [] && heard[|heard| - 1] == r
  }

  method CheckReceiptAndUpdate(w: World, clients: nat, otx: OtxRow) returns (crashed: bool, ghost did: seq<Step>)
    requires clients > 0 && w.Valid() && otx in w.s.versions
    modifies w
    ensures w.Later(old(w.s), old(w.log)) && w.own == old(w.own) + did && old(w.heard) <= w.heard
    ensures crashed <==> LastHeard(w.heard, ReceiptIs(otx.hash, NoReceipt))
    ensures did == if LastHeard(w.heard, DatabaseIs(true)) then [WriteReceipt(otx)] else []
    ensures did == [] && !crashed ==>
              LastHeard(w.heard, DatabaseIs(false)) || LastHeard(w.heard, ReceiptIs(otx.hash, CallFailed))
    ensures crashed ==> !HashMined(w.s, otx.hash)
    ensures w.quiet ==> (crashed <==> !HashMined(old(w.s), otx.hash)) && (!crashed ==> did == [WriteReceipt(otx)])
    ensures w.quiet ==> AllAnswered(old(w.heard), w.heard)
  {
    hide Run, Init, Inv, MinedBy, HashMined, Onward, Next;
    did := [];
    var receipt := GetReceiptMultiNode(w, clients, otx.hash);
    w.StillHeld(old(w.s), old(w.log), otx);
    match receipt
    case CallFailed => return false, did;
    case NoReceipt => return true, did;
    case Receipt(_, succeeded) =>
      var status := REVERTED;
      if succeeded {
        status := SUCCESS;
      }
      var ok := w.SetReceiptStatus(otx, status);
      did := if ok then [WriteReceipt(otx)] else [];
      crashed := false;
  }

  /** What a re-sign can end in: the new transaction with the caps it was given, or an error. */
  datatype ResignResult = NewTx(tx: Tx, fee: nat, tip: nat) | ResignError(err: GoError)

  /** The replies of a re-sign from position `n` on: the gas price, the key, then the nodes' words on the new
      transaction. */
  predicate ResignHeard(heard: seq<Reply>, n: nat, otx: OtxRow, gasPrice: nat, tip: nat, resends: seq<SendReply>) {
    && n + 1 < |heard| && heard[n] == GasIs(Some((gasPrice, tip))) && heard[n + 1] == DatabaseIs(true)
    && SendsHeard(heard, n + 2, Fees.Resigned(otx.raw, OracleFeeCap(gasPrice), tip), resends)
  }

  /** Without `resends` the re-sign failed before it came to the send. */
  method ResignAndSubmit(w: World, clients: nat, otx: OtxRow)
    returns (r: ResignResult, ghost gasPrice: nat, ghost tip: nat, ghost resends: seq<SendReply>, ghost did: seq<Step>)
    requires clients > 0 && w.Valid() && otx in w.s.versions
    modifies w
    ensures w.Later(old(w.s), old(w.log)) && w.own == old(w.own) + did && old(w.heard) < w.heard
    ensures did == Repeat(SendResigned(otx, OracleFeeCap(gasPrice), tip), |resends|)
    ensures resends == [] ==> r.ResignError?
    ensures resends != [] ==>
              && otx.raw.intent.to.Some? && Tried(resends, clients)
              && ResignHeard(w.heard, |old(w.heard)|, otx, gasPrice, tip, resends)
                 && |w.heard| == |old(w.heard)| + 2 + |resends|
              && (r.NewTx? <==> resends[|resends| - 1].Accepted?)
              && (r.ResignError? ==> UnlockerClassify(Text(r.err)) == WordsClass(resends))
    ensures r.NewTx? ==>
              && r.fee == OracleFeeCap(gasPrice) && r.tip == tip
              && r.tx == Fees.Resigned(otx.raw, r.fee, r.tip) && r.tx in w.s.sent
    ensures AllAnswered(old(w.heard), w.heard) ==> (resends != [] <==> otx.raw.intent.to.Some?)
    ensures w.quiet ==> AllAnswered(old(w.heard), w.heard)
  {
    hide Run, Init, Inv, Onward, Next, Enabled, SentTx, Sends, Tried, MultiError, Fees.Resigned, UnlockerClassify,
      WordsClass, AllAnswered, SendsHeard, MinedBy;
    did, resends, gasPrice, tip := [], [], 0, 0;
    NothingAsked(w.heard);
    var priced := w.GasSettings();
    ghost var heard1 := w.heard;
    OneMoreAnswer(old(w.heard), old(w.heard), GasIs(priced));
    if priced.None? {
      var text: string := *;
      return ResignError(Plain(text, true)), gasPrice, tip, resends, did;
    }
    var (price, newGasTipCap) := priced.value;
    var newGasFeeCap := price * 120 / 100;
    gasPrice, tip := price, newGasTipCap;
    var fee, tipCap := newGasFeeCap, newGasTipCap;
    if newGasFeeCap <= otx.raw.feeCap {
      newGasFeeCap := otx.raw.feeCap * 115 / 100;
    }
    if newGasTipCap <= otx.raw.tipCap {
      newGasTipCap := otx.raw.tipCap * 115 / 100;
    }
    var loaded := w.Database();
    ghost var heard2 := w.heard;
    OneMoreAnswer(old(w.heard), heard1, DatabaseIs(loaded));
    if !loaded || otx.raw.intent.to.None? {
      var text: string, transport: bool := *, *;
      return ResignError(Plain(text, transport)), gasPrice, tip, resends, did;
    }
    var newTx := Tx(otx.raw.intent, newGasFeeCap, newGasTipCap);
    CapsAreRaised(otx.raw, fee, tipCap);
    HeldCanSend(w.s, otx, fee, tipCap);
    var err;
    err, resends := SendRawTxMultiNode(w, clients, newTx, SendResigned(otx, fee, tipCap));
    AnsweredBetween(old(w.heard), heard2, w.heard);
    TriedSome(resends, clients);
    did := Repeat(SendResigned(otx, fee, tipCap), |resends|);
    match err
    case None => r := NewTx(newTx, fee, tipCap);
    case Some(e) =>
      SubmitWrappingIsTransparent(Text(e));
      r := ResignError(Plain(SUBMIT + Text(e), e.Plain? && e.transport));
  }

  lemma TriedSome(replies: seq<SendReply>, clients: nat)
    requires Tried(replies, clients)
    ensures |replies| > 0
  {
  }

  function ErrorClass(err: GoError): Class {
    CliClassify(Text(err), err.Plain? && err.transport)
  }

  lemma ByWords(err: GoError)
    ensures var words := UnlockerClassify(Text(err));
            if words == Unknown then ErrorClass(err) in {Unknown, NetworkClass} else ErrorClass(err) == words
  {
    hide UnlockerClassify, Text, Contains;
  }

  /** What the tool was told about one otx: the nodes' words on its transaction; if it was re-signed, the class of
      an error before the new send, or the gas price and the nodes' words on the new one. */
  datatype Told = Told(replies: seq<SendReply>, early: Class, gasPrice: nat, tip: nat, resends: seq<SendReply>)

  /** The replies from position `n` to position `end` are the ones that `told` speaks of. */
  predicate ToldBy(heard: seq<Reply>, n: nat, end: nat, otx: OtxRow, told: Told) {
    var next := n + |told.replies|;
    && next <= end <= |heard| && SendsHeard(heard, n, otx.raw, told.replies)
    && (told.resends != [] ==>
          next + 2 + |told.resends| <= end && ResignHeard(heard, next, otx, told.gasPrice, told.tip, told.resends))
  }

  /** What the tool does about one otx follows from the deciding nodes' own words, whatever they are wrapped in;
      `last` is the last reply it got. */
  predicate Acts(otx: OtxRow, told: Told, last: Reply, outcome: Outcome, did: seq<Step>)
    requires told.replies != []
  {
    if told.replies[|told.replies| - 1].Accepted? then
      outcome == Resubmitted && did == if last == DatabaseIs(true) then [MarkInNetwork(otx)] else []
    else match WordsClass(told.replies) {
      case NonceLow =>
        && outcome == (if last == ReceiptIs(otx.hash, NoReceipt) then Crashed else AlreadyDone)
        && did == if last == DatabaseIs(true) then [WriteReceipt(otx)] else []
      case NoGas => outcome == OutOfGas && did == []
      case GasPrice | ReplacementUnderpriced => ResignActs(otx, told, last, outcome, did)
      case _ => outcome == Failed && did == []
    }
  }

  predicate ResignActs(otx: OtxRow, told: Told, last: Reply, outcome: Outcome, did: seq<Step>) {
    var fee := OracleFeeCap(told.gasPrice);
    var sends := Repeat(SendResigned(otx, fee, told.tip), |told.resends|);
    if told.resends == [] then
      outcome == (if told.early == NoGas then OutOfGas else Failed) && did == []
    else if told.resends[|told.resends| - 1].Accepted? then
      if last == DatabaseIs(true) then outcome == Resigned && did == sends + [WriteResigned(otx, fee, told.tip)]
      else outcome == Failed && did == sends
    else
      outcome == (if WordsClass(told.resends) == NoGas then OutOfGas else Failed) && did == sends
  }

  /** The deciding node's words, if it did not take the transaction. */
  function Words(replies: seq<SendReply>): string
    requires replies != [] && !replies[|replies| - 1].Accepted?
  {
    match replies[|replies| - 1]
    case RpcError(msg) => msg
    case CallError(msg) => msg
    case TransportError(msg, _) => msg
  }

  predicate Took(replies: seq<SendReply>) {
    replies != [] && replies[|replies| - 1].Accepted?
  }

  predicate MissesFunds(replies: seq<SendReply>) {
    replies != [] && !Took(replies) && FundsWords(Words(replies))
  }

  predicate Complains(replies: seq<SendReply>) {
    replies != [] && !Took(replies) && PriceWords(Words(replies))
  }

  /** The node missed funds, for the stored transaction or, after a complaint about the price, for the new one. */
  predicate NoFundsHeard(told: Told) {
    || MissesFunds(told.replies)
    || (Complains(told.replies) && if told.resends == [] then told.early == NoGas else MissesFunds(told.resends))
  }

  /** The outcomes, each by what was heard. */
  lemma OutcomeIff(otx: OtxRow, told: Told, last: Reply, outcome: Outcome, did: seq<Step>)
    requires told.replies != [] && Acts(otx, told, last, outcome, did)
    ensures outcome == OutOfGas <==> NoFundsHeard(told)
    ensures outcome == Resubmitted <==> Took(told.replies)
    ensures outcome in {AlreadyDone, Crashed} <==>
              !Took(told.replies) && Contains(Words(told.replies), "nonce too low")
    ensures outcome == Resigned <==> Complains(told.replies) && Took(told.resends) && last == DatabaseIs(true)
    ensures outcome == Crashed ==> last == ReceiptIs(otx.hash, NoReceipt)
    ensures outcome == OutOfGas && MissesFunds(told.replies) ==> did == []
    ensures outcome == Resubmitted ==> did == if last == DatabaseIs(true) then [MarkInNetwork(otx)] else []
    ensures outcome == AlreadyDone ==> did == if last == DatabaseIs(true) then [WriteReceipt(otx)] else []
    ensures outcome == Resigned ==>
              did == Repeat(SendResigned(otx, OracleFeeCap(told.gasPrice), told.tip), |told.resends|)
                     + [WriteResigned(otx, OracleFeeCap(told.gasPrice), told.tip)]
  {
    if !Took(told.replies) {
      ClassByWords(Words(told.replies));
    }
    if told.resends != [] && !Took(told.resends) {
      ClassByWords(Words(told.resends));
    }
    hide UnlockerClassify, PriceWords, FundsWords, OtherWords, Contains;
  }

  /** When every query is answered, a gas error on anything but a contract creation leads to a resend. */
  predicate Resends(otx: OtxRow, told: Told)
    requires told.replies != []
  {
    !told.replies[|told.replies| - 1].Accepted? && WordsClass(told.replies) in {GasPrice, ReplacementUnderpriced} ==>
      (told.resends != [] <==> otx.raw.intent.to.Some?)
  }

  /** The switch over the class of a failed send. */
  method ActOnError(w: World, clients: nat, otx: OtxRow, err: GoError, ghost replies: seq<SendReply>)
    returns (outcome: Outcome, ghost told: Told, ghost did: seq<Step>)
    requires clients > 0 && w.Valid() && otx in w.s.versions && w.heard != []
    requires replies != [] && !replies[|replies| - 1].Accepted? && UnlockerClassify(Text(err)) == WordsClass(replies)
    modifies w
    ensures w.Later(old(w.s), old(w.log)) && w.own == old(w.own) + did && old(w.heard) <= w.heard
    ensures told.replies == replies && Acts(otx, told, w.heard[|w.heard| - 1], outcome, did)
    ensures told.resends != [] ==>
              && Tried(told.resends, clients)
                 && ResignHeard(w.heard, |old(w.heard)|, otx, told.gasPrice, told.tip, told.resends)
              && |old(w.heard)| + 2 + |told.resends| <= |w.heard|
    ensures AllAnswered(old(w.heard), w.heard) ==> Resends(otx, told)
    ensures outcome == Crashed ==> !HashMined(w.s, otx.hash)
    ensures w.quiet ==> AllAnswered(old(w.heard), w.heard)
    ensures w.quiet && outcome in {AlreadyDone, Crashed} ==> (outcome == AlreadyDone <==> HashMined(old(w.s), otx.hash))
    ensures WordsClass(replies) == NonceLow ==> outcome in {AlreadyDone, Crashed}
    ensures outcome != Resubmitted
  {
    hide Run, Init, Inv, Onward, Next, HashMined, Tried, ErrorClass, Fees.Resigned, UnlockerClassify, Text, AllAnswered,
      WordsClass, SendsHeard, ResignActs, ResignHeard;
    NothingAsked(w.heard);
    did, told := [], Told(replies, Unknown, 0, 0, []);
    ByWords(err);
    match ErrorClass(err)
    case NonceLow =>
      var crashed;
      crashed, did := CheckReceiptAndUpdate(w, clients, otx);
      outcome := if crashed then Crashed else AlreadyDone;
    case GasPrice | ReplacementUnderpriced =>
      ghost var early, gasPrice, tip, resends;
      outcome, early, gasPrice, tip, resends, did := Resign(w, clients, otx);
      told := Told(replies, early, gasPrice, tip, resends);
    case NoGas =>
      outcome := OutOfGas;
    case _ =>
      outcome := Failed;
  }

  method ProcessOtx(w: World, clients: nat, otx: OtxRow)
    returns (outcome: Outcome, ghost told: Told, ghost did: seq<Step>)
    requires clients > 0 && w.Valid() && otx in w.s.versions
    modifies w
    ensures w.Later(old(w.s), old(w.log)) && w.own == old(w.own) + Repeat(Resubmit(otx), |told.replies|) + did
    ensures Tried(told.replies, clients) && (told.resends != [] ==> Tried(told.resends, clients))
    ensures old(w.heard) < w.heard && ToldBy(w.heard, |old(w.heard)|, |w.heard|, otx, told)
    ensures Acts(otx, told, w.heard[|w.heard| - 1], outcome, did)
    ensures AllAnswered(old(w.heard), w.heard) ==> Resends(otx, told)
    ensures outcome == Crashed ==> !HashMined(w.s, otx.hash)
    ensures w.quiet ==> AllAnswered(old(w.heard), w.heard)
    ensures w.quiet && outcome in {AlreadyDone, Crashed} ==> (outcome == AlreadyDone <==> HashMined(old(w.s), otx.hash))
    ensures w.quiet && otx.nonce < |MinedBy(old(w.s).mined, otx.account)| ==> outcome in {AlreadyDone, Crashed}
  {
    hide Run, Init, Inv, Onward, Next, Enabled, SentTx, Sends, HashMined, Tried, MultiError, Fees.Resigned,
      UnlockerClassify, Text, AllAnswered, WordsClass, SendsHeard, ResignHeard, Acts, Resends, ToldBy, MinedBy;
    w.Known();
    HeldCanSend(w.s, otx, 0, 0);
    HeldRow(w.s, otx);
    var err;
    ghost var replies;
    err, replies := SendRawTxMultiNode(w, clients, otx.raw, Resubmit(otx));
    TriedSome(replies, clients);
    ghost var heard1 := w.heard;
    w.StillHeld(old(w.s), old(w.log), otx);
    if w.quiet {
      SameMined(old(w.s), w.s, otx.hash);
    }
    if err.None? {
      told := Told(replies, Unknown, 0, 0, []);
      var ok := w.SetInNetwork(otx);
      OneMoreAnswer(old(w.heard), heard1, DatabaseIs(ok));
      did := if ok then [MarkInNetwork(otx)] else [];
      outcome := Resubmitted;
      AcceptedActs(otx, told, DatabaseIs(ok), did);
    } else {
      outcome, told, did := ActOnError(w, clients, otx, err.value, replies);
      AnsweredBetween(old(w.heard), heard1, w.heard);
    }
    IsToldBy(heard1, w.heard, |old(w.heard)|, otx, told);
  }

  lemma AcceptedActs(otx: OtxRow, told: Told, last: Reply, did: seq<Step>)
    requires told.replies != [] && told.replies[|told.replies| - 1].Accepted?
    requires did == if last == DatabaseIs(true) then [MarkInNetwork(otx)] else []
    ensures Acts(otx, told, last, Resubmitted, did) && Resends(otx, told)
  {
  }

  lemma IsToldBy(heard: seq<Reply>, heard': seq<Reply>, n: nat, otx: OtxRow, told: Told)
    requires SendsHeard(heard, n, otx.raw, told.replies) && |heard| == n + |told.replies| && heard <= heard'
    requires told.resends != [] ==> ResignHeard(heard', |heard|, otx, told.gasPrice, told.tip, told.resends)
    requires told.resends != [] ==> |heard| + 2 + |told.resends| <= |heard'|
    ensures ToldBy(heard', n, |heard'|, otx, told)
  {
    SendsOn(heard, heard', n, otx.raw, told.replies);
    hide SendsHeard, ResignHeard;
  }

  lemma SendsOn(heard: seq<Reply>, heard': seq<Reply>, n: nat, tx: Tx, replies: seq<SendReply>)
    requires SendsHeard(heard, n, tx, replies) && heard <= heard'
    ensures SendsHeard(heard', n, tx, replies)
  {
  }

  /** The gas-related branch. */
  method Resign(w: World, clients: nat, otx: OtxRow)
    returns (outcome: Outcome, ghost early: Class, ghost gasPrice: nat, ghost tip: nat, ghost resends: seq<SendReply>,
             ghost did: seq<Step>)
    requires clients > 0 && w.Valid() && otx in w.s.versions
    modifies w
    ensures w.Later(old(w.s), old(w.log)) && w.own == old(w.own) + did && old(w.heard) < w.heard
    ensures forall replies: seq<SendReply> ::
              ResignActs(otx, Told(replies, early, gasPrice, tip, resends), w.heard[|w.heard| - 1], outcome, did)
    ensures resends != [] ==>
              && Tried(resends, clients) && ResignHeard(w.heard, |old(w.heard)|, otx, gasPrice, tip, resends)
              && |old(w.heard)| + 2 + |resends| <= |w.heard|
    ensures AllAnswered(old(w.heard), w.heard) ==> (resends != [] <==> otx.raw.intent.to.Some?)
    ensures w.quiet ==> AllAnswered(old(w.heard), w.heard)
    ensures outcome in {Resigned, OutOfGas, Failed}
  {
    hide Run, Init, Inv, Onward, Next, Fees.Resigned, UnlockerClassify, Text, ErrorClass, Tried, SendsHeard,
      AllAnswered, WordsClass;
    var r;
    r, gasPrice, tip, resends, did := ResignAndSubmit(w, clients, otx);
    early := Unknown;
    ghost var heard1 := w.heard;
    w.StillHeld(old(w.s), old(w.log), otx);
    match r
    case ResignError(err) =>
      ByWords(err);
      early := ErrorClass(err);
      outcome := if ErrorClass(err) == NoGas then OutOfGas else Failed;
    case NewTx(tx, fee, tipCap) =>
      var ok := w.SetResigned(otx, tx, fee, tipCap);
      OneMoreAnswer(old(w.heard), heard1, DatabaseIs(ok));
      SendsOn(heard1, w.heard, |old(w.heard)| + 2, tx, resends);
      if !ok {
        outcome := Failed;
        return;
      }
      did := did + [WriteResigned(otx, fee, tipCap)];
      outcome := Resigned;
  }

  // ----- the run

  datatype Stats = Stats(resubmitted: nat, resigned: nat, alreadyDone: nat, skipped: nat, failed: nat)

  function Total(st: Stats): nat {
    st.resubmitted + st.resigned + st.alreadyDone + st.skipped + st.failed
  }

  function Plus(x: Stats, y: Stats): Stats {
    Stats(x.resubmitted + y.resubmitted, x.resigned + y.resigned, x.alreadyDone + y.alreadyDone, x.skipped + y.skipped,
          x.failed + y.failed)
  }

  /** One fetched otx; no outcome when it was passed over.  It was told the replies from number `start` to `end`. */
  datatype Visit = Visit(otx: OtxRow, outcome: Option<Outcome>, told: Told, steps: seq<Step>, start: nat, end: nat)

  /** Nothing was heard about an otx that was not sent. */
  const SILENCE := Told([], Unknown, 0, 0, [])

  function CountOf(outcome: Option<Outcome>): Stats {
    match outcome
    case None => Stats(0, 0, 0, 1, 0)
    case Some(Resubmitted) => Stats(1, 0, 0, 0, 0)
    case Some(Resigned) => Stats(0, 1, 0, 0, 0)
    case Some(AlreadyDone) => Stats(0, 0, 1, 0, 0)
    case Some(OutOfGas) => Stats(0, 0, 0, 1, 0)
    case Some(Failed) => Stats(0, 0, 0, 0, 1)
    case Some(Crashed) => Stats(0, 0, 0, 0, 0)
  }

  function Tally(visits: seq<Visit>): Stats {
    if visits == [] then Stats(0, 0, 0, 0, 0)
      else Plus(Tally(visits[..|visits| - 1]), CountOf(visits[|visits| - 1].outcome))
  }

  function AllSteps(visits: seq<Visit>): seq<Step> {
    if visits == [] then [] else AllSteps(visits[..|visits| - 1]) + visits[|visits| - 1].steps
  }

  lemma OneMore(visits: seq<Visit>, v: Visit)
    ensures Tally(visits + [v]) == Plus(Tally(visits), CountOf(v.outcome))
            && AllSteps(visits + [v]) == AllSteps(visits) + v.steps
  {
    assert (visits + [v])[..|visits|] == visits;
  }

  /** Every fetched otx is counted once, unless the tool crashed on it. */
  lemma {:induction false} EveryVisitCounts(visits: seq<Visit>)
    requires forall v :: v in visits ==> v.outcome != Some(Crashed)
    ensures Total(Tally(visits)) == |visits|
    decreases |visits|
  {
    if visits != [] {
      EveryVisitCounts(visits[..|visits| - 1]);
    }
  }

  ghost predicate RanOut(visits: seq<Visit>, i: nat) {
    i < |visits| && visits[i].outcome == Some(OutOfGas)
  }

  ghost predicate RanOutBefore(visits: seq<Visit>, j: nat) {
    exists i: nat :: i < j && RanOut(visits, i)
  }

  /** After a no-gas outcome nothing more of the account is touched; before it nothing is passed over. */
  ghost predicate StopsAtNoGas(visits: seq<Visit>) {
    forall j :: 0 <= j < |visits| ==>
      && (visits[j].outcome.None? <==> RanOutBefore(visits, j))
      && (visits[j].outcome.None? ==> visits[j].steps == [])
  }

  lemma StopsOneMore(visits: seq<Visit>, v: Visit)
    requires StopsAtNoGas(visits) && (v.outcome.None? <==> RanOutBefore(visits, |visits|))
             && (v.outcome.None? ==> v.steps == [])
    ensures StopsAtNoGas(visits + [v])
    ensures RanOutBefore(visits + [v], |visits| + 1) <==> RanOutBefore(visits, |visits|) || v.outcome == Some(OutOfGas)
  {
    var all := visits + [v];
    forall i: nat | i < |visits| ensures RanOut(all, i) <==> RanOut(visits, i) {
    }
    assert RanOut(all, |visits|) <==> v.outcome == Some(OutOfGas);
    hide RanOut;
    forall j: nat | j <= |visits| ensures RanOutBefore(all, j) <==> RanOutBefore(visits, j) {
    }
    hide RanOutBefore;
    forall j | 0 <= j < |all|
      ensures (all[j].outcome.None? <==> RanOutBefore(all, j)) && (all[j].outcome.None? ==> all[j].steps == []) {
      if j < |visits| {
        assert all[j] == visits[j];
      }
    }
  }

  /** The outcome and the steps of a visit follow from what the nodes replied; a row that cannot be decoded fails
      unsent. */
  predicate Explained(heard: seq<Reply>, v: Visit, clients: nat, quiet: bool)
    requires v.outcome.Some?
  {
    if v.told.replies == [] then
      v.told == SILENCE && v.steps == [] && v.outcome.value == Failed && v.start == v.end && !quiet
    else
      && Tried(v.told.replies, clients) && (v.told.resends != [] ==> Tried(v.told.resends, clients))
      && v.start < v.end && ToldBy(heard, v.start, v.end, v.otx, v.told) && |v.told.replies| <= |v.steps|
      && Acts(v.otx, v.told, heard[v.end - 1], v.outcome.value, v.steps[|v.told.replies|..])
      && v.steps[..|v.told.replies|] == Repeat(Resubmit(v.otx), |v.told.replies|)
  }

  method VisitOtx(w: World, clients: nat, otx: OtxRow)
    returns (outcome: Outcome, ghost told: Told, ghost steps: seq<Step>)
    requires clients > 0 && w.Valid() && otx in w.s.versions
    modifies w
    ensures w.Later(old(w.s), old(w.log)) && w.own == old(w.own) + steps && old(w.heard) <= w.heard
    ensures Explained(w.heard, Visit(otx, Some(outcome), told, steps, |old(w.heard)|, |w.heard|), clients, w.quiet)
  {
    hide Run, Init, Acts, ToldBy;
    steps, told := [], SILENCE;
    var decoded: bool := *;
    if !w.quiet && !decoded {
      return Failed, told, steps;
    }
    ghost var did;
    outcome, told, did := ProcessOtx(w, clients, otx);
    steps := Repeat(Resubmit(otx), |told.replies|) + did;
    assert steps[|told.replies|..] == did && steps[..|told.replies|] == Repeat(Resubmit(otx), |told.replies|);
  }

  lemma ExplainedOn(heard: seq<Reply>, heard': seq<Reply>, v: Visit, clients: nat, quiet: bool)
    requires v.outcome.Some? && Explained(heard, v, clients, quiet) && heard <= heard'
    ensures Explained(heard', v, clients, quiet)
  {
    hide ResignActs, Tried, Acts, SendsHeard;
    if v.told.replies != [] {
      SendsOn(heard, heard', v.start, v.otx.raw, v.told.replies);
      if v.told.resends != [] {
        SendsOn(heard, heard', v.start + |v.told.replies| + 2,
                Fees.Resigned(v.otx.raw, OracleFeeCap(v.told.gasPrice), v.told.tip), v.told.resends);
      }
    }
  }

  /** Every visit of a row of `a` is explained. */
  predicate AllExplained(heard: seq<Reply>, a: Address, visits: seq<Visit>, clients: nat, quiet: bool) {
    forall v :: v in visits ==>
      v.otx.account == a && if v.outcome.None? then v.told == SILENCE else Explained(heard, v, clients, quiet)
  }

  /** The account stops exactly at the first otx the nodes find no funds for: nothing after it is touched. */
  ghost predicate StopsWithoutFunds(visits: seq<Visit>, noGas: bool) {
    && (noGas <==> exists i: nat :: i < |visits| && NoFundsHeard(visits[i].told))
    && forall i: nat, j: nat :: i < j < |visits| && NoFundsHeard(visits[i].told) ==>
         visits[j].outcome.None? && visits[j].steps == []
  }

  lemma StopsByWords(heard: seq<Reply>, a: Address, visits: seq<Visit>, clients: nat, quiet: bool, noGas: bool)
    requires AllExplained(heard, a, visits, clients, quiet) && StopsAtNoGas(visits)
    requires noGas <==> RanOutBefore(visits, |visits|)
    ensures StopsWithoutFunds(visits, noGas)
  {
    hide Acts, ToldBy, NoFundsHeard, RanOutBefore, Tried;
    forall i: nat | i < |visits| ensures NoFundsHeard(visits[i].told) <==> RanOut(visits, i) {
      NoFundsIsOut(heard, a, visits[i], clients, quiet);
    }
    hide Explained, AllExplained, RanOut;
    RanOutByWords(visits, noGas);
  }

  lemma NoFundsIsOut(heard: seq<Reply>, a: Address, v: Visit, clients: nat, quiet: bool)
    requires if v.outcome.None? then v.told == SILENCE else Explained(heard, v, clients, quiet)
    ensures NoFundsHeard(v.told) <==> v.outcome == Some(OutOfGas)
  {
    if v.told.replies != [] {
      OutcomeIff(v.otx, v.told, heard[v.end - 1], v.outcome.value, v.steps[|v.told.replies|..]);
    }
    hide Acts, ToldBy, Tried, PriceWords, FundsWords;
  }

  lemma RanOutByWords(visits: seq<Visit>, noGas: bool)
    requires StopsAtNoGas(visits) && (noGas <==> RanOutBefore(visits, |visits|))
    requires forall i: nat :: i < |visits| ==> (NoFundsHeard(visits[i].told) <==> RanOut(visits, i))
    ensures StopsWithoutFunds(visits, noGas)
  {
    hide NoFundsHeard, RanOut;
    forall i: nat, j: nat | i < j < |visits| && NoFundsHeard(visits[i].told)
      ensures visits[j].outcome.None? && visits[j].steps == [] {
      assert RanOut(visits, i) && RanOutBefore(visits, j);
    }
    if noGas {
      var i: nat :| i < |visits| && RanOut(visits, i);
      assert NoFundsHeard(visits[i].told);
    }
  }

  lemma ExplainNext(heard: seq<Reply>, heard': seq<Reply>, a: Address, visits: seq<Visit>, v: Visit, clients: nat,
                    quiet: bool)
    requires AllExplained(heard, a, visits, clients, quiet) && heard <= heard'
    requires v.otx.account == a && if v.outcome.None? then v.told == SILENCE else Explained(heard', v, clients, quiet)
    ensures AllExplained(heard', a, visits + [v], clients, quiet)
  {
    hide Explained;
    forall u | u in visits + [v] && u.outcome.Some? ensures Explained(heard', u, clients, quiet) {
      if u != v {
        ExplainedOn(heard, heard', u, clients, quiet);
      }
    }
  }

  /** The fetched rows are visited in order, all of them unless the tool crashes on one. */
  predicate Covers(rows: seq<OtxRow>, visits: seq<Visit>) {
    && |visits| <= |rows| && (forall k :: 0 <= k < |visits| ==> visits[k].otx == rows[k])
    && (|visits| == |rows| || (visits != [] && visits[|visits| - 1].outcome == Some(Crashed)))
  }

  /** Reply number `at` is the account's rows, told right after its nonce, or the failure to get either. */
  predicate FetchHeard(heard: seq<Reply>, at: nat, a: Address, rows: seq<OtxRow>, skippedWhole: bool) {
    && at < |heard|
    && if skippedWhole then rows == [] && (heard[at] == NonceIs(a, None) || heard[at] == RowsAre(None))
       else && 0 < at && heard[at] == RowsAre(Some(rows))
            && heard[at - 1].NonceIs? && heard[at - 1].nonceOf == a && heard[at - 1].count.Some?
  }

  /** One account, in a run that is not dry.  An account whose nonce or otxs cannot be read is skipped whole. */
  method ProcessAccount(w: World, clients: nat, a: Address, stats0: Stats)
    returns (stats: Stats, noGas: bool, crashed: bool, ghost r: AccountRun)
    requires clients > 0 && w.Valid()
    modifies w
    ensures w.Later(old(w.s), old(w.log)) && w.own == old(w.own) + AllSteps(r.visits)
    ensures old(w.heard) <= w.heard && |old(w.heard)| <= r.at
    ensures r.account == a && r.noGas == noGas && RunFits(w.heard, r, clients, w.quiet)
    ensures stats == Plus(Plus(stats0, Tally(r.visits)), Stats(0, 0, 0, if r.skippedWhole then 1 else 0, 0))
    ensures crashed <==> exists v :: v in r.visits && v.outcome == Some(Crashed)
    ensures StopsWithoutFunds(r.visits, noGas)
    ensures w.quiet ==> !r.skippedWhole
    ensures w.quiet && !crashed ==>
              forall o :: o in old(w.s).otx && old(w.s).otx[o].account == a
                          && old(w.s).otx[o].nonce >= |MinedBy(old(w.s).mined, a)| ==>
                exists v :: v in r.visits && v.otx == old(w.s).otx[o]
  {
    hide Run, Init, Inv, Onward, Next, MinedBy, IsListing, StopsAtNoGas, RanOutBefore, Tally, AllSteps, AllExplained,
      Explained, Plus, CountOf;
    stats, noGas, crashed := stats0, false, false;
    NoVisits();
    SkippedWhole(stats0);
    NoneExplained(a, clients, w.quiet);
    var networkNonce := GetNonceMultiNode(w, clients, a);
    if networkNonce.None? {
      stats := stats.(skipped := stats.skipped + 1);
      r := AccountRun(a, |w.heard| - 1, [], true, false, []);
      return;
    }
    var otxs := w.ReadListing(a, networkNonce.value, false);
    r := AccountRun(a, |w.heard| - 1, [], true, false, []);
    if otxs.None? {
      stats := stats.(skipped := stats.skipped + 1);
      return;
    }
    ghost var s0 := w.s;
    w.Known();
    Fetched(s0, otxs.value, a, networkNonce.value);
    ghost var at, heard0, visits := |w.heard| - 1, w.heard, [];
    stats, noGas, crashed, visits := ProcessOtxs(w, clients, a, networkNonce.value, otxs.value, stats0);
    StopsByWords(w.heard, a, visits, clients, w.quiet, noGas);
    r := AccountRun(a, at, otxs.value, false, noGas, visits);
    assert FetchHeard(w.heard, at, a, otxs.value, false);
    if w.quiet && !crashed {
      AllVisited(s0, otxs.value, a, networkNonce.value, visits);
    }
  }

  /** The loop over an account's otxs. */
  method ProcessOtxs(w: World, clients: nat, a: Address, networkNonce: nat, otxs: seq<OtxRow>, stats0: Stats)
    returns (stats: Stats, noGas: bool, crashed: bool, ghost visits: seq<Visit>)
    requires clients > 0 && w.Valid()
    requires forall row :: row in otxs ==> row.account == a && row.nonce >= networkNonce && row in w.s.versions
    modifies w
    ensures w.Later(old(w.s), old(w.log)) && w.own == old(w.own) + AllSteps(visits) && old(w.heard) <= w.heard
    ensures stats == Plus(stats0, Tally(visits))
    ensures StopsAtNoGas(visits) && (noGas <==> RanOutBefore(visits, |visits|))
    ensures AllExplained(w.heard, a, visits, clients, w.quiet) && Covers(otxs, visits)
    ensures crashed <==> exists v :: v in visits && v.outcome == Some(Crashed)
  {
    hide Run, Init, Inv, Onward, Next, MinedBy, StopsAtNoGas, RanOutBefore, Tally, AllSteps, AllExplained, Explained,
      Plus, CountOf;
    stats, noGas, crashed, visits := stats0, false, false, [];
    NoVisits();
    SkippedWhole(stats0);
    NoneExplained(a, clients, w.quiet);
    var skipAccount := false;
    var i := 0;
    while i < |otxs|
      invariant 0 <= i <= |otxs|
      invariant w.Later(old(w.s), old(w.log)) && w.own == old(w.own) + AllSteps(visits) && old(w.heard) <= w.heard
      invariant stats == Plus(stats0, Tally(visits))
      invariant StopsAtNoGas(visits) && (skipAccount <==> RanOutBefore(visits, |visits|)) && noGas == skipAccount
      invariant !crashed && forall v :: v in visits ==> v.outcome != Some(Crashed)
      invariant AllExplained(w.heard, a, visits, clients, w.quiet)
      invariant |visits| == i && forall k :: 0 <= k < i ==> visits[k].otx == otxs[k]
    {
      var otx := otxs[i];
      i := i + 1;
      ghost var heard1 := w.heard;
      if skipAccount {
        stats := stats.(skipped := stats.skipped + 1);
        ghost var v := Visit(otx, None, SILENCE, [], |heard1|, |heard1|);
        Take(visits, v);
        ExplainNext(heard1, w.heard, a, visits, v, clients, w.quiet);
        OneCounter(stats0, Tally(visits), None);
        visits := visits + [v];
        continue;
      }
      if otx.nonce < networkNonce {
        assert false; // the query asks for nonces from networkNonce on
      }
      w.StillHeld(old(w.s), old(w.log), otx);
      var outcome;
      ghost var told, steps;
      outcome, told, steps := VisitOtx(w, clients, otx);
      ghost var v := Visit(otx, Some(outcome), told, steps, |heard1|, |w.heard|);
      Take(visits, v);
      ExplainNext(heard1, w.heard, a, visits, v, clients, w.quiet);
      OneCounter(stats0, Tally(visits), Some(outcome));
      visits := visits + [v];
      match outcome
      case Resubmitted => stats := stats.(resubmitted := stats.resubmitted + 1);
      case Resigned => stats := stats.(resigned := stats.resigned + 1);
      case AlreadyDone => stats := stats.(alreadyDone := stats.alreadyDone + 1);
      case OutOfGas =>
        noGas := true;
        skipAccount := true;
        stats := stats.(skipped := stats.skipped + 1);
      case Failed => stats := stats.(failed := stats.failed + 1);
      case Crashed =>
        crashed := true;
        assert visits[|visits| - 1] == v;
        return;
    }
  }

  lemma NoneExplained(a: Address, clients: nat, quiet: bool)
    ensures forall heard :: AllExplained(heard, a, [], clients, quiet)
  {
  }

  lemma AllVisited(s: State, rows: seq<OtxRow>, a: Address, from: nat, visits: seq<Visit>)
    requires IsListing(s, rows, a, from, false) && |visits| == |rows|
             && forall k :: 0 <= k < |rows| ==> visits[k].otx == rows[k]
    ensures forall o :: o in s.otx && s.otx[o].account == a && s.otx[o].nonce >= from ==>
              exists v :: v in visits && v.otx == s.otx[o]
  {
    forall o | o in s.otx && s.otx[o].account == a && s.otx[o].nonce >= from
      ensures exists v :: v in visits && v.otx == s.otx[o] {
      assert Listed(s, o, a, from, false);
      var k :| 0 <= k < |rows| && rows[k] == s.otx[o];
      assert visits[k] in visits;
    }
  }

  /** How often an outcome, or being passed over, came up. */
  function Times(visits: seq<Visit>, outcome: Option<Outcome>): nat {
    if visits == [] then 0 else
      Times(visits[..|visits| - 1], outcome) + if visits[|visits| - 1].outcome == outcome then 1 else 0
  }

  /** Each counter counts its own outcome; otxs passed over count as skipped like the one without gas before them. */
  lemma {:induction false} CountersAre(visits: seq<Visit>)
    ensures Tally(visits).resubmitted == Times(visits, Some(Resubmitted))
    ensures Tally(visits).resigned == Times(visits, Some(Resigned))
    ensures Tally(visits).alreadyDone == Times(visits, Some(AlreadyDone))
    ensures Tally(visits).skipped == Times(visits, Some(OutOfGas)) + Times(visits, None)
    ensures Tally(visits).failed == Times(visits, Some(Failed))
    decreases |visits|
  {
    if visits != [] {
      CountersAre(visits[..|visits| - 1]);
    }
  }

  /** The counter each outcome goes to. */
  lemma OneCounter(stats0: Stats, t: Stats, outcome: Option<Outcome>)
    ensures var was, now := Plus(stats0, t), Plus(stats0, Plus(t, CountOf(outcome)));
            match outcome
            case None => now == was.(skipped := was.skipped + 1)
            case Some(Resubmitted) => now == was.(resubmitted := was.resubmitted + 1)
            case Some(Resigned) => now == was.(resigned := was.resigned + 1)
            case Some(AlreadyDone) => now == was.(alreadyDone := was.alreadyDone + 1)
            case Some(OutOfGas) => now == was.(skipped := was.skipped + 1)
            case Some(Failed) => now == was.(failed := was.failed + 1)
            case Some(Crashed) => now == was
  {
  }

  lemma SkippedWhole(stats0: Stats)
    ensures Plus(Plus(stats0, Tally([])), Stats(0, 0, 0, 1, 0)) == stats0.(skipped := stats0.skipped + 1)
    ensures forall st :: Plus(st, Stats(0, 0, 0, 0, 0)) == st
    ensures Plus(stats0, Tally([])) == stats0
  {
  }

  lemma NoVisits()
    ensures StopsAtNoGas([]) && Tally([]) == Stats(0, 0, 0, 0, 0) && AllSteps([]) == [] && !RanOutBefore([], 0)
  {
  }

  lemma Take(visits: seq<Visit>, v: Visit)
    requires StopsAtNoGas(visits) && (v.outcome.None? <==> RanOutBefore(visits, |visits|))
             && (v.outcome.None? ==> v.steps == [])
    ensures StopsAtNoGas(visits + [v])
    ensures RanOutBefore(visits + [v], |visits| + 1) <==> RanOutBefore(visits, |visits|) || v.outcome == Some(OutOfGas)
    ensures Tally(visits + [v]) == Plus(Tally(visits), CountOf(v.outcome))
            && AllSteps(visits + [v]) == AllSteps(visits) + v.steps
  {
    StopsOneMore(visits, v);
    OneMore(visits, v);
  }

  lemma Fetched(s: State, rows: seq<OtxRow>, a: Address, from: nat)
    requires Inv(s) && IsListing(s, rows, a, from, false)
    ensures forall row :: row in rows ==> row.account == a && row.nonce >= from && row in s.versions
  {
    hide Inv;
    forall row | row in rows ensures row.account == a && row.nonce >= from && row in s.versions {
      CurrentVersionFact(s, row.id);
    }
  }

  /** What the run did for one account; reply number `at` was its rows, or the failure to get them. */
  datatype AccountRun = AccountRun(account: Address, at: nat, rows: seq<OtxRow>, skippedWhole: bool, noGas: bool,
                                   visits: seq<Visit>)

  function RunSteps(runs: seq<AccountRun>): seq<Step> {
    if runs == [] then [] else RunSteps(runs[..|runs| - 1]) + AllSteps(runs[|runs| - 1].visits)
  }

  /** The OTXs fetched and the accounts skipped whole. */
  function Handled(runs: seq<AccountRun>): nat {
    if runs == [] then 0 else
      var last := runs[|runs| - 1];
      Handled(runs[..|runs| - 1]) + |last.visits| + if last.skippedWhole then 1 else 0
  }

  lemma HandledOneMore(runs: seq<AccountRun>, r: AccountRun)
    ensures Handled(runs + [r]) == Handled(runs) + |r.visits| + if r.skippedWhole then 1 else 0
    ensures RunSteps(runs + [r]) == RunSteps(runs) + AllSteps(r.visits)
  {
    assert (runs + [r])[..|runs|] == runs;
  }

  ghost predicate RunFits(heard: seq<Reply>, r: AccountRun, clients: nat, quiet: bool) {
    && StopsAtNoGas(r.visits) && (r.noGas <==> RanOutBefore(r.visits, |r.visits|))
    && FetchHeard(heard, r.at, r.account, r.rows, r.skippedWhole) && Covers(r.rows, r.visits)
    && AllExplained(heard, r.account, r.visits, clients, quiet)
  }

  lemma FitsNext(heard: seq<Reply>, heard': seq<Reply>, runs: seq<AccountRun>, r: AccountRun, clients: nat, quiet: bool)
    requires heard <= heard' && RunFits(heard', r, clients, quiet)
             && forall q :: q in runs ==> RunFits(heard, q, clients, quiet)
    ensures forall q :: q in runs + [r] ==> RunFits(heard', q, clients, quiet)
  {
    hide Explained, StopsAtNoGas, RanOutBefore, Covers;
    forall q | q in runs ensures RunFits(heard', q, clients, quiet) {
      forall v | v in q.visits && v.outcome.Some? ensures Explained(heard', v, clients, quiet) {
        ExplainedOn(heard, heard', v, clients, quiet);
      }
    }
  }

  /** One run per account, and the accounts whose run ended for want of gas. */
  ghost predicate Reported(runs: seq<AccountRun>, noGas: set<Address>) {
    && (forall i, j :: 0 <= i < j < |runs| ==> runs[i].account != runs[j].account)
    && noGas == set r | r in runs && r.noGas :: r.account
  }

  function AccountsOf(runs: seq<AccountRun>): set<Address> {
    set r | r in runs :: r.account
  }

  lemma ReportedOneMore(runs: seq<AccountRun>, noGas: set<Address>, r: AccountRun)
    requires Reported(runs, noGas) && r.account !in AccountsOf(runs)
    ensures Reported(runs + [r], if r.noGas then noGas + {r.account} else noGas)
    ensures AccountsOf(runs + [r]) == AccountsOf(runs) + {r.account}
  {
    var all := runs + [r];
    assert forall x :: x in all <==> x in runs || x == r;
    assert forall i :: 0 <= i < |runs| ==> runs[i] in runs && all[i] == runs[i];
  }

  /** The run over all accounts with an otx on the page of stuck ones.  Unless it crashes, the five counters together
      count every otx it fetched and every account it skipped whole, and the accounts reported for a gas top-up
      are exactly those that ran out of gas. */
  method UnlockAll(w: World, clients: nat, aged: set<nat>)
    returns (stats: Stats, noGasAccounts: set<Address>, crashed: bool, ghost runs: seq<AccountRun>)
    requires clients > 0 && w.Valid()
    modifies w
    ensures w.Later(old(w.s), old(w.log)) && w.own == old(w.own) + RunSteps(runs)
    ensures old(w.heard) < w.heard && w.heard[|old(w.heard)|].RowsAre?
    ensures var stuck, accounts := w.heard[|old(w.heard)|].rows, AccountsOf(runs);
            if stuck.None? then runs == [] && !crashed
            else accounts <= AffectedAccounts(stuck.value) && (!crashed ==> accounts == AffectedAccounts(stuck.value))
    ensures !crashed ==> Total(stats) == Handled(runs)
    ensures forall r :: r in runs ==> RunFits(w.heard, r, clients, w.quiet)
    ensures Reported(runs, noGasAccounts)
    ensures w.quiet && !crashed ==>
              forall o :: OnPage(StuckIds(old(w.s), aged), o) ==>
                o in old(w.s).otx && old(w.s).otx[o].account in AccountsOf(runs)
  {
    hide Run, Init, IsPage, OnPage, StuckIds, StopsAtNoGas, RanOutBefore, Explained, Plus, Tally, AllSteps, Total,
      StopsWithoutFunds, RunFits, Reported, AccountsOf, AffectedAccounts, Onward, Inv, Listed, MinedBy, Reachable,
      Handled, RunSteps, Grows;
    stats, noGasAccounts, crashed, runs := Stats(0, 0, 0, 0, 0), {}, false, [];
    NothingCounted();
    NothingReported(runs);
    var stuck := w.ReadStuck(aged);
    if stuck.None? {
      return;
    }
    PageAccounts(w.s, aged, stuck.value);
    var rest := AffectedAccounts(stuck.value);
    ghost var affected, heard0 := rest, w.heard;
    while rest != {}
      invariant w.Later(old(w.s), old(w.log)) && w.own == old(w.own) + RunSteps(runs) && heard0 <= w.heard && !crashed
      invariant Total(stats) == Handled(runs)
      invariant forall r :: r in runs ==> RunFits(w.heard, r, clients, w.quiet)
      invariant Reported(runs, noGasAccounts) && AccountsOf(runs) == affected - rest && rest <= affected
    {
      var account :| account in rest;
      rest := rest - {account};
      var before := stats;
      var noGas;
      ghost var r, heard1 := *, w.heard;
      stats, noGas, crashed, r := ProcessAccount(w, clients, account, stats);
      HandledOneMore(runs, r);
      if !crashed {
        Counted(before, stats, r.visits, r.skippedWhole);
      }
      FitsNext(heard1, w.heard, runs, r, clients, w.quiet);
      ReportedOneMore(runs, noGasAccounts, r);
      runs := runs + [r];
      if noGas {
        noGasAccounts := noGasAccounts + {account};
      }
      if crashed {
        return;
      }
    }
  }

  lemma NothingCounted()
    ensures Total(Stats(0, 0, 0, 0, 0)) == 0
  {
  }

  lemma NothingReported(runs: seq<AccountRun>)
    requires runs == []
    ensures AccountsOf(runs) == {} && Reported(runs, {}) && Handled(runs) == 0 && RunSteps(runs) == []
  {
    var noGas := set r | r in runs && r.noGas :: r.account;
    assert noGas == {};
  }

  lemma Counted(stats0: Stats, stats: Stats, visits: seq<Visit>, skippedWhole: bool)
    requires stats == Plus(Plus(stats0, Tally(visits)), Stats(0, 0, 0, if skippedWhole then 1 else 0, 0))
    requires forall v :: v in visits ==> v.outcome != Some(Crashed)
    ensures Total(stats) == Total(stats0) + |visits| + if skippedWhole then 1 else 0
  {
    EveryVisitCounts(visits);
  }
}
