/** What a receipt check makes of an otx whose nonce is used up, and the block window in which an
    orphaned nonce can be found again. */
module Recovery {
  import opened Types
  import Fees
  import opened Lifecycle
  import opened Invariant
  import opened Preservation
  import opened Theorems
  import opened Queries
  import opened Stability

  /** First block of the scan that ends at the anchor's block. */
  function ScanFrom(anchorBlock: nat): nat {
    if anchorBlock > 5 then anchorBlock - 5 else anchorBlock
  }

  predicate InWindow(block: nat, anchorBlock: nat) {
    ScanFrom(anchorBlock) <= block <= anchorBlock
  }

  /** The otx of the next nonce is SUCCESS under a hash that is mined, and its block is near enough. */
  ghost predicate Anchored(s: State, row: OtxRow) {
    exists o :: NextSuccess(s, o, row) && AnchorReaches(s, row, s.otx[o].hash)
  }

  predicate NextSuccess(s: State, o: nat, row: OtxRow) {
    IsAnchor(s, o, row.account, row.nonce + 1)
  }

  predicate AnchorReaches(s: State, row: OtxRow, anchor: Hash) {
    && HashMined(s, anchor) && row.nonce < |MinedBy(s.mined, row.account)|
    && InWindow(MinedBy(s.mined, row.account)[row.nonce].block, MinedAt(s, anchor).block)
  }

  /** Nonce order is block order: the transaction of a nonce is never after the anchor, and the scan
      misses it exactly when it is more than five blocks back, or earlier at all under an anchor in block 5 or less. */
  lemma WindowMissesIff(s: State, a: Address, n: nat)
    requires Inv(s) && n + 1 < |MinedBy(s.mined, a)|
    ensures var b, anchor := MinedBy(s.mined, a)[n].block, MinedBy(s.mined, a)[n + 1].block;
            && b <= anchor
            && (!InWindow(b, anchor) <==> if anchor > 5 then b < anchor - 5 else b < anchor)
  {
    hide GapFree, LiveOk, RowsOk, SentOk, StatusOk, JobsOk, NewKeysUnused;
  }

  /** The scan compares sender and nonce only; that pins down one transaction of the whole chain. */
  lemma OnlyMatch(s: State, b: nat, tx: Tx)
    requires Inv(s) && tx in BlockTxs(s.mined, b)
    ensures var a, n := tx.intent.sender, tx.intent.nonce;
            n < |MinedBy(s.mined, a)| && MinedBy(s.mined, a)[n].tx == tx && MinedBy(s.mined, a)[n].block == b
              && HashMined(s, HashOf(tx))
  {
    hide GapFree, LiveOk, RowsOk, SentOk, StatusOk, JobsOk, NewKeysUnused;
  }

  lemma MinedInBlock(s: State, a: Address, n: nat)
    requires n < |MinedBy(s.mined, a)|
    ensures MinedBy(s.mined, a)[n].tx in BlockTxs(s.mined, MinedBy(s.mined, a)[n].block)
  {
  }

  /** The otx `o` of `a` with nonce `n` stores the hash that was mined and the status of its receipt. */
  predicate ResolvedBy(s: State, o: nat, a: Address, n: nat)
    requires n < |MinedBy(s.mined, a)|
  {
    var m := MinedBy(s.mined, a)[n];
    o in s.otx && At(s.otx[o], a, n) && s.otx[o].hash == HashOf(m.tx) && StatusesOf(s, o) == [ReceiptStatus(m)]
  }

  /** The state a receipt check of `row` leaves when every call is answered. */
  ghost function Settle(s: State, row: OtxRow): State {
    if HashMined(s, row.hash) then Next(s, WriteReceipt(row))
    else if Anchored(s, row) then Next(s, WriteRecovered(row))
    else s
  }

  predicate SameRow(s: State, t: State, o: nat) {
    o in s.otx && o in t.otx && t.otx[o] == s.otx[o] && StatusesOf(t, o) == StatusesOf(s, o)
  }

  /** In `t`, the otx `o` of `s` is what a receipt check makes of it. */
  ghost predicate SettledRow(s: State, t: State, o: nat) {
    && o in s.otx && o in t.otx
    && var row := s.otx[o];
       if HashMined(s, row.hash) then
         t.otx[o] == row && StatusesOf(t, o) == [ReceiptStatus(MinedAt(s, row.hash))]
       else if Anchored(s, row) && row.nonce < |MinedBy(s.mined, row.account)| then
         var m := MinedBy(s.mined, row.account)[row.nonce];
         t.otx[o] == row.(hash := HashOf(m.tx)) && StatusesOf(t, o) == [ReceiptStatus(m)]
       else SameRow(s, t, o)
  }

  /** `t` is `s` with nothing mined, committed or removed in between. */
  ghost predicate SameChain(s: State, t: State) {
    && t.mined == s.mined && t.next == s.next && t.otx.Keys == s.otx.Keys && t.dispatch.Keys == s.dispatch.Keys
    && forall o :: o in s.otx ==> At(t.otx[o], s.otx[o].account, s.otx[o].nonce)
  }

  /** Between `s` and `t` only the otx `id` changed. */
  ghost predicate OnlyRow(s: State, t: State, id: nat) {
    SameChain(s, t) && forall o :: o in s.otx && o != id ==> SameRow(s, t, o)
  }

  lemma OnlyRowTransitive(s: State, t: State, u: State, id: nat)
    requires OnlyRow(s, t, id) && OnlyRow(t, u, id)
    ensures OnlyRow(s, u, id)
  {
    hide StatusesOf;
  }

  lemma OnlySent(s: State, t: State, tx: Tx, id: nat)
    requires t == s.(sent := s.sent + {tx})
    ensures OnlyRow(s, t, id) && (forall o :: o in s.otx ==> SameRow(s, t, o))
  {
  }

  /** Each write of a process that holds `row` changes that otx only. */
  lemma WriteIsLocal(s: State, step: Step, row: OtxRow)
    requires Inv(s) && row in s.versions
    requires step == MarkInNetwork(row) || step == WriteReceipt(row) || step == WriteRecovered(row)
          || (step.WriteResigned? && step.row == row)
    ensures OnlyRow(s, Next(s, step), row.id)
  {
    hide Inv, MinedBy, HashMined, Fees.Resigned, ReceiptStatus;
    HeldRow(s, row);
    MinedIsVersionSafe(s, row);
  }

  lemma MinedIsVersionSafe(s: State, row: OtxRow)
    requires Inv(s) && row in s.versions
    ensures row.nonce < |MinedBy(s.mined, row.account)| ==>
              MinedBy(s.mined, row.account)[row.nonce].tx.intent.nonce == row.nonce
  {
    if row.nonce < |MinedBy(s.mined, row.account)| {
      hide Inv;
      MinedIsVersion(s, row);
      HeldRow(s, row);
    }
  }

  lemma ReceiptNext(s: State, row: OtxRow)
    requires Enabled(s, WriteReceipt(row))
    ensures HashMined(s, row.hash) && row.id in s.dispatch
    ensures Next(s, WriteReceipt(row)) ==
              s.(dispatch := SetStatus(s.dispatch, row.id, ReceiptStatus(MinedAt(s, row.hash))))
  {
    hide SetStatus, ReceiptStatus, MinedBy;
  }

  lemma RecoveredNext(s: State, row: OtxRow)
    requires Enabled(s, WriteRecovered(row))
    ensures row.nonce < |MinedBy(s.mined, row.account)| && row.id in s.dispatch && row.id in s.otx
    ensures var m := MinedBy(s.mined, row.account)[row.nonce];
            Next(s, WriteRecovered(row)) == PutRow(s, row.id, s.otx[row.id].(hash := HashOf(m.tx)), ReceiptStatus(m))
  {
    hide PutRow, ReceiptStatus, MinedBy;
  }

  lemma ReceiptSettles(s: State, row: OtxRow)
    requires Inv(s) && row.id in s.otx && s.otx[row.id] == row && HashMined(s, row.hash)
    ensures var t := Next(s, WriteReceipt(row));
            row.id in t.otx && t.otx[row.id] == row && StatusesOf(t, row.id) == [ReceiptStatus(MinedAt(s, row.hash))]
  {
    CurrentVersionFact(s, row.id);
    hide Inv, Enabled, VersionOk, ReceiptStatus, HashMined, MinedBy, Next;
    HeldCanWrite(s, row);
    ReceiptNext(s, row);
  }

  lemma RecoveredSettles(s: State, row: OtxRow)
    requires Inv(s) && row.id in s.otx && s.otx[row.id] == row && row.nonce < |MinedBy(s.mined, row.account)|
    ensures var t, m := Next(s, WriteRecovered(row)), MinedBy(s.mined, row.account)[row.nonce];
            row.id in t.otx && t.otx[row.id] == row.(hash := HashOf(m.tx))
              && StatusesOf(t, row.id) == [ReceiptStatus(m)]
  {
    CurrentVersionFact(s, row.id);
    hide Inv, Enabled, VersionOk, ReceiptStatus, HashMined, MinedBy, Next;
    HeldCanWrite(s, row);
    RecoveredNext(s, row);
  }

  lemma SettleSettles(s: State, row: OtxRow)
    requires Inv(s) && row.id in s.otx && s.otx[row.id] == row
    ensures SettledRow(s, Settle(s, row), row.id) && OnlyRow(s, Settle(s, row), row.id)
  {
    CurrentVersionFact(s, row.id);
    hide Inv, MinedBy, HashMined, Anchored, VersionOk, Next, SameRow;
    AnchoredIsMined(s, row);
    if HashMined(s, row.hash) {
      ReceiptSettles(s, row);
      WriteIsLocal(s, WriteReceipt(row), row);
    } else if Anchored(s, row) {
      RecoveredSettles(s, row);
      WriteIsLocal(s, WriteRecovered(row), row);
    } else {
      Unchanged(s, row.id);
    }
  }

  lemma Unchanged(s: State, o: nat)
    ensures OnlyRow(s, s, o) && (o in s.otx ==> SameRow(s, s, o))
  {
  }

  lemma AnchoredIsMined(s: State, row: OtxRow)
    ensures Anchored(s, row) ==> row.nonce < |MinedBy(s.mined, row.account)|
  {
  }

  /** Whether a row is anchored depends on the chain and the otx of the next nonce only. */
  lemma AnchoredIsLocal(s: State, t: State, row: OtxRow)
    requires SameChain(s, t)
    requires forall o :: o in s.otx && At(s.otx[o], row.account, row.nonce + 1) ==> SameRow(s, t, o)
    ensures Anchored(s, row) <==> Anchored(t, row)
  {
    hide HashMined, MinedBy, InWindow, StatusesOf;
    forall o ensures NextSuccess(s, o, row) <==> NextSuccess(t, o, row) {
    }
    assert forall h :: AnchorReaches(s, row, h) <==> AnchorReaches(t, row, h) by { ReachesSame(s, t, row); }
  }

  lemma ReachesSame(s: State, t: State, row: OtxRow)
    requires s.mined == t.mined
    ensures forall h :: AnchorReaches(s, row, h) <==> AnchorReaches(t, row, h)
  {
  }

  lemma NoAnchor(s: State, row: OtxRow, n: nat)
    requires n == row.nonce + 1 && forall o :: !IsAnchor(s, o, row.account, n)
    ensures !Anchored(s, row)
  {
  }

  lemma AnchorUnseen(s: State, row: OtxRow, n: nat, h: Hash)
    requires Inv(s) && n == row.nonce + 1 && (exists o :: IsAnchor(s, o, row.account, n) && s.otx[o].hash == h)
    requires !HashMined(s, h)
    ensures !Anchored(s, row)
  {
    var o :| IsAnchor(s, o, row.account, n) && s.otx[o].hash == h;
    OneAnchor(s, row, o);
    hide Inv, HashMined, MinedBy, NextSuccess;
  }

  lemma AnchorSeen(s: State, row: OtxRow, n: nat, h: Hash)
    requires Inv(s) && n == row.nonce + 1 && (exists o :: IsAnchor(s, o, row.account, n) && s.otx[o].hash == h)
    requires HashMined(s, h) && row.nonce < |MinedBy(s.mined, row.account)|
    ensures Anchored(s, row) <==> InWindow(MinedBy(s.mined, row.account)[row.nonce].block, MinedAt(s, h).block)
  {
    var o :| IsAnchor(s, o, row.account, n) && s.otx[o].hash == h;
    OneAnchor(s, row, o);
    hide Inv, HashMined, MinedBy, NextSuccess;
  }

  lemma OneAnchor(s: State, row: OtxRow, o: nat)
    requires Inv(s) && IsAnchor(s, o, row.account, row.nonce + 1)
    ensures NextSuccess(s, o, row) && forall p :: NextSuccess(s, p, row) ==> p == o
  {
    hide Inv;
    forall p | NextSuccess(s, p, row) ensures p == o {
      OneRowPerNonce(s, p, o);
    }
  }

  /** In the block with the transaction of the row's nonce, and in no other, one transaction matches. */
  lemma Matches(s: State, row: OtxRow, txs: seq<Tx>, b: nat)
    requires Inv(s) && row.nonce < |MinedBy(s.mined, row.account)|
    requires forall tx :: tx in txs <==> tx in BlockTxs(s.mined, b)
    ensures var m := MinedBy(s.mined, row.account)[row.nonce];
            && (m.block == b ==> m.tx in txs)
            && m.tx.intent.sender == row.account && m.tx.intent.nonce == row.nonce
            && forall tx :: tx in txs && tx.intent.sender == row.account && tx.intent.nonce == row.nonce ==>
                 tx == m.tx && m.block == b
  {
    MinedInBlock(s, row.account, row.nonce);
    TargetMined(s, row);
    hide Inv, BlockTxs, MinedBy;
    forall tx | tx in txs && tx.intent.sender == row.account && tx.intent.nonce == row.nonce
      ensures tx == MinedBy(s.mined, row.account)[row.nonce].tx && MinedBy(s.mined, row.account)[row.nonce].block == b {
      OnlyMatch(s, b, tx);
    }
  }

  lemma TargetMined(s: State, row: OtxRow)
    requires Inv(s) && row.nonce < |MinedBy(s.mined, row.account)|
    ensures var m := MinedBy(s.mined, row.account)[row.nonce];
            && HashMined(s, HashOf(m.tx)) && MinedAt(s, HashOf(m.tx)) == m
            && m.tx.intent.sender == row.account && m.tx.intent.nonce == row.nonce
  {
    hide GapFree, LiveOk, RowsOk, SentOk, StatusOk, JobsOk, NewKeysUnused;
  }

  lemma PendingNotSettled(s: State, row: OtxRow)
    requires Inv(s) && row in s.versions && row.nonce >= |MinedBy(s.mined, row.account)|
    ensures Settle(s, row) == s
  {
    HeldRow(s, row);
    AnchoredIsMined(s, row);
    hide Inv, Anchored;
  }

  // ----- one pass over an account

  predicate IsOpen(s: State, o: nat) {
    exists st :: st in StatusesOf(s, o) && st !in TERMINAL
  }

  /** What a pass over account `a` makes of `s` on a frozen chain when every call is answered: every open otx
      whose nonce is used up is settled, whatever happens to the otxs that wait after it. */
  ghost predicate PassEffect(s: State, t: State, a: Address) {
    && SameChain(s, t)
    && (forall o :: o in s.otx && s.otx[o].account != a ==> SameRow(s, t, o))
    && (forall o :: o in s.otx && s.otx[o].account == a && s.otx[o].nonce < |MinedBy(s.mined, a)| ==>
          if IsOpen(s, o) then SettledRow(s, t, o) else SameRow(s, t, o))
  }

  /** The same while the rows `done` have been processed. */
  ghost predicate PassSoFar(s: State, t: State, a: Address, done: seq<OtxRow>) {
    && SameChain(s, t)
    && (forall o :: o in s.otx && (s.otx[o].account != a || s.otx[o] !in done) ==> SameRow(s, t, o))
    && (forall o :: o in s.otx && s.otx[o] in done && s.otx[o].nonce < |MinedBy(s.mined, a)| ==> SettledRow(s, t, o))
  }

  lemma SettledLater(s: State, t: State, u: State, o: nat)
    requires SettledRow(s, t, o) && SameRow(t, u, o)
    ensures SettledRow(s, u, o)
  {
    hide HashMined, MinedBy, Anchored;
  }

  lemma SameLater(s: State, t: State, u: State, o: nat)
    requires SameRow(s, t, o) && SameRow(t, u, o)
    ensures SameRow(s, u, o)
  {
  }

  lemma SettledSame(s: State, t: State, u: State, row: OtxRow)
    requires row.id in s.otx && s.otx[row.id] == row && SameRow(s, t, row.id) && t.mined == s.mined
    requires SettledRow(t, u, row.id) && (Anchored(s, row) <==> Anchored(t, row))
    ensures SettledRow(s, u, row.id)
  {
    hide Anchored;
  }

  /** An anchor is the otx of the next nonce, so in nonce order it is met after the row it anchors. */
  lemma PassStep(s: State, t: State, u: State, a: Address, done: seq<OtxRow>, row: OtxRow)
    requires Inv(s) && Inv(t) && PassSoFar(s, t, a, done)
    requires row.id in s.otx && s.otx[row.id] == row && row.account == a && row in t.versions
    requires forall r :: r in done ==> r.nonce < row.nonce
    requires row.nonce < |MinedBy(s.mined, a)| ==> u == Settle(t.(sent := t.sent + {row.raw}), row)
    requires row.nonce >= |MinedBy(s.mined, a)| ==> OnlyRow(t, u, row.id)
    ensures PassSoFar(s, u, a, done + [row])
  {
    hide Inv, SameRow, SettledRow, Settle, Anchored, MinedBy, Enabled, Next;
    assert row !in done;
    assert SameRow(s, t, row.id);
    var t' := t.(sent := t.sent + {row.raw});
    OnlySent(t, t', row.raw, row.id);
    if row.nonce < |MinedBy(s.mined, a)| {
      assert Inv(t') by {
        HeldCanSend(t, row, 0, 0);
        QuietSend(t, Resubmit(row));
        NextKeeps(t, Resubmit(row));
      }
      SameLater(s, t, t', row.id);
      assert t'.otx[row.id] == row by { assert SameRow(s, t', row.id); IsSame(s, t', row.id); }
      SettleSettles(t', row);
      AnchorNotDone(s, t, t', a, done, row);
      SettledSame(s, t', u, row);
      OnlyRowTransitive(t, t', u, row.id);
    }
    forall o | o in s.otx ensures s.otx[o].id == o { IdOf(s, o); }
    PassCarries(s, t, u, a, done, row);
  }

  lemma IsSame(s: State, t: State, o: nat)
    requires SameRow(s, t, o)
    ensures o in s.otx && o in t.otx && s.otx[o] == t.otx[o]
  {
  }

  lemma AnchorNotDone(s: State, t: State, t': State, a: Address, done: seq<OtxRow>, row: OtxRow)
    requires PassSoFar(s, t, a, done) && row.account == a && OnlyRow(t, t', row.id)
    requires forall r :: r in done ==> r.nonce < row.nonce
    requires row.id in s.otx && s.otx[row.id] == row
    ensures Anchored(s, row) <==> Anchored(t', row)
  {
    hide SettledRow, SameRow, Anchored;
    assert SameChain(s, t');
    forall o | o in s.otx && At(s.otx[o], row.account, row.nonce + 1) ensures SameRow(s, t', o) {
      assert o != row.id;
      SameLater(s, t, t', o);
    }
    AnchoredIsLocal(s, t', row);
  }

  lemma PassCarries(s: State, t: State, u: State, a: Address, done: seq<OtxRow>, row: OtxRow)
    requires PassSoFar(s, t, a, done) && OnlyRow(t, u, row.id) && row.id in s.otx && s.otx[row.id] == row
             && row !in done
    requires forall o :: o in s.otx ==> s.otx[o].id == o
    requires row.account == a && (row.nonce < |MinedBy(s.mined, a)| ==> SettledRow(s, u, row.id))
    ensures PassSoFar(s, u, a, done + [row])
  {
    hide SettledRow, SameRow, MinedBy;
    forall o | o in s.otx && (s.otx[o].account != a || s.otx[o] !in done + [row]) ensures SameRow(s, u, o) {
      assert s.otx[o] !in done || s.otx[o].account != a;
      SameLater(s, t, u, o);
    }
    forall o | o in s.otx && s.otx[o] in done + [row] && s.otx[o].nonce < |MinedBy(s.mined, a)|
      ensures SettledRow(s, u, o) {
      if o != row.id {
        assert s.otx[o] in done;
        SettledLater(s, t, u, o);
      }
    }
  }

  /** What one run of the periodic unlocker makes of `s` when the affected accounts are `accounts`. */
  ghost predicate RunEffect(s: State, t: State, accounts: set<Address>) {
    && SameChain(s, t)
    && (forall o :: o in s.otx && s.otx[o].account !in accounts ==> SameRow(s, t, o))
    && (forall o ::
          o in s.otx && s.otx[o].account in accounts && s.otx[o].nonce < |MinedBy(s.mined, s.otx[o].account)| ==>
            if IsOpen(s, o) then SettledRow(s, t, o) else SameRow(s, t, o))
  }

  lemma RunStarts(s: State)
    ensures RunEffect(s, s, {})
  {
    hide SettledRow;
  }

  lemma RunStep(s: State, t: State, u: State, accounts: set<Address>, a: Address)
    requires Inv(s) && RunEffect(s, t, accounts) && PassEffect(t, u, a) && a !in accounts
    ensures RunEffect(s, u, accounts + {a})
  {
    hide SameRow, SettledRow, MinedBy, Inv, IsOpen;
    forall o | o in s.otx && s.otx[o].account !in accounts + {a} ensures SameRow(s, u, o) {
      SameLater(s, t, u, o);
    }
    forall o | o in s.otx && s.otx[o].account in accounts + {a} && s.otx[o].nonce < |MinedBy(s.mined, s.otx[o].account)|
      ensures if IsOpen(s, o) then SettledRow(s, u, o) else SameRow(s, u, o) {
      if s.otx[o].account == a {
        RunStepRow(s, t, u, accounts, a, o);
      } else if IsOpen(s, o) {
        SettledLater(s, t, u, o);
      } else {
        SameLater(s, t, u, o);
      }
    }
  }

  lemma RunStepRow(s: State, t: State, u: State, accounts: set<Address>, a: Address, o: nat)
    requires Inv(s) && RunEffect(s, t, accounts) && PassEffect(t, u, a) && a !in accounts
    requires o in s.otx && s.otx[o].account == a && s.otx[o].nonce < |MinedBy(s.mined, a)|
    ensures if IsOpen(s, o) then SettledRow(s, u, o) else SameRow(s, u, o)
  {
    IdOf(s, o);
    hide Inv, SettledRow, Anchored, MinedBy, HashMined;
    assert IsOpen(s, o) == IsOpen(t, o);
    hide SameRow, IsOpen;
    if IsOpen(s, o) {
      AnchoredIsLocal(s, t, s.otx[o]);
      SettledSame(s, t, u, s.otx[o]);
    } else {
      SameLater(s, t, u, o);
    }
  }
}
