/** The dispatch health check: a batch of receipt calls whose replies are matched to their rows by index. */
module HealthCheck {
  import opened Types
  import opened Lifecycle
  import opened Invariant
  import opened Preservation
  import opened Growth
  import opened Theorems
  import opened Queries
  import opened Stability
  import opened World
  import opened Recovery

  /** The rows whose own reply is a successful receipt. */
  function Succeeded(rows: seq<OtxRow>, replies: seq<ReceiptReply>): seq<OtxRow>
    requires |rows| == |replies|
  {
    if rows == [] then [] else
      var last := |rows| - 1;
      Succeeded(rows[..last], replies[..last]) + if replies[last].Receipt? && replies[last].ok then [rows[last]] else []
  }

  /** An otx this run checks: on the page, IN_NETWORK, and old enough by the clock. */
  predicate Checked(s: State, o: nat, aged: set<nat>) {
    OnPage(FailedIds(s), o) && StatusesOf(s, o) == [IN_NETWORK] && o in aged
  }

  predicate Confirmed(s: State, o: nat)
    requires o in s.otx
  {
    HashMined(s, s.otx[o].hash) && MinedAt(s, s.otx[o].hash).ok
  }

  /** The service's own otxs before `o` that are neither settled nor PENDING. */
  function OnTheWayBefore(s: State, o: nat): set<nat> {
    set p | p in s.otx && p < o && s.otx[p].kind !in {GENERIC_SIGN, OTHER_MANUAL}
            && exists st :: st in StatusesOf(s, p) && st !in {SUCCESS, REVERTED, PENDING}
  }

  /** An otx of the service is IN_NETWORK, old enough and confirmed on chain, and fewer than a hundred are before it. */
  predicate Due(s: State, o: nat, aged: set<nat>) {
    && o in s.otx && s.otx[o].kind !in {GENERIC_SIGN, OTHER_MANUAL} && StatusesOf(s, o) == [IN_NETWORK] && o in aged
    && HashMined(s, s.otx[o].hash) && MinedAt(s, s.otx[o].hash).ok && |OnTheWayBefore(s, o)| < 100
  }

  /** That is what the check confirms, and nothing else. */
  lemma DueIff(s: State, o: nat, aged: set<nat>)
    requires o in s.otx
    ensures Due(s, o, aged) <==> Checked(s, o, aged) && Confirmed(s, o)
  {
    assert OnTheWayBefore(s, o) == Before(FailedIds(s), o);
    if StatusesOf(s, o) == [IN_NETWORK] {
      assert IN_NETWORK in StatusesOf(s, o);
    }
    hide HashMined, MinedBy, OnTheWayBefore, Before;
  }

  lemma SucceededGrows(rows: seq<OtxRow>, replies: seq<ReceiptReply>, i: nat)
    requires i < |rows| == |replies|
    ensures Succeeded(rows[..i + 1], replies[..i + 1]) ==
            Succeeded(rows[..i], replies[..i]) + if replies[i].Receipt? && replies[i].ok then [rows[i]] else []
  {
    assert rows[..i + 1][..i] == rows[..i] && replies[..i + 1][..i] == replies[..i];
  }

  lemma SucceededLast(rows: seq<OtxRow>, replies: seq<ReceiptReply>, row: OtxRow)
    requires |rows| == |replies| > 0
    ensures var last := |rows| - 1;
            row in Succeeded(rows, replies) <==>
              || row in Succeeded(rows[..last], replies[..last])
              || (row == rows[last] && replies[last].Receipt? && replies[last].ok)
  {
  }

  lemma {:induction false} SucceededAre(rows: seq<OtxRow>, replies: seq<ReceiptReply>, row: OtxRow)
    requires |rows| == |replies|
    ensures row in Succeeded(rows, replies) <==> exists i ::
              0 <= i < |rows| && rows[i] == row && replies[i].Receipt? && replies[i].ok
    decreases |rows|
  {
    if rows != [] {
      var last := |rows| - 1;
      SucceededAre(rows[..last], replies[..last], row);
      SucceededLast(rows, replies, row);
      hide Succeeded;
      forall i | 0 <= i < last ensures rows[..last][i] == rows[i] && replies[..last][i] == replies[i] {
      }
      if i :| 0 <= i < last && rows[i] == row && replies[i].Receipt? && replies[i].ok {
        assert rows[..last][i] == row;
      }
    }
  }

  /** What a committed batch leaves. */
  lemma {:induction false} ReceiptsEffect(s: State, rows: seq<OtxRow>)
    requires Inv(s) && forall row :: row in rows ==> row.id in s.otx && s.otx[row.id] == row && HashMined(s, row.hash)
    ensures var t := Run(s, Receipts(rows));
            && Inv(t) && t.otx == s.otx && t.mined == s.mined && s.versions <= t.versions
            && forall o :: o in s.otx ==>
                 StatusesOf(t, o) ==
                   if s.otx[o] in rows then [ReceiptStatus(MinedAt(s, s.otx[o].hash))] else StatusesOf(s, o)
    decreases |rows|
  {
    hide Inv, Next, HashMined, MinedBy, StatusesOf, ReceiptStatus;
    if rows == [] {
      NoReceipts(s);
    } else {
      var last := rows[|rows| - 1];
      ReceiptsGrow(s, rows);
      ReceiptsEffect(s, rows[..|rows| - 1]);
      var before := Run(s, Receipts(rows[..|rows| - 1]));
      assert rows == rows[..|rows| - 1] + [last];
      OneReceipt(s, before, last);
      forall o | o in s.otx
        ensures StatusesOf(Next(before, WriteReceipt(last)), o) ==
                if s.otx[o] in rows then [ReceiptStatus(MinedAt(s, s.otx[o].hash))] else StatusesOf(s, o) {
        IdOf(s, o);
      }
    }
  }

  lemma OneReceipt(s: State, t: State, row: OtxRow)
    requires Inv(t) && t.otx == s.otx && t.mined == s.mined
    requires row.id in s.otx && s.otx[row.id] == row && HashMined(s, row.hash)
    ensures var u := Next(t, WriteReceipt(row));
            && Inv(u) && u.otx == t.otx && u.mined == t.mined && t.versions <= u.versions
            && StatusesOf(u, row.id) == [ReceiptStatus(MinedAt(s, row.hash))]
            && forall o :: o != row.id ==> StatusesOf(u, o) == StatusesOf(t, o)
  {
    CurrentVersionFact(t, row.id);
    assert HashMined(t, row.hash) && MinedAt(t, row.hash) == MinedAt(s, row.hash);
    hide Inv, VersionOk, HashMined, MinedBy, ReceiptStatus;
    NextKeeps(t, WriteReceipt(row));
    HeldCanWrite(t, row);
    hide Enabled, Next;
    ReceiptNext(t, row);
    hide SetStatus, StatusesOf;
    StatusSet(t, row.id, ReceiptStatus(MinedAt(s, row.hash)));
  }

  lemma StatusSet(t: State, id: nat, status: Status)
    requires id in t.dispatch && |t.dispatch[id]| == 1
    ensures var u := t.(dispatch := SetStatus(t.dispatch, id, status));
            StatusesOf(u, id) == [status] && forall o :: o != id ==> StatusesOf(u, o) == StatusesOf(t, o)
  {
  }

  lemma NothingSucceeded()
    ensures Succeeded([], []) == [] && Receipts([]) == []
  {
  }

  predicate IsReply(s: State, h: Hash, r: ReceiptReply) {
    r.Receipt? ==> HashMined(s, h) && r.ok == MinedAt(s, h).ok
  }

  lemma ReplyStays(s: State, t: State)
    requires Grows(s, t)
    ensures forall h, r :: IsReply(s, h, r) ==> IsReply(t, h, r)
  {
    hide Grows;
    forall h, r | IsReply(s, h, r) ensures IsReply(t, h, r) {
      if HashMined(s, h) {
        HashStaysMined(s, t, h);
      }
    }
  }

  /** The batch of calls as it was heard: reply i is about the hash of row i. */
  predicate BatchHeard(heard: seq<Reply>, n: nat, rows: seq<OtxRow>, replies: seq<ReceiptReply>) {
    && |rows| == |replies| && n + |rows| <= |heard|
    && forall i, k :: 0 <= i < |rows| && k == n + i ==> heard[k] == ReceiptIs(rows[i].hash, replies[i])
  }

  lemma NothingHeard()
    ensures forall heard: seq<Reply>, n: nat :: n <= |heard| ==> BatchHeard(heard, n, [], [])
  {
  }

  lemma HeardOn(heard: seq<Reply>, heard': seq<Reply>, n: nat, rows: seq<OtxRow>, replies: seq<ReceiptReply>)
    requires BatchHeard(heard, n, rows, replies) && heard <= heard'
    ensures BatchHeard(heard', n, rows, replies)
  {
  }

  /** The batch call: reply i belongs to row i. */
  method FetchReceipts(w: World, rows: seq<OtxRow>) returns (receipts: array<ReceiptReply>)
    requires w.Valid()
    modifies w
    ensures fresh(receipts) && receipts.Length == |rows|
    ensures w.Later(old(w.s), old(w.log)) && w.own == old(w.own)
    ensures old(w.heard) <= w.heard && |w.heard| == |old(w.heard)| + |rows|
            && BatchHeard(w.heard, |old(w.heard)|, rows, receipts[..])
    ensures forall i :: 0 <= i < |rows| ==> IsReply(w.s, rows[i].hash, receipts[i])
    ensures w.quiet ==>
              w.s == old(w.s)
                && forall i :: 0 <= i < |rows| ==> (receipts[i].Receipt? <==> HashMined(w.s, rows[i].hash))
  {
    hide Run, Init, Inv, Grows, MinedBy, HashMined, Onward;
    receipts := new ReceiptReply[|rows|];
    for i := 0 to |rows|
      invariant w.Later(old(w.s), old(w.log)) && w.own == old(w.own)
      invariant old(w.heard) <= w.heard && |w.heard| == |old(w.heard)| + i
                && BatchHeard(w.heard, |old(w.heard)|, rows[..i], receipts[..i])
      invariant forall k :: 0 <= k < i ==> IsReply(w.s, rows[k].hash, receipts[k])
      invariant w.quiet ==>
                  w.s == old(w.s) && forall k :: 0 <= k < i ==> (receipts[k].Receipt? <==> HashMined(w.s, rows[k].hash))
    {
      ghost var s1, log1 := w.s, w.log;
      var reply := w.ReadReceipt(rows[i].hash);
      w.Since(s1, log1);
      ReplyStays(s1, w.s);
      receipts[i] := reply;
    }
    assert rows[..|rows|] == rows && receipts[..|rows|] == receipts[..];
  }

  /** The rows of the page that are worth a receipt call. */
  method ToCheck(s: State, page: seq<OtxRow>, aged: set<nat>) returns (rows: seq<OtxRow>)
    requires IsPage(s, FailedIds(s), page) && forall o :: o in s.otx ==> s.otx[o].id == o
    ensures forall row :: row in rows ==> row.id in s.otx && s.otx[row.id] == row && Checked(s, row.id, aged)
    ensures forall o :: Checked(s, o, aged) ==> o in s.otx && s.otx[o] in rows
  {
    hide OnPage, StatusesOf, FailedIds;
    rows := [];
    for i := 0 to |page|
      invariant forall row :: row in rows ==> row.id in s.otx && s.otx[row.id] == row && Checked(s, row.id, aged)
      invariant forall k :: 0 <= k < i && StatusesOf(s, page[k].id) == [IN_NETWORK] && page[k].id in aged ==>
                  page[k] in rows
    {
      var row := page[i];
      assert row in page;
      if StatusesOf(s, row.id) == [IN_NETWORK] && row.id in aged {
        rows := rows + [row];
      }
    }
  }

  /** The loop over the replies: a reply without a successful receipt leaves its row out. */
  method Updates(rows: seq<OtxRow>, receipts: array<ReceiptReply>) returns (updates: seq<OtxRow>)
    requires receipts.Length == |rows|
    ensures updates == Succeeded(rows, receipts[..])
  {
    hide Succeeded;
    updates := [];
    NothingSucceeded();
    for i := 0 to receipts.Length
      invariant updates == Succeeded(rows[..i], receipts[..i])
    {
      SucceededGrows(rows, receipts[..], i);
      assert receipts[..][..i] == receipts[..i] && receipts[..][..i + 1] == receipts[..i + 1];
      if receipts[i].Receipt? {
        if receipts[i].ok {
          updates := updates + [rows[i]];
        }
      }
    }
    assert rows[..|rows|] == rows && receipts[..|rows|] == receipts[..];
  }

  /** Each row is updated on the strength of the reply to its own hash, and only to SUCCESS.  With every
      call answered the otxs set to SUCCESS are exactly the confirmed ones among those checked. */
  method Work(w: World, aged: set<nat>) returns (ok: bool, ghost checked: seq<OtxRow>, ghost replies: seq<ReceiptReply>)
    requires w.Valid()
    modifies w
    ensures w.Later(old(w.s), old(w.log)) && old(w.heard) <= w.heard
    ensures |old(w.heard)| < |w.heard| && w.heard[|old(w.heard)|].RowsAre?
            && BatchHeard(w.heard, |old(w.heard)| + 1, checked, replies)
    ensures |checked| == |replies| && w.own == old(w.own) + if ok then Receipts(Succeeded(checked, replies)) else []
    ensures forall i :: 0 <= i < |checked| ==> IsReply(w.s, checked[i].hash, replies[i])
    ensures w.quiet ==> ok && w.s.otx == old(w.s).otx
    ensures w.quiet ==> forall o :: o in old(w.s).otx ==>
              StatusesOf(w.s, o) == if Due(old(w.s), o, aged) then [SUCCESS] else StatusesOf(old(w.s), o)
  {
    hide Run, Init, Inv, Grows, Next, MinedBy, HashMined, Onward, IsPage, StatusesOf, Receipts, Succeeded, Reachable,
      IsReply, Checked, Confirmed, BatchHeard, Due;
    forall o | o in w.s.otx ensures Due(w.s, o, aged) <==> Checked(w.s, o, aged) && Confirmed(w.s, o) {
      DueIff(w.s, o, aged);
    }
    checked, replies := [], [];
    NothingSucceeded();
    NothingHeard();
    var page := w.ReadFailed();
    if page.None? {
      return false, checked, replies;
    }
    w.Known();
    ghost var s0, log0 := w.s, w.log;
    var db := w.s;
    if |page.value| < 1 {
      NothingChecked(s0, page.value, aged);
      return true, checked, replies;
    }
    forall o | o in s0.otx ensures s0.otx[o].id == o { IdOf(s0, o); }
    var txsToCheck := ToCheck(db, page.value, aged);
    forall row | row in txsToCheck ensures row in s0.versions { CurrentVersionFact(s0, row.id); }
    var updates := [];
    if |txsToCheck| > 0 {
      var receipts := FetchReceipts(w, txsToCheck);
      checked, replies := txsToCheck, receipts[..];
      updates := Updates(txsToCheck, receipts);
    }
    assert updates == Succeeded(checked, replies);
    forall row | row in updates ensures row in txsToCheck && row in w.s.versions && Confirming(w.s, row) {
      ConfirmingIs(w.s, checked, replies, row);
      w.StillHeld(s0, log0, row);
    }
    ghost var s2, log2, heard2 := w.s, w.log, w.heard;
    ok := w.SetReceiptStatuses(updates);
    HeardOn(heard2, w.heard, |old(w.heard)| + 1, checked, replies);
    w.Since(s2, log2);
    ReplyStays(s2, w.s);
    if w.quiet {
      BatchConfirms(s0, checked, replies, updates, aged);
    }
  }

  predicate Confirming(s: State, row: OtxRow) {
    HashMined(s, row.hash) && MinedAt(s, row.hash).ok
  }

  lemma ConfirmingIs(s: State, rows: seq<OtxRow>, replies: seq<ReceiptReply>, row: OtxRow)
    requires |rows| == |replies| && row in Succeeded(rows, replies)
    requires forall i :: 0 <= i < |rows| ==> IsReply(s, rows[i].hash, replies[i])
    ensures row in rows && Confirming(s, row)
  {
    SucceededAre(rows, replies, row);
    hide Succeeded;
  }

  lemma NothingChecked(s: State, page: seq<OtxRow>, aged: set<nat>)
    requires IsPage(s, FailedIds(s), page) && page == []
    ensures forall o :: !Checked(s, o, aged)
  {
    hide OnPage, FailedIds;
  }

  /** A batch whose receipt calls were all answered confirms what is checked and confirmed, and nothing else. */
  lemma BatchConfirms(s: State, rows: seq<OtxRow>, replies: seq<ReceiptReply>, updates: seq<OtxRow>, aged: set<nat>)
    requires Inv(s) && |rows| == |replies| && updates == Succeeded(rows, replies)
    requires forall i :: 0 <= i < |rows| ==>
               IsReply(s, rows[i].hash, replies[i]) && (replies[i].Receipt? <==> HashMined(s, rows[i].hash))
    requires forall row :: row in rows ==> row.id in s.otx && s.otx[row.id] == row && Checked(s, row.id, aged)
    requires forall o :: Checked(s, o, aged) ==> o in s.otx && s.otx[o] in rows
    ensures var t := Run(s, Receipts(updates));
            && t.otx == s.otx
            && forall o :: o in s.otx ==>
                 StatusesOf(t, o) == if Checked(s, o, aged) && Confirmed(s, o) then [SUCCESS] else StatusesOf(s, o)
  {
    forall o | o in s.otx ensures s.otx[o].id == o { IdOf(s, o); }
    hide Inv, Run, Receipts, Succeeded, IsReply, Checked, MinedBy, HashMined, StatusesOf;
    UpdatesAre(s, rows, replies, updates, aged);
    forall row | row in updates ensures row in rows && HashMined(s, row.hash) {
      ConfirmingIs(s, rows, replies, row);
    }
    ReceiptsEffect(s, updates);
  }

  lemma UpdatesAre(s: State, rows: seq<OtxRow>, replies: seq<ReceiptReply>, updates: seq<OtxRow>, aged: set<nat>)
    requires |rows| == |replies| && updates == Succeeded(rows, replies)
    requires forall i :: 0 <= i < |rows| ==>
               IsReply(s, rows[i].hash, replies[i]) && (replies[i].Receipt? <==> HashMined(s, rows[i].hash))
    requires forall row :: row in rows ==> row.id in s.otx && s.otx[row.id] == row && Checked(s, row.id, aged)
    requires forall o :: Checked(s, o, aged) ==> o in s.otx && s.otx[o] in rows
    requires forall o :: o in s.otx ==> s.otx[o].id == o
    ensures forall o :: o in s.otx ==> (s.otx[o] in updates <==> Checked(s, o, aged) && Confirmed(s, o))
  {
    hide Succeeded, Checked, MinedBy, HashMined;
    forall o | o in s.otx ensures s.otx[o] in updates <==> Checked(s, o, aged) && Confirmed(s, o) {
      SucceededAre(rows, replies, s.otx[o]);
    }
  }
}
