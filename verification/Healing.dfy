/** Passes of the unlocker over one account bring its used-up nonces to the truth. */
module Healing {
  import opened Types
  import opened Lifecycle
  import opened Invariant
  import opened Preservation
  import opened Terminal
  import opened Theorems
  import opened Stability
  import opened World
  import opened Recovery
  import Unlocker

  /** The otx of `a` with nonce `n` stores the hash that was mined and the status of its receipt. */
  ghost predicate Resolved(s: State, a: Address, n: nat) {
    n < |MinedBy(s.mined, a)| && exists o :: ResolvedBy(s, o, a, n)
  }

  /** The otx of `a` with nonce `n` still has a status that a pass will look at. */
  ghost predicate Waiting(s: State, a: Address, n: nat) {
    exists o :: o in s.otx && At(s.otx[o], a, n) && IsOpen(s, o)
  }

  /** A pass can resolve it: its stored hash is mined, or the next otx anchors it. */
  ghost predicate Healable(s: State, a: Address, n: nat) {
    exists o :: o in s.otx && At(s.otx[o], a, n) && IsOpen(s, o)
      && (HashMined(s, s.otx[o].hash) || Anchored(s, s.otx[o]))
  }

  lemma OneRow(s: State, o: nat, p: nat, a: Address, n: nat)
    requires Inv(s) && o in s.otx && p in s.otx && At(s.otx[o], a, n) && At(s.otx[p], a, n)
    ensures o == p
  {
    hide Inv;
    OneRowPerNonce(s, o, p);
  }

  /** What a stored hash that is mined says about the chain. */
  lemma StoredHash(s: State, o: nat)
    requires Inv(s) && o in s.otx && HashMined(s, s.otx[o].hash)
    ensures var row := s.otx[o];
            && row.nonce < |MinedBy(s.mined, row.account)|
            && MinedAt(s, row.hash) == MinedBy(s.mined, row.account)[row.nonce]
            && row.hash == HashOf(MinedBy(s.mined, row.account)[row.nonce].tx)
  {
    CurrentVersionFact(s, o);
    hide Inv;
  }

  /** A resolved otx stays as it is. */
  lemma ResolvedStays(s: State, t: State, a: Address, n: nat)
    requires PassEffect(s, t, a) && Resolved(s, a, n)
    ensures Resolved(t, a, n)
  {
    hide SettledRow, MinedBy;
    var o :| ResolvedBy(s, o, a, n);
    assert !IsOpen(s, o);
    assert SameRow(s, t, o);
    assert ResolvedBy(t, o, a, n);
  }

  /** A waiting otx is resolved by the pass exactly when it was healable; otherwise it waits on. */
  lemma WaitingResolvesIff(s: State, t: State, a: Address, n: nat)
    requires Inv(s) && Inv(t) && PassEffect(s, t, a) && n < |MinedBy(s.mined, a)| && Waiting(s, a, n)
    ensures Healable(s, a, n) ==> Resolved(t, a, n)
    ensures !Healable(s, a, n) ==> Waiting(t, a, n) && !Resolved(t, a, n)
  {
    hide Inv, MinedBy, Anchored, HashMined, PassEffect, IsOpen, Resolved, Healable;
    var o :| o in s.otx && At(s.otx[o], a, n) && IsOpen(s, o);
    if HashMined(s, s.otx[o].hash) || Anchored(s, s.otx[o]) {
      HealedRow(s, t, a, n, o);
      HealableBy(s, a, n, o);
    } else {
      NotHealable(s, a, n, o);
      PassOn(s, t, a, o);
      hide SettledRow, SameRow;
      StillOpen(s, t, o);
      IsSame(s, t, o);
      NotResolved(t, a, n, o);
    }
  }

  lemma HealableBy(s: State, a: Address, n: nat, o: nat)
    requires o in s.otx && At(s.otx[o], a, n) && IsOpen(s, o) && (HashMined(s, s.otx[o].hash) || Anchored(s, s.otx[o]))
    ensures Healable(s, a, n)
  {
    hide HashMined, Anchored, IsOpen;
  }

  lemma HealedRow(s: State, t: State, a: Address, n: nat, o: nat)
    requires Inv(s) && PassEffect(s, t, a) && o in s.otx && At(s.otx[o], a, n) && IsOpen(s, o)
             && n < |MinedBy(s.mined, a)|
    requires HashMined(s, s.otx[o].hash) || Anchored(s, s.otx[o])
    ensures Resolved(t, a, n)
  {
    hide Inv, MinedBy, Anchored, HashMined, PassEffect, IsOpen, ReceiptStatus;
    PassOn(s, t, a, o);
    PassRowStays(s, t, a, o);
    if HashMined(s, s.otx[o].hash) {
      StoredHash(s, o);
    }
    assert ResolvedBy(t, o, a, n);
  }

  lemma PassRowStays(s: State, t: State, a: Address, o: nat)
    requires PassEffect(s, t, a) && o in s.otx
    ensures o in t.otx && At(t.otx[o], s.otx[o].account, s.otx[o].nonce)
  {
    hide SameRow, SettledRow;
  }

  lemma HealableIs(s: State, a: Address, n: nat, o: nat)
    requires Inv(s) && Healable(s, a, n) && o in s.otx && At(s.otx[o], a, n)
    ensures HashMined(s, s.otx[o].hash) || Anchored(s, s.otx[o])
  {
    hide Inv, HashMined, Anchored, IsOpen;
    var p :| p in s.otx && At(s.otx[p], a, n) && IsOpen(s, p) && (HashMined(s, s.otx[p].hash) || Anchored(s, s.otx[p]));
    OneRow(s, o, p, a, n);
  }

  lemma NotHealable(s: State, a: Address, n: nat, o: nat)
    requires Inv(s) && o in s.otx && At(s.otx[o], a, n) && !HashMined(s, s.otx[o].hash) && !Anchored(s, s.otx[o])
    ensures !Healable(s, a, n)
  {
    hide Inv, HashMined, Anchored, IsOpen, Healable;
    if Healable(s, a, n) {
      HealableIs(s, a, n, o);
    }
  }

  lemma StillOpen(s: State, t: State, o: nat)
    requires SameRow(s, t, o) && IsOpen(s, o)
    ensures IsOpen(t, o)
  {
  }

  lemma NotResolved(s: State, a: Address, n: nat, o: nat)
    requires Inv(s) && o in s.otx && At(s.otx[o], a, n) && IsOpen(s, o)
    ensures !Resolved(s, a, n)
  {
    hide Inv, MinedBy;
    if Resolved(s, a, n) {
      var p :| ResolvedBy(s, p, a, n);
      OneRow(s, o, p, a, n);
    }
  }

  /** The mined nonces of `a` that are not resolved yet. */
  ghost function Unresolved(s: State, a: Address): set<nat> {
    set n: nat | n < |MinedBy(s.mined, a)| && !Resolved(s, a, n)
  }

  /** The measure of healing: a pass never adds an unresolved nonce, and removes one exactly when one is healable. */
  lemma PassShrinksIff(s: State, t: State, a: Address)
    requires Inv(s) && Inv(t) && PassEffect(s, t, a)
    ensures Unresolved(t, a) <= Unresolved(s, a)
    ensures |Unresolved(t, a)| < |Unresolved(s, a)| <==> exists n: nat :: n < |MinedBy(s.mined, a)| && Healable(s, a, n)
  {
    hide Inv, Resolved, Healable, MinedBy, SameChain, PassEffect;
    PassKeepsMined(s, t, a);
    forall n: nat | n < |MinedBy(s.mined, a)|
      ensures Resolved(s, a, n) ==> Resolved(t, a, n)
      ensures Healable(s, a, n) ==> Resolved(t, a, n) && !Resolved(s, a, n)
      ensures !Healable(s, a, n) && !Resolved(s, a, n) ==> !Resolved(t, a, n) {
      if Resolved(s, a, n) {
        ResolvedStays(s, t, a, n);
        ResolvedIsNotHealable(s, a, n);
      } else if Healable(s, a, n) {
        HealableWaits(s, a, n);
        WaitingResolvesIff(s, t, a, n);
      } else {
        UnhealableStays(s, t, a, n);
      }
    }
    SubsetSizes(Unresolved(t, a), Unresolved(s, a));
    if n: nat :| n < |MinedBy(s.mined, a)| && Healable(s, a, n) {
      assert n in Unresolved(s, a) && n !in Unresolved(t, a);
    } else {
      assert Unresolved(t, a) == Unresolved(s, a);
    }
  }

  lemma SubsetSizes(x: set<nat>, y: set<nat>)
    requires x <= y
    ensures |x| <= |y| && (x != y ==> |x| < |y|)
  {
    assert |y| == |x| + |y - x| by { assert x + (y - x) == y; }
    if x != y { assert y - x != {}; }
  }

  lemma PassKeepsMined(s: State, t: State, a: Address)
    requires PassEffect(s, t, a)
    ensures t.mined == s.mined
  {
    hide SameRow, SettledRow;
  }

  lemma ResolvedIsNotHealable(s: State, a: Address, n: nat)
    requires Inv(s) && Resolved(s, a, n)
    ensures !Healable(s, a, n)
  {
    hide Inv, MinedBy, HashMined, Anchored;
    if Healable(s, a, n) {
      HealableWaits(s, a, n);
      var o :| o in s.otx && At(s.otx[o], a, n) && IsOpen(s, o);
      NotResolved(s, a, n, o);
    }
  }

  lemma HealableWaits(s: State, a: Address, n: nat)
    requires Healable(s, a, n)
    ensures Waiting(s, a, n)
  {
    hide HashMined, Anchored;
  }

  lemma UnhealableStays(s: State, t: State, a: Address, n: nat)
    requires Inv(s) && Inv(t) && PassEffect(s, t, a) && n < |MinedBy(s.mined, a)| && !Healable(s, a, n)
             && !Resolved(s, a, n)
    ensures !Resolved(t, a, n)
  {
    hide Inv, MinedBy, HashMined, Anchored, Healable, SettledRow, Resolved;
    if Resolved(t, a, n) {
      var o := ResolvedRow(t, a, n);
      assert o in s.otx && At(s.otx[o], a, n);
      if IsOpen(s, o) {
        WaitingResolvesIff(s, t, a, n);
      } else {
        assert SameRow(s, t, o);
        ResolvedBack(s, t, a, n, o);
      }
    }
  }

  lemma ResolvedRow(s: State, a: Address, n: nat) returns (o: nat)
    requires Resolved(s, a, n)
    ensures n < |MinedBy(s.mined, a)| && ResolvedBy(s, o, a, n)
  {
    o :| ResolvedBy(s, o, a, n);
  }

  lemma ResolvedBack(s: State, t: State, a: Address, n: nat, o: nat)
    requires s.mined == t.mined && SameRow(s, t, o) && n < |MinedBy(s.mined, a)| && ResolvedBy(t, o, a, n)
    ensures Resolved(s, a, n)
  {
    assert ResolvedBy(s, o, a, n);
  }

  /** After one pass every otx of the account whose stored hash is mined has its receipt's status, whatever status
      it had before: open ones are settled, and a terminal one was already right. */
  lemma MinedHashGetsItsReceipt(s: State, t: State, a: Address, o: nat)
    requires Reachable(s) && PassEffect(s, t, a)
    requires o in s.otx && s.otx[o].account == a && HashMined(s, s.otx[o].hash)
    ensures o in t.otx && t.otx[o] == s.otx[o] && StatusesOf(t, o) == [ReceiptStatus(MinedAt(s, s.otx[o].hash))]
  {
    ReachableInv(s);
    StoredHash(s, o);
    TerminalStatusIsTruth(s, o);
    ExternalNeverEntered(s, o);
    hide Inv, Reachable, PassEffect, MinedBy, HashMined, StatusesOf, Anchored;
    if IsOpen(s, o) {
      PassOn(s, t, a, o);
    } else {
      ClosedIsTerminal(s, o);
      ClosedStays(s, t, a, o);
    }
  }

  lemma ClosedIsTerminal(s: State, o: nat)
    requires !IsOpen(s, o) && |StatusesOf(s, o)| == 1 && EXTERNAL_DISPATCH !in StatusesOf(s, o)
    ensures StatusesOf(s, o) == [SUCCESS] || StatusesOf(s, o) == [REVERTED]
  {
    hide StatusesOf;
    assert StatusesOf(s, o)[0] in StatusesOf(s, o);
  }

  lemma ClosedStays(s: State, t: State, a: Address, o: nat)
    requires PassEffect(s, t, a) && o in s.otx && s.otx[o].account == a && !IsOpen(s, o)
             && s.otx[o].nonce < |MinedBy(s.mined, a)|
    ensures SameRow(s, t, o)
  {
    hide SameRow, SettledRow, MinedBy, IsOpen;
  }

  // ----- a run of orphans

  /** The otx of `a` with nonce `n` waits under a hash that was never mined. */
  ghost predicate Orphaned(s: State, a: Address, n: nat) {
    exists o :: OrphanedBy(s, o, a, n)
  }

  predicate OrphanedBy(s: State, o: nat, a: Address, n: nat) {
    o in s.otx && At(s.otx[o], a, n) && IsOpen(s, o) && !HashMined(s, s.otx[o].hash)
  }

  /** The transactions of nonces `n` to `n + k` all succeeded, each at most a scan window before the next. */
  ghost predicate CloseRun(mined: map<Address, seq<Mined>>, a: Address, n: nat, k: nat) {
    && n + k < |MinedBy(mined, a)|
    && (forall i :: n <= i <= n + k ==> MinedBy(mined, a)[i].ok)
    && (forall i, j :: n <= i < n + k && j == i + 1 ==>
          InWindow(MinedBy(mined, a)[i].block, MinedBy(mined, a)[j].block))
  }

  /** An orphan below an orphan is not anchored, so a pass leaves it. */
  lemma OrphanBelowOrphan(s: State, t: State, a: Address, n: nat)
    requires Inv(s) && PassEffect(s, t, a) && Orphaned(s, a, n) && Orphaned(s, a, n + 1) && n < |MinedBy(s.mined, a)|
    ensures Orphaned(t, a, n)
  {
    hide Inv, MinedBy, HashMined, PassEffect, Anchored, OrphanedBy;
    var o :| OrphanedBy(s, o, a, n);
    var p :| OrphanedBy(s, p, a, n + 1);
    OrphanStays(s, t, a, n, o, p);
  }

  lemma OrphanStays(s: State, t: State, a: Address, n: nat, o: nat, p: nat)
    requires Inv(s) && PassEffect(s, t, a) && OrphanedBy(s, o, a, n) && OrphanedBy(s, p, a, n + 1)
             && n < |MinedBy(s.mined, a)|
    ensures OrphanedBy(t, o, a, n)
  {
    hide Inv, MinedBy, PassEffect, Anchored, HashMined, IsOpen;
    OpenIsNoAnchor(s, p, s.otx[o]);
    PassOn(s, t, a, o);
    hide SettledRow, SameRow;
    StillOpen(s, t, o);
    IsSame(s, t, o);
    SameMined(s, t, s.otx[o].hash);
  }

  /** What a pass does to one open otx whose nonce is used up. */
  lemma PassOn(s: State, t: State, a: Address, o: nat)
    requires PassEffect(s, t, a) && o in s.otx && s.otx[o].account == a && IsOpen(s, o)
             && s.otx[o].nonce < |MinedBy(s.mined, a)|
    ensures t.mined == s.mined && o in t.otx && SettledRow(s, t, o)
    ensures !HashMined(s, s.otx[o].hash) && !Anchored(s, s.otx[o]) ==> SameRow(s, t, o)
  {
    hide SameRow, MinedBy, HashMined, Anchored, IsOpen;
  }

  lemma OpenIsNoAnchor(s: State, p: nat, row: OtxRow)
    requires Inv(s) && p in s.otx && At(s.otx[p], row.account, row.nonce + 1) && IsOpen(s, p)
    ensures !Anchored(s, row)
  {
    hide Inv, HashMined, MinedBy;
    forall q | NextSuccess(s, q, row) ensures IsOpen(s, q) {
      OneRow(s, p, q, row.account, row.nonce + 1);
    }
    assert forall q :: NextSuccess(s, q, row) ==> StatusesOf(s, q) == [SUCCESS];
  }

  /** Only a used-up nonce whose transaction succeeded can anchor. */
  lemma AnchorSucceeded(s: State, o: nat, row: OtxRow)
    requires Inv(s) && NextSuccess(s, o, row)
    ensures row.nonce + 1 < |MinedBy(s.mined, row.account)| && MinedBy(s.mined, row.account)[row.nonce + 1].ok
  {
    hide GapFree, LiveOk, RowsOk, SentOk, ChainOk, JobsOk, NewKeysUnused;
    assert Truthful(s.otx[o], s.dispatch[o][0], s.mined);
  }

  lemma RevertedAnchorsNothing(s: State, row: OtxRow)
    requires Inv(s) && row.nonce + 1 < |MinedBy(s.mined, row.account)|
    requires !MinedBy(s.mined, row.account)[row.nonce + 1].ok
    ensures !Anchored(s, row)
  {
    hide Inv, HashMined, MinedBy, InWindow, NextSuccess;
    if Anchored(s, row) {
      var q :| NextSuccess(s, q, row);
      AnchorSucceeded(s, q, row);
      assert false;
    }
  }

  /** An orphan below a transaction that reverted stays one, whatever its row says. */
  lemma OrphanBelowReverted(s: State, t: State, a: Address, n: nat)
    requires Inv(s) && PassEffect(s, t, a) && Orphaned(s, a, n)
    requires n + 1 < |MinedBy(s.mined, a)| && !MinedBy(s.mined, a)[n + 1].ok
    ensures Orphaned(t, a, n)
  {
    hide Inv, MinedBy, HashMined, PassEffect, Anchored, OrphanedBy;
    var o :| OrphanedBy(s, o, a, n);
    RevertedKeepsOrphan(s, t, a, n, o);
  }

  lemma RevertedKeepsOrphan(s: State, t: State, a: Address, n: nat, o: nat)
    requires Inv(s) && PassEffect(s, t, a) && OrphanedBy(s, o, a, n)
    requires n + 1 < |MinedBy(s.mined, a)| && !MinedBy(s.mined, a)[n + 1].ok
    ensures OrphanedBy(t, o, a, n)
  {
    hide Inv, MinedBy, PassEffect, Anchored, HashMined, IsOpen;
    RevertedAnchorsNothing(s, s.otx[o]);
    PassOn(s, t, a, o);
    hide SettledRow, SameRow;
    StillOpen(s, t, o);
    IsSame(s, t, o);
    SameMined(s, t, s.otx[o].hash);
  }

  /** An orphan below a resolved success in the window is recovered. */
  lemma OrphanBelowSuccess(s: State, t: State, a: Address, n: nat)
    requires Inv(s) && Inv(t) && PassEffect(s, t, a) && Orphaned(s, a, n) && Resolved(s, a, n + 1)
             && CloseRun(s.mined, a, n, 1)
    ensures Resolved(t, a, n)
  {
    var o :| OrphanedBy(s, o, a, n);
    var p := ResolvedRow(s, a, n + 1);
    hide Inv, PassEffect, InWindow, Healable;
    SuccessAnchors(s, o, p, a, n);
    hide CloseRun, HashMined, MinedBy, Anchored, Resolved;
    AnchoredHeals(s, o, a, n);
    WaitingResolvesIff(s, t, a, n);
  }

  lemma AnchoredHeals(s: State, o: nat, a: Address, n: nat)
    requires OrphanedBy(s, o, a, n) && Anchored(s, s.otx[o])
    ensures Waiting(s, a, n) && Healable(s, a, n) && n < |MinedBy(s.mined, a)|
  {
    AnchoredIsMined(s, s.otx[o]);
    hide Anchored, MinedBy, HashMined;
  }

  lemma SuccessAnchors(s: State, o: nat, p: nat, a: Address, n: nat)
    requires Inv(s) && OrphanedBy(s, o, a, n) && CloseRun(s.mined, a, n, 1) && ResolvedBy(s, p, a, n + 1)
    ensures Anchored(s, s.otx[o])
  {
    hide Inv;
    assert InWindow(MinedBy(s.mined, a)[n].block, MinedBy(s.mined, a)[n + 1].block);
    hide InWindow, IsOpen;
    TargetMined(s, s.otx[p]);
    hide MinedBy, HashMined;
    assert NextSuccess(s, p, s.otx[o]);
    assert AnchorReaches(s, s.otx[o], s.otx[p].hash);
  }

  lemma CloseTail(mined: map<Address, seq<Mined>>, a: Address, n: nat, k: nat)
    requires CloseRun(mined, a, n, k) && k > 0
    ensures CloseRun(mined, a, n, k - 1) && CloseRun(mined, a, n + k - 1, 1)
  {
    hide MinedBy, InWindow;
  }

  /** Consecutive passes over account `a`. */
  ghost predicate Passes(ss: seq<State>, a: Address) {
    && ss != []
    && (forall i :: 0 <= i < |ss| ==> Inv(ss[i]))
    && (forall i, j :: 0 <= i < |ss| - 1 && j == i + 1 ==> PassEffect(ss[i], ss[j], a))
  }

  /** k orphans below a resolved success take exactly k passes: each pass recovers the last one left. */
  lemma {:induction false} OrphansTakeExactlyKPasses(ss: seq<State>, a: Address, n: nat, k: nat, j: nat)
    requires Passes(ss, a) && j < |ss| && j <= k && CloseRun(ss[0].mined, a, n, k)
    requires forall i :: n <= i < n + k ==> Orphaned(ss[0], a, i)
    requires Resolved(ss[0], a, n + k)
    ensures forall i :: n <= i < n + k - j ==> Orphaned(ss[j], a, i)
    ensures forall i :: n + k - j <= i <= n + k ==> Resolved(ss[j], a, i)
    ensures ss[j].mined == ss[0].mined
    decreases j
  {
    hide Orphaned, Resolved, PassEffect, Inv, CloseRun, MinedBy;
    if j > 0 {
      OrphansTakeExactlyKPasses(ss, a, n, k, j - 1);
      var s, t, left := ss[j - 1], ss[j], k - (j - 1);
      PassKeepsMined(s, t, a);
      forall i | n <= i < n + k - j ensures Orphaned(t, a, i) {
        CloseBounds(s.mined, a, n, k);
        assert Orphaned(s, a, i + 1);
        OrphanBelowOrphan(s, t, a, i);
      }
      ShorterRun(s.mined, a, n, k, left);
      CloseTail(s.mined, a, n, left);
      OrphanBelowSuccess(s, t, a, n + left - 1);
      forall i | n + k - j <= i <= n + k ensures Resolved(t, a, i) {
        if i >= n + left {
          ResolvedStays(s, t, a, i);
        }
      }
    }
  }

  lemma CloseBounds(mined: map<Address, seq<Mined>>, a: Address, n: nat, k: nat)
    requires CloseRun(mined, a, n, k)
    ensures n + k < |MinedBy(mined, a)|
  {
  }

  lemma ShorterRun(mined: map<Address, seq<Mined>>, a: Address, n: nat, k: nat, m: nat)
    requires CloseRun(mined, a, n, k) && m <= k
    ensures CloseRun(mined, a, n, m)
  {
    hide MinedBy, InWindow;
  }

  /** Passes of the unlocker itself, with every call answered. */
  method RunPasses(w: World, a: Address, k: nat) returns (ghost ss: seq<State>)
    requires w.Valid() && w.quiet
    modifies w
    ensures Passes(ss, a) && |ss| == k + 1 && ss[0] == old(w.s) && ss[k] == w.s && w.Valid()
  {
    hide Inv, PassEffect, Unlocker.AllSteps, Unlocker.Visited, Run, Init, Reachable;
    w.Known();
    ss := [w.s];
    for i := 0 to k
      invariant w.Valid() && Passes(ss, a) && |ss| == i + 1 && ss[0] == old(w.s) && ss[i] == w.s
    {
      ghost var rows, visits;
      var ok;
      ok, rows, visits := Unlocker.ProcessAccount(w, a);
      w.Known();
      ss := ss + [w.s];
    }
  }
}
