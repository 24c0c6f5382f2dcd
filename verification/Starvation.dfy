/** Which accounts a run of the periodic unlocker gets to: the page holds the hundred oldest stuck otxs, and those
    that no pass can heal stay on it. */
module Starvation {
  import opened Types
  import opened Lifecycle
  import opened Invariant
  import opened Preservation
  import opened Growth
  import opened Theorems
  import opened Runs
  import opened Queries
  import opened Stability
  import opened World
  import opened Recovery
  import opened Healing
  import opened Orphans
  import Signing
  import opened Terminal
  import Unlocker

  /** The accounts with an otx on the page of stuck ones. */
  function Served(s: State, aged: set<nat>): set<Address> {
    set o | o in s.otx && OnPage(StuckIds(s, aged), o) :: s.otx[o].account
  }

  lemma PageIsServed(s: State, aged: set<nat>, rows: seq<OtxRow>)
    requires IsPage(s, StuckIds(s, aged), rows)
    ensures AffectedAccounts(rows) == Served(s, aged)
  {
    PageAccounts(s, aged, rows);
    hide IsPage, OnPage, StuckIds;
  }

  lemma Fewer(x: set<nat>, y: set<nat>)
    requires x <= y
    ensures |x| <= |y|
  {
    assert |y| == |x| + |y - x| by { assert x + (y - x) == y; }
  }

  /** An account with a stuck otx is on the page exactly when fewer than a hundred stuck otxs, all of them of other
      accounts, are older than its oldest. */
  lemma ServedIff(s: State, aged: set<nat>, a: Address, o: nat)
    requires IsStuck(s, o, aged) && s.otx[o].account == a
    requires forall p :: IsStuck(s, p, aged) && s.otx[p].account == a ==> o <= p
    ensures a in Served(s, aged) <==> |Before(StuckIds(s, aged), o)| < 100
    ensures forall p :: p in Before(StuckIds(s, aged), o) ==> p in s.otx && s.otx[p].account != a
  {
    var stuck := StuckIds(s, aged);
    assert o in stuck && (OnPage(stuck, o) ==> a in Served(s, aged));
    hide IsStuck;
    if p :| p in s.otx && OnPage(stuck, p) && s.otx[p].account == a {
      assert Before(stuck, o) <= Before(stuck, p);
      Fewer(Before(stuck, o), Before(stuck, p));
    }
  }

  /** The unlocker looks for every otx of the service that has been left alone and is not SUCCESS or REVERTED. */
  lemma StuckIff(s: State, o: nat, aged: set<nat>)
    requires Reachable(s) && o in s.otx
    ensures IsStuck(s, o, aged) <==>
            && s.otx[o].kind !in {GENERIC_SIGN, OTHER_MANUAL} && o in aged
            && StatusesOf(s, o) != [SUCCESS] && StatusesOf(s, o) != [REVERTED]
  {
    ReachableInv(s);
    CurrentVersionFact(s, o);
    ExternalNeverEntered(s, o);
    hide Inv, Reachable;
    assert StatusesOf(s, o) == [StatusesOf(s, o)[0]];
    assert StatusesOf(s, o)[0] in StatusesOf(s, o);
  }

  /** What a job commits under a type of the service is found for as long as it is not settled. */
  lemma CommittedIsFound(s: State, t: State, a: Address, base: nat, jobs: seq<Signing.Signed>, i: nat, aged: set<nat>)
    requires Reachable(s) && Leads(s, t) && Signing.Committed(s, a, base, jobs) && i < |jobs|
    requires jobs[i].kind !in {GENERIC_SIGN, OTHER_MANUAL} && jobs[i].id in aged
    ensures jobs[i].id in t.otx && t.otx[jobs[i].id].account == a
    ensures StatusesOf(t, jobs[i].id) != [SUCCESS] && StatusesOf(t, jobs[i].id) != [REVERTED] ==>
              IsStuck(t, jobs[i].id, aged)
  {
    var o := jobs[i].id;
    LeadsKeeps(s, t);
    assert o in s.otx && s.otx[o].kind == jobs[i].kind && s.otx[o].account == a;
    hide Signing.Committed, Reachable, Leads, Inv;
    ReachableInv(s);
    assert Kept(s, t, o) by { GrowsKeeps(s, t, o); }
    StuckIff(t, o, aged);
  }

  lemma GrowsKeeps(s: State, t: State, o: nat)
    requires Grows(s, t) && o in s.otx
    ensures Kept(s, t, o)
  {
  }

  // ----- starvation

  /** No nonce of the account can be resolved by a pass. */
  ghost predicate Hopeless(s: State, b: Address) {
    forall n: nat :: n < |MinedBy(s.mined, b)| ==> !Healable(s, b, n)
  }

  /** The otxs `first` are open, older than every open one of `a`, and of accounts that no pass can help. */
  ghost predicate Blocked(s: State, a: Address, first: set<nat>) {
    && (forall o :: o in first ==> Stays(s, o) && s.otx[o].account != a)
    && forall o, p :: o in first && p in s.otx && s.otx[p].account == a && IsOpen(s, p) ==> o < p
  }

  ghost predicate Stays(s: State, o: nat) {
    && o in s.otx && s.otx[o].kind !in CLIENT_TYPES && IsOpen(s, o)
    && s.otx[o].nonce < |MinedBy(s.mined, s.otx[o].account)| && Hopeless(s, s.otx[o].account)
  }

  lemma NotServed(s: State, aged: set<nat>, a: Address, first: set<nat>)
    requires Blocked(s, a, first) && first <= aged && |first| >= 100
    ensures a !in Served(s, aged)
  {
    hide Hopeless;
    var stuck := StuckIds(s, aged);
    forall o | o in first ensures o in stuck {
      assert Stays(s, o);
    }
    forall p | p in s.otx && s.otx[p].account == a ensures !OnPage(stuck, p) {
      if p in stuck {
        assert first <= Before(stuck, p);
        Fewer(first, Before(stuck, p));
      }
    }
  }

  /** A run leaves the used-up otxs of a hopeless account as they are. */
  lemma HopelessRow(s: State, t: State, accounts: set<Address>, o: nat)
    requires RunEffect(s, t, accounts) && o in s.otx && Hopeless(s, s.otx[o].account)
    requires s.otx[o].nonce < |MinedBy(s.mined, s.otx[o].account)|
    ensures SameRow(s, t, o)
  {
    hide IsOpen, HashMined, Anchored, MinedBy, SameRow;
    if s.otx[o].account in accounts && IsOpen(s, o) {
      if HashMined(s, s.otx[o].hash) || Anchored(s, s.otx[o]) {
        HealableBy(s, s.otx[o].account, s.otx[o].nonce, o);
      }
    }
  }

  /** The used-up otxs of `b` are the same in `t`. */
  ghost predicate SameUsedUp(s: State, t: State, b: Address) {
    forall o :: o in s.otx && s.otx[o].account == b && s.otx[o].nonce < |MinedBy(s.mined, b)| ==> SameRow(s, t, o)
  }

  lemma StaysHopeless(s: State, t: State, accounts: set<Address>, b: Address)
    requires Inv(t) && RunEffect(s, t, accounts) && Hopeless(s, b)
    ensures Hopeless(t, b) && SameUsedUp(s, t, b)
  {
    hide Inv, IsOpen, HashMined, Anchored, MinedBy, Healable, SameRow, SettledRow;
    forall o | o in s.otx && s.otx[o].account == b && s.otx[o].nonce < |MinedBy(s.mined, b)| ensures SameRow(s, t, o) {
      HopelessRow(s, t, accounts, o);
    }
    forall n: nat | n < |MinedBy(t.mined, b)| ensures !Healable(t, b, n) {
      if Healable(t, b, n) {
        HealableBefore(s, t, b, n);
      }
    }
  }

  /** What can be healed after could be healed before. */
  lemma HealableBefore(s: State, t: State, b: Address, n: nat)
    requires Inv(t) && SameChain(s, t) && SameUsedUp(s, t, b) && n < |MinedBy(t.mined, b)| && Healable(t, b, n)
    ensures Healable(s, b, n)
  {
    hide Inv, HashMined, Anchored, MinedBy;
    var o :| o in t.otx && At(t.otx[o], b, n) && IsOpen(t, o)
             && (HashMined(t, t.otx[o].hash) || Anchored(t, t.otx[o]));
    var row := t.otx[o];
    SameMined(s, t, row.hash);
    if Anchored(t, row) {
      SameAnchor(s, t, row);
    }
    HealableBy(s, b, n, o);
  }

  lemma SameAnchor(s: State, t: State, row: OtxRow)
    requires Inv(t) && SameChain(s, t) && SameUsedUp(s, t, row.account) && Anchored(t, row)
    ensures Anchored(s, row)
  {
    var q :| NextSuccess(t, q, row) && AnchorReaches(t, row, t.otx[q].hash);
    AnchorSucceeded(t, q, row);
    hide Inv, HashMined, MinedBy, SameRow, Anchored;
    forall p | p in s.otx && At(s.otx[p], row.account, row.nonce + 1) ensures SameRow(s, t, p) {
    }
    AnchoredIsLocal(s, t, row);
  }

  lemma StaysBlocked(s: State, t: State, accounts: set<Address>, a: Address, first: set<nat>)
    requires Inv(t) && RunEffect(s, t, accounts) && a !in accounts && Blocked(s, a, first)
    ensures Blocked(t, a, first) && forall p :: p in s.otx && s.otx[p].account == a ==> SameRow(s, t, p)
  {
    hide Inv, MinedBy, Hopeless, SettledRow;
    forall o | o in first ensures Stays(t, o) && t.otx[o].account != a {
      assert Stays(s, o);
      HopelessRow(s, t, accounts, o);
      StaysHopeless(s, t, accounts, s.otx[o].account);
    }
  }

  /** Consecutive runs of the unlocker; `ageds[i]` are the otxs left alone for long enough at the i-th. */
  ghost predicate Unlocks(ss: seq<State>, ageds: seq<set<nat>>) {
    && |ss| == |ageds| + 1 && (forall i :: 0 <= i < |ss| ==> Inv(ss[i]))
    && forall i, j :: 0 <= i < |ageds| && j == i + 1 ==> RunEffect(ss[i], ss[j], Served(ss[i], ageds[i]))
  }

  /** A hundred hopeless otxs that are older than all open ones of an account keep it off the page in every run, however
      often the unlocker runs: its otxs stay as they are. */
  lemma {:induction false} Starves(ss: seq<State>, ageds: seq<set<nat>>, a: Address, first: set<nat>, i: nat)
    requires Unlocks(ss, ageds) && i < |ss| && Blocked(ss[0], a, first) && |first| >= 100
    requires forall j :: 0 <= j < |ageds| ==> first <= ageds[j]
    ensures Blocked(ss[i], a, first) && (i < |ageds| ==> a !in Served(ss[i], ageds[i]))
    ensures forall p :: p in ss[0].otx && ss[0].otx[p].account == a ==> SameRow(ss[0], ss[i], p)
    decreases i
  {
    hide Inv, RunEffect, Blocked, Served;
    if i > 0 {
      Starves(ss, ageds, a, first, i - 1);
      StaysBlocked(ss[i - 1], ss[i], Served(ss[i - 1], ageds[i - 1]), a, first);
    }
    if i < |ageds| {
      NotServed(ss[i], ageds[i], a, first);
    }
  }

  /** Runs of the unlocker itself, with every call answered and nobody else at work. */
  method UnlockAgain(w: World, ageds: seq<set<nat>>) returns (ghost ss: seq<State>)
    requires w.Valid() && w.quiet
    modifies w
    ensures Unlocks(ss, ageds) && ss[0] == old(w.s) && ss[|ageds|] == w.s && w.Valid()
  {
    hide Inv, RunEffect, Run, Init, Reachable, Unlocker.PassFits, Unlocker.PassPrompt, Unlocker.PassSteps, OnPage,
      StuckIds, IsPage, Grows, AllAnswered;
    w.Known();
    ss := [w.s];
    for i := 0 to |ageds|
      invariant w.Valid() && Unlocks(ss, ageds[..i]) && ss[0] == old(w.s) && ss[i] == w.s
    {
      ghost var s0 := w.s;
      var ok;
      ghost var seen, passes;
      ok, seen, passes := Unlocker.Work(w, ageds[i]);
      w.Known();
      assert Unlocker.AccountsOf(passes) == Served(s0, ageds[i]);
      ss := ss + [w.s];
      assert ageds[..i + 1] == ageds[..i] + [ageds[i]];
    }
    assert ageds[..|ageds|] == ageds;
  }

  // ----- it comes about

  /** `n` orphans of one key, and then one payment of another. */
  function QueueSteps(n: nat): seq<Step> {
    ManySteps(n) + SignSteps(OTHER)
  }

  function FirstIds(n: nat): set<nat> {
    if n == 0 then {} else FirstIds(n - 1) + {n}
  }

  lemma {:induction false} TheFirstIds(n: nat)
    ensures |FirstIds(n)| == n && forall o :: o in FirstIds(n) <==> 1 <= o <= n
  {
    if n > 0 {
      TheFirstIds(n - 1);
    }
  }

  /** The state after `n` orphans of the payer and a fresh payment of the other key. */
  ghost predicate Queued(t: State, n: nat) {
    && |MinedBy(t.mined, PAYER)| == n && (forall k: nat :: k < n ==> OrphanAt(t, k))
    && (forall o :: o in t.otx ==> 1 <= o <= n + 1)
    && n + 1 in t.otx && t.otx[n + 1] == PaymentRow(OTHER, 0, n + 1) && StatusesOf(t, n + 1) == [PENDING]
  }

  lemma IsQueued(s: State, n: nat)
    requires OrphansUpTo(s, n)
    ensures Queued(Signed(s, OTHER), n)
  {
    var t := Signed(s, OTHER);
    assert t.otx.Keys == s.otx.Keys + {n + 1};
    assert forall o :: o in t.otx.Keys ==> o in s.otx || o == n + 1;
    hide MinedBy, PaymentRow, ReissuedRow, Payment, Reissue;
    forall k: nat | k < n ensures OrphanAt(t, k) {
      assert OrphanAt(s, k);
    }
  }

  lemma OrphansAreHopeless(t: State, n: nat)
    requires Queued(t, n)
    ensures Hopeless(t, PAYER)
  {
    hide MinedBy, HashMined, InWindow, Anchored, IsOpen;
    forall k: nat | k < n ensures !Healable(t, PAYER, k) {
      forall o | o in t.otx && At(t.otx[o], PAYER, k)
        ensures !HashMined(t, t.otx[o].hash) && !Anchored(t, t.otx[o]) {
        OrphanOfPayer(t, n, o);
        IsOrphan(t, k);
        NoSuccessAbove(t, n, k);
      }
    }
  }

  lemma OrphanOfPayer(t: State, n: nat, o: nat)
    requires Queued(t, n) && o in t.otx && t.otx[o].account == PAYER
    ensures 1 <= o <= n && OrphanAt(t, o - 1) && t.otx[o].nonce == o - 1 && StatusesOf(t, o) == [IN_NETWORK]
  {
    var k: nat := o - 1;
    assert k < n ==> OrphanAt(t, k);
  }

  lemma NoSuccessAbove(t: State, n: nat, k: nat)
    requires Queued(t, n) && k + 1 in t.otx && t.otx[k + 1].account == PAYER
    ensures !Anchored(t, t.otx[k + 1])
  {
    if Anchored(t, t.otx[k + 1]) {
      var q :| NextSuccess(t, q, t.otx[k + 1]);
      OrphanOfPayer(t, n, q);
      assert false;
    }
  }

  /** From a fresh service, a hundred orphans of one key with no success above them starve the other: its payment is
      stuck, and no number of runs of the unlocker gets to it. */
  lemma StarvationIsReached(n: nat)
    requires n >= 100
    ensures var t := Run(FRESH, QueueSteps(n));
            && Reachable(t) && Blocked(t, OTHER, FirstIds(n)) && |FirstIds(n)| == n
            && IsStuck(t, n + 1, FirstIds(n + 1)) && t.otx[n + 1].account == OTHER
            && OTHER !in Served(t, FirstIds(n + 1))
  {
    FreshIsInit();
    ManyOrphans(n);
    TheFirstIds(n);
    var s, t := Run(FRESH, ManySteps(n)), Run(FRESH, QueueSteps(n));
    assert Reachable(t);
    assert t == Signed(s, OTHER) by {
      hide Run;
      SignsPayment(s, OTHER);
      RunAppend(FRESH, ManySteps(n), SignSteps(OTHER));
    }
    IsQueued(s, n);
    hide Run, Signed, OrphansUpTo, ManySteps, Reachable;
    QueueBlocks(t, n);
    assert FirstIds(n) <= FirstIds(n + 1);
    NotServed(t, FirstIds(n + 1), OTHER, FirstIds(n));
  }

  lemma QueueBlocks(t: State, n: nat)
    requires Queued(t, n)
    ensures Blocked(t, OTHER, FirstIds(n)) && IsStuck(t, n + 1, FirstIds(n + 1)) && t.otx[n + 1].account == OTHER
  {
    OrphansAreHopeless(t, n);
    LastIsStuck(t, n);
    TheFirstIds(n);
    hide Hopeless, HashMined, MinedBy, IsOpen, FirstIds, Stays, OrphanAt, IsStuck, StatusesOf;
    forall o | o in FirstIds(n) ensures Stays(t, o) && t.otx[o].account == PAYER {
      OrphanStays(t, n, o);
    }
    forall p | p in t.otx && t.otx[p].account == OTHER ensures p > n {
      if p <= n {
        OrphanStays(t, n, p);
      }
    }
  }

  lemma LastIsStuck(t: State, n: nat)
    requires Queued(t, n)
    ensures IsStuck(t, n + 1, FirstIds(n + 1)) && t.otx[n + 1].account == OTHER
  {
    assert PENDING in StatusesOf(t, n + 1) && PENDING !in TERMINAL;
  }

  lemma OrphanStays(t: State, n: nat, o: nat)
    requires Queued(t, n) && 1 <= o <= n && Hopeless(t, PAYER)
    ensures Stays(t, o) && t.otx[o].account == PAYER
  {
    var k: nat := o - 1;
    assert OrphanAt(t, k);
    IsOrphan(t, k);
    hide Hopeless, HashMined;
  }
}
