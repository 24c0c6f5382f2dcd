/** Orphaned nonces really come about: runs from a fresh service that leave any number of them, and what the
    command-line unlocker does with one. */
module Orphans {
  import opened Types
  import opened Fees
  import opened Lifecycle
  import opened Invariant
  import opened Growth
  import opened Preservation
  import opened Theorems
  import opened Runs
  import opened Queries
  import opened World
  import opened Recovery
  import opened Healing
  import Cli

  /** The payment as the unlocker signs it again when the gas price has not risen. */
  function Reissue(a: Address, n: nat): Tx {
    Resigned(Payment(a, n), 0, 0)
  }

  /** The row stores the re-signed transaction. */
  function ReissuedRow(a: Address, n: nat, id: nat): OtxRow {
    PaymentRow(a, n, id).(raw := Reissue(a, n), hash := HashOf(Reissue(a, n)))
  }

  /** The job sends the payment, the unlocker re-signs it and rewrites the row, and then the first version is mined. */
  function RaceSteps(a: Address, n: nat, id: nat): seq<Step> {
    var row := PaymentRow(a, n, id);
    [SendJob(id, 0), SendResigned(row, 0, 0), WriteResigned(row, 0, 0), Mine(row.raw, true)]
  }

  /** What the race leaves before the first version is mined. */
  function Raced(s: State, a: Address, n: nat, id: nat): State {
    var row := ReissuedRow(a, n, id);
    s.(sent := s.sent + {Payment(a, n), Reissue(a, n)}, otx := s.otx[id := row],
       dispatch := s.dispatch[id := [IN_NETWORK]], versions := s.versions + {row})
  }

  /** And after. */
  function Orphan(s: State, a: Address, n: nat, id: nat): State {
    Raced(s, a, n, id).(mined := s.mined[a := MinedBy(s.mined, a) + [Mined(Payment(a, n), s.height, true)]])
  }

  lemma Races(s: State, a: Address, n: nat, id: nat)
    requires JustSigned(s, a, n, id)
    ensures Run(s, RaceSteps(a, n, id)[..3]) == Raced(s, a, n, id)
  {
    var steps := RaceSteps(a, n, id);
    var row := PaymentRow(a, n, id);
    var s1 := Next(s, steps[0]);
    assert s1 == s.(sent := s.sent + {Payment(a, n)});
    var s2 := Next(s1, steps[1]);
    assert s2 == s1.(sent := s1.sent + {Reissue(a, n)});
    Rewrites(s2, a, n, id);
    hide Next;
    assert s2.sent == s.sent + {Payment(a, n), Reissue(a, n)};
    RunsThree(s, steps[..3]);
  }

  lemma Rewrites(s: State, a: Address, n: nat, id: nat)
    requires JustSigned(s, a, n, id) && Reissue(a, n) in s.sent
    ensures var row := ReissuedRow(a, n, id);
            Next(s, WriteResigned(PaymentRow(a, n, id), 0, 0)) ==
              s.(otx := s.otx[id := row], dispatch := s.dispatch[id := [IN_NETWORK]], versions := s.versions + {row})
  {
    hide Resigned;
    var t := Next(s, WriteResigned(PaymentRow(a, n, id), 0, 0));
    assert t.dispatch[id] == [IN_NETWORK];
  }

  /** The four steps make the payment's row an orphan. */
  lemma RaceOrphans(s: State, a: Address, n: nat, id: nat)
    requires JustSigned(s, a, n, id) && n == |MinedBy(s.mined, a)|
    ensures Run(s, RaceSteps(a, n, id)) == Orphan(s, a, n, id)
  {
    hide Next, Run, Resigned;
    Races(s, a, n, id);
    Mines(Raced(s, a, n, id), Payment(a, n));
    var steps := RaceSteps(a, n, id);
    assert steps == steps[..3] + [steps[3]];
    RunAppend(s, steps[..3], [steps[3]]);
    RunOne(Raced(s, a, n, id), steps[3]);
  }

  // ----- any number of orphans

  /** The race for `n` payments of one key, one after another. */
  function ManySteps(n: nat): seq<Step> {
    if n == 0 then [] else ManySteps(n - 1) + (SignSteps(PAYER) + RaceSteps(PAYER, n - 1, n))
  }

  predicate OrphanAt(s: State, k: nat) {
    && k + 1 in s.otx && s.otx[k + 1] == ReissuedRow(PAYER, k, k + 1)
    && k + 1 in s.dispatch && s.dispatch[k + 1] == [IN_NETWORK]
    && k < |MinedBy(s.mined, PAYER)| && MinedBy(s.mined, PAYER)[k] == Mined(Payment(PAYER, k), 0, true)
  }

  predicate Nonces(s: State, payer: nat, other: nat) {
    PAYER in s.next && s.next[PAYER] == payer && OTHER in s.next && s.next[OTHER] == other
  }

  /** The first `n` nonces of the key are orphaned, in one block, and that is all there is. */
  ghost predicate OrphansUpTo(s: State, n: nat) {
    && s.live == map[] && Nonces(s, n, 0) && s.idSeq == n + 1 && s.height == 0
    && |MinedBy(s.mined, PAYER)| == n && (forall o :: o in s.otx ==> 1 <= o <= n)
    && forall k: nat :: k < n ==> OrphanAt(s, k)
  }

  /** Signing and racing one payment more leaves the earlier orphans and adds one. */
  lemma EarlierOrphan(s: State, n: nat, k: nat)
    requires PAYER in s.next && s.next[PAYER] == n && s.idSeq == n + 1 && k < n && OrphanAt(s, k)
    ensures OrphanAt(Orphan(Signed(s, PAYER), PAYER, n, n + 1), k)
  {
    hide Payment, Reissue, ReissuedRow, PaymentRow;
  }

  lemma LastOrphan(s: State, n: nat)
    requires PAYER in s.next && s.next[PAYER] == n && s.idSeq == n + 1 && |MinedBy(s.mined, PAYER)| == n
             && s.height == 0
    ensures OrphanAt(Orphan(Signed(s, PAYER), PAYER, n, n + 1), n)
    ensures |MinedBy(Orphan(Signed(s, PAYER), PAYER, n, n + 1).mined, PAYER)| == n + 1
  {
    hide Payment, Reissue, ReissuedRow, PaymentRow;
  }

  lemma OrphanTables(s: State, n: nat)
    requires Nonces(s, n, 0) && s.idSeq == n + 1
    ensures var t := Orphan(Signed(s, PAYER), PAYER, n, n + 1);
            && t.live == s.live && Nonces(t, n + 1, 0) && t.idSeq == n + 2 && t.height == s.height
            && t.otx.Keys == s.otx.Keys + {n + 1}
  {
    hide ReissuedRow, PaymentRow, Payment, Reissue, MinedBy;
  }

  lemma OneMoreOrphan(s: State, n: nat)
    requires OrphansUpTo(s, n)
    ensures JustSigned(Signed(s, PAYER), PAYER, n, n + 1) && |MinedBy(Signed(s, PAYER).mined, PAYER)| == n
    ensures OrphansUpTo(Orphan(Signed(s, PAYER), PAYER, n, n + 1), n + 1)
  {
    IsJustSigned(s, PAYER);
    LastOrphan(s, n);
    OrphanTables(s, n);
    assert forall o :: o in s.otx.Keys + {n + 1} ==> o in s.otx || o == n + 1;
    var t := Orphan(Signed(s, PAYER), PAYER, n, n + 1);
    hide Signed, Orphan, JustSigned, OrphanAt, MinedBy;
    forall k: nat | k < n + 1 ensures OrphanAt(t, k) {
      if k < n {
        EarlierOrphan(s, n, k);
      }
    }
  }

  lemma {:induction false} ManyOrphans(n: nat)
    ensures OrphansUpTo(Run(FRESH, ManySteps(n)), n)
  {
    if n == 0 {
      assert OrphansUpTo(FRESH, 0);
    } else {
      ManyOrphans(n - 1);
      hide Run, SignSteps, RaceSteps, Signed, Orphan, JustSigned;
      var s := Run(FRESH, ManySteps(n - 1));
      OneMoreOrphan(s, n - 1);
      SignsPayment(s, PAYER);
      hide OrphansUpTo;
      RaceOrphans(Signed(s, PAYER), PAYER, n - 1, n);
      RunAppend(s, SignSteps(PAYER), RaceSteps(PAYER, n - 1, n));
      RunAppend(FRESH, ManySteps(n - 1), SignSteps(PAYER) + RaceSteps(PAYER, n - 1, n));
    }
  }

  lemma IsOrphan(s: State, k: nat)
    requires OrphanAt(s, k)
    ensures OrphanedBy(s, k + 1, PAYER, k) && Orphaned(s, PAYER, k) && !HashMined(s, s.otx[k + 1].hash)
  {
    assert s.otx[k + 1].hash.tx == Reissue(PAYER, k) && Reissue(PAYER, k) != Payment(PAYER, k);
    assert IN_NETWORK in StatusesOf(s, k + 1) && IN_NETWORK !in TERMINAL;
    assert OrphanedBy(s, k + 1, PAYER, k);
  }

  /** One more payment on top, which is mined as it was signed. */
  function TopSteps(n: nat): seq<Step> {
    ManySteps(n) + (SignSteps(PAYER) + SettleSteps(PAYER, n, n + 1))
  }

  lemma TopRun(s: State, n: nat)
    requires s == Run(FRESH, ManySteps(n)) && OrphansUpTo(s, n)
    ensures Run(FRESH, TopSteps(n)) == Settled(Signed(s, PAYER), PAYER, n, n + 1)
  {
    IsJustSigned(s, PAYER);
    hide Run, SignSteps, SettleSteps, Signed, Settled, JustSigned, OrphanAt, ManySteps;
    SignsPayment(s, PAYER);
    SettlesPayment(Signed(s, PAYER), PAYER, n, n + 1);
    RunAppend(s, SignSteps(PAYER), SettleSteps(PAYER, n, n + 1));
    RunAppend(FRESH, ManySteps(n), SignSteps(PAYER) + SettleSteps(PAYER, n, n + 1));
  }

  lemma OrphanBelowTop(s: State, n: nat, k: nat)
    requires OrphansUpTo(s, n) && k < n
    ensures OrphanAt(Settled(Signed(s, PAYER), PAYER, n, n + 1), k)
  {
    assert OrphanAt(s, k);
    hide Payment, Reissue, ReissuedRow, PaymentRow;
  }

  lemma TopIsResolved(s: State, n: nat)
    requires OrphansUpTo(s, n)
    ensures var t := Settled(Signed(s, PAYER), PAYER, n, n + 1);
            && n < |MinedBy(t.mined, PAYER)| && MinedBy(t.mined, PAYER)[n] == Mined(Payment(PAYER, n), 0, true)
            && ResolvedBy(t, n + 1, PAYER, n)
  {
    hide OrphanAt;
  }

  lemma UnderTop(s: State, n: nat)
    requires OrphansUpTo(s, n)
    ensures var t := Settled(Signed(s, PAYER), PAYER, n, n + 1);
            && Resolved(t, PAYER, n) && CloseRun(t.mined, PAYER, 0, n)
            && forall k: nat :: k < n ==> Orphaned(t, PAYER, k)
  {
    var t := Settled(Signed(s, PAYER), PAYER, n, n + 1);
    TopIsResolved(s, n);
    hide OrphansUpTo, OrphanedBy, Orphaned, Signed, Settled, ResolvedBy, MinedBy, Payment, Reissue, ReissuedRow;
    forall k: nat | k < n
      ensures Orphaned(t, PAYER, k) && k < |MinedBy(t.mined, PAYER)|
      ensures MinedBy(t.mined, PAYER)[k] == Mined(Payment(PAYER, k), 0, true) {
      OrphanBelowTop(s, n, k);
      IsOrphan(t, k);
    }
  }

  /** The hypothesis of convergence is met: for every `n` a fresh service can get to `n` orphans below a resolved
      success, all in one scan window. */
  lemma OrphansAreReached(n: nat)
    ensures var s := Run(FRESH, TopSteps(n));
            && Reachable(s) && Resolved(s, PAYER, n) && CloseRun(s.mined, PAYER, 0, n)
            && forall k: nat :: k < n ==> Orphaned(s, PAYER, k)
  {
    ManyOrphans(n);
    FreshIsInit();
    var s := Run(FRESH, ManySteps(n));
    hide Run, Init, Orphaned, Resolved, CloseRun, Signed, Settled;
    TopRun(s, n);
    UnderTop(s, n);
    assert Reachable(Run(FRESH, TopSteps(n)));
  }

  // ----- the command-line unlocker meets an orphan

  /** Before the first version is mined the tool fetches the row; when its turn comes, the row is an orphan. */
  lemma FetchedTooSoon()
    ensures var steps := SignSteps(PAYER) + RaceSteps(PAYER, 0, 1);
            var s0, s := Run(FRESH, steps[..9]), Run(FRESH, steps);
            && Reachable(s) && s == Next(s0, Mine(Payment(PAYER, 0), true))
            && Listed(s0, 1, PAYER, |MinedBy(s0.mined, PAYER)|, false) && 1 in s.otx && s.otx[1] == s0.otx[1]
            && At(s.otx[1], PAYER, 0) && |MinedBy(s.mined, PAYER)| == 1
            && Orphaned(s, PAYER, 0) && !HashMined(s, s.otx[1].hash)
  {
    FreshIsInit();
    var steps := SignSteps(PAYER) + RaceSteps(PAYER, 0, 1);
    assert steps == ManySteps(1) by { assert ManySteps(0) == []; }
    ManyOrphans(1);
    IsJustSigned(FRESH, PAYER);
    var signed := Signed(FRESH, PAYER);
    hide Next, Run;
    SignsPayment(FRESH, PAYER);
    Races(signed, PAYER, 0, 1);
    RaceOrphans(signed, PAYER, 0, 1);
    RunAppend(FRESH, SignSteps(PAYER), RaceSteps(PAYER, 0, 1)[..3]);
    RunAppend(FRESH, SignSteps(PAYER), RaceSteps(PAYER, 0, 1));
    assert steps[..9] == SignSteps(PAYER) + RaceSteps(PAYER, 0, 1)[..3];
    Mines(Raced(signed, PAYER, 0, 1), Payment(PAYER, 0));
    assert OrphanAt(Run(FRESH, steps), 0);
    IsOrphan(Run(FRESH, steps), 0);
    assert Reachable(Run(FRESH, steps));
  }

  /** The input of the crash: with every call answered and nobody else at work, the tool crashes on that row. */
  method ToolCrashes() returns (outcome: Cli.Outcome)
    ensures outcome == Cli.Crashed
  {
    FetchedTooSoon();
    FreshIsInit();
    hide Run, Init, Next, Cli.Acts;
    var steps := SignSteps(PAYER) + RaceSteps(PAYER, 0, 1);
    var s := Run(FRESH, steps);
    var w := new World(FRESH, steps, s, true);
    w.Known();
    CurrentVersionFact(s, 1);
    hide Inv, HashMined, Signed;
    ghost var told, did;
    outcome, told, did := Cli.ProcessOtx(w, 1, s.otx[1]);
  }
}
