/** What the network can mine from what was sent to it. */
module Draining {
  import opened Types
  import opened Lifecycle
  import opened Invariant
  import opened Theorems

  /** Some version of nonce `n` of `a` is among `txs`. */
  ghost predicate Holds(txs: set<Tx>, a: Address, n: nat) {
    exists tx :: tx in txs && tx.intent.sender == a && tx.intent.nonce == n
  }

  /** Only the chain moves: blocks and mined transactions. */
  ghost predicate ChainOnly(steps: seq<Step>) {
    forall i :: 0 <= i < |steps| ==> steps[i].Mine? || steps[i].NewBlock?
  }

  lemma Count(s: State, tx: Tx, ok: bool)
    requires Enabled(s, Mine(tx, ok))
    ensures MinedBy(Next(s, Mine(tx, ok)).mined, tx.intent.sender) ==
              MinedBy(s.mined, tx.intent.sender) + [Mined(tx, s.height, ok)]
    ensures forall a :: a != tx.intent.sender ==> MinedBy(Next(s, Mine(tx, ok)).mined, a) == MinedBy(s.mined, a)
    ensures Next(s, Mine(tx, ok)).sent == s.sent && Next(s, Mine(tx, ok)).next == s.next
            && Next(s, Mine(tx, ok)).live == s.live
  {
  }

  lemma CanMine(s: State, a: Address, tx: Tx)
    requires tx in s.sent && tx.intent.sender == a && tx.intent.nonce == |MinedBy(s.mined, a)|
    ensures Enabled(s, Mine(tx, true))
  {
  }

  /** If the network holds a version of every waiting nonce below `upTo`, it can mine them all, one after another. */
  lemma {:induction false} Drains(s: State, a: Address, held: set<Tx>, upTo: nat) returns (steps: seq<Step>)
    requires held <= s.sent && |MinedBy(s.mined, a)| <= upTo
    requires forall n :: |MinedBy(s.mined, a)| <= n < upTo ==> Holds(held, a, n)
    ensures |steps| == upTo - |MinedBy(s.mined, a)| && |MinedBy(Run(s, steps).mined, a)| == upTo
    ensures forall i :: 0 <= i < |steps| ==>
              steps[i].Mine? && steps[i].tx in held && Enabled(Run(s, steps[..i]), steps[i])
    ensures Run(s, steps).sent == s.sent
    decreases upTo - |MinedBy(s.mined, a)|
  {
    hide Enabled, Apply, Next, MinedBy;
    if |MinedBy(s.mined, a)| == upTo {
      steps := [];
    } else {
      steps := Drains(s, a, held, upTo - 1);
      assert Holds(held, a, upTo - 1);
      var tx :| tx in held && tx.intent.sender == a && tx.intent.nonce == upTo - 1;
      var before := Run(s, steps);
      CanMine(before, a, tx);
      Count(before, tx, true);
      var all := steps + [Mine(tx, true)];
      assert all[..|steps|] == steps;
      forall i | 0 <= i < |all| ensures all[i].Mine? && all[i].tx in held && Enabled(Run(s, all[..i]), all[i]) {
        if i < |steps| {
          assert all[..i] == steps[..i];
        }
      }
      steps := all;
    }
  }

  /** A nonce nobody sent stops its account: while only the chain moves, it is never passed. */
  lemma {:induction false} GapBlocks(s: State, a: Address, n: nat, steps: seq<Step>)
    requires Inv(s) && a in s.next && ChainOnly(steps)
    requires |MinedBy(s.mined, a)| <= n && !Holds(s.sent, a, n)
    ensures |MinedBy(Run(s, steps).mined, a)| <= n
    ensures Run(s, steps).sent == s.sent && Run(s, steps).next == s.next
    decreases |steps|
  {
    if steps != [] {
      hide Enabled, Apply, MinedBy, Inv, Holds;
      var last := |steps| - 1;
      GapBlocks(s, a, n, steps[..last]);
      GapStep(Run(s, steps[..last]), a, n, steps[last]);
    }
  }

  lemma GapStep(s: State, a: Address, n: nat, step: Step)
    requires a in s.next && (step.Mine? || step.NewBlock?)
    requires |MinedBy(s.mined, a)| <= n && !Holds(s.sent, a, n)
    ensures |MinedBy(Next(s, step).mined, a)| <= n && Next(s, step).sent == s.sent && Next(s, step).next == s.next
  {
    if step.Mine? && Enabled(s, step) {
      assert step.tx.intent.sender == a ==> step.tx in s.sent;
      Count(s, step.tx, step.ok);
    }
  }

  ghost predicate Reaches(s: State, a: Address, count: nat) {
    exists steps :: ChainOnly(steps) && |MinedBy(Run(s, steps).mined, a)| >= count
  }

  /** The network can bring an account to `next_nonce` by itself exactly when no waiting nonce is missing from it. */
  lemma DrainsIff(s: State, a: Address)
    requires Reachable(s) && a in s.next
    ensures |MinedBy(s.mined, a)| <= s.next[a]
    ensures Reaches(s, a, s.next[a]) <==> forall n :: |MinedBy(s.mined, a)| <= n < s.next[a] ==> Holds(s.sent, a, n)
  {
    ReachableInv(s);
    hide Inv, Reachable, MinedBy, Holds, Run;
    if |MinedBy(s.mined, a)| > s.next[a] {
      var o := EveryExecutionHasOneOtx(s, a, s.next[a]);
    }
    if forall n :: |MinedBy(s.mined, a)| <= n < s.next[a] ==> Holds(s.sent, a, n) {
      var steps := Drains(s, a, s.sent, s.next[a]);
    } else {
      var n: nat :| |MinedBy(s.mined, a)| <= n < s.next[a] && !Holds(s.sent, a, n);
      forall steps | ChainOnly(steps) ensures |MinedBy(Run(s, steps).mined, a)| <= n {
        GapBlocks(s, a, n, steps);
      }
    }
  }

  lemma HeldReaches(s: State, a: Address, held: set<Tx>, upTo: nat)
    requires held <= s.sent && forall n :: |MinedBy(s.mined, a)| <= n < upTo ==> Holds(held, a, n)
    ensures Reaches(s, a, upTo)
  {
    if |MinedBy(s.mined, a)| <= upTo {
      var steps := Drains(s, a, held, upTo);
    } else {
      assert ChainOnly([]) && Run(s, []) == s;
    }
  }
}
