/** Fee caps: the gas oracle's 120% rule, the 115% re-sign rule and the 105% approval rule. */
module Fees {
  import opened Types

  /** A cap after one re-sign: the oracle's value, unless it is not above the original. */
  function RaisedCap(original: nat, oracle: nat): nat {
    if oracle <= original then original * 115 / 100 else oracle
  }

  /** The transaction a re-sign produces: same intent, both caps raised. */
  function Resigned(original: Tx, oracleFee: nat, oracleTip: nat): Tx {
    Tx(original.intent, RaisedCap(original.feeCap, oracleFee), RaisedCap(original.tipCap, oracleTip))
  }

  /** The fee cap the oracle hands to fresh transactions. */
  function OracleFeeCap(gasPrice: nat): nat {
    gasPrice * 120 / 100
  }

  /** One re-sign strictly raises a cap exactly when the oracle is above it or the cap is at least 7 wei. */
  lemma RaiseIsStrictIff(original: nat, oracle: nat)
    ensures RaisedCap(original, oracle) >= original
    ensures RaisedCap(original, oracle) > original <==> oracle > original || original >= 7
  {
  }

  /** The two comparisons of the re-sign code come to `Resigned`. */
  lemma CapsAreRaised(tx: Tx, fee: nat, tip: nat)
    ensures Resigned(tx, fee, tip) ==
            Tx(tx.intent,
               if fee <= tx.feeCap then tx.feeCap * 115 / 100 else fee,
               if tip <= tx.tipCap then tx.tipCap * 115 / 100 else tip)
  {
  }

  /** The cap after re-signing once per oracle reading. */
  function CapAfter(original: nat, oracle: seq<nat>): nat
    decreases |oracle|
  {
    if oracle == [] then original else CapAfter(RaisedCap(original, oracle[0]), oracle[1..])
  }

  /** How many of those re-signs took the 115% branch. */
  function BumpsTaken(original: nat, oracle: seq<nat>): nat
    decreases |oracle|
  {
    if oracle == [] then 0 else
      (if oracle[0] <= original then 1 else 0) + BumpsTaken(RaisedCap(original, oracle[0]), oracle[1..])
  }

  /** Every version of a transaction that is re-signed once per pair of oracle readings. */
  function Versions(tx: Tx, oracle: seq<(nat, nat)>): seq<Tx>
    decreases |oracle|
  {
    if oracle == [] then [tx] else [tx] + Versions(Resigned(tx, oracle[0].0, oracle[0].1), oracle[1..])
  }

  /** Along any chain of re-signs of a transaction with caps of at least 7 wei, all versions
      differ, both caps grow strictly, and the intent never changes. */
  lemma {:induction false} VersionsStrictlyIncrease(tx: Tx, oracle: seq<(nat, nat)>, i: nat, j: nat)
    requires tx.feeCap >= 7 && tx.tipCap >= 7
    requires i < j <= |oracle|
    ensures |Versions(tx, oracle)| == |oracle| + 1
    ensures Versions(tx, oracle)[i].feeCap < Versions(tx, oracle)[j].feeCap
    ensures Versions(tx, oracle)[i].tipCap < Versions(tx, oracle)[j].tipCap
    ensures Versions(tx, oracle)[i].intent == Versions(tx, oracle)[j].intent == tx.intent
    decreases |oracle|
  {
    var next := Resigned(tx, oracle[0].0, oracle[0].1);
    RaiseIsStrictIff(tx.feeCap, oracle[0].0);
    RaiseIsStrictIff(tx.tipCap, oracle[0].1);
    if |oracle| == 1 {
      assert Versions(next, oracle[1..]) == [next];
    } else if i > 0 {
      VersionsStrictlyIncrease(next, oracle[1..], i - 1, j - 1);
    } else if j == 1 {
      VersionsStrictlyIncrease(next, oracle[1..], 0, 1);
    } else {
      VersionsStrictlyIncrease(next, oracle[1..], 0, j - 1);
    }
  }

  function Power2(k: nat): nat {
    if k == 0 then 1 else 2 * Power2(k - 1)
  }

  /** `c` bumped by 15% `k` times. */
  function Bumped(c: nat, k: nat): nat
    decreases k
  {
    if k == 0 then c else Bumped(c * 115 / 100, k - 1)
  }

  lemma {:induction false} BumpedMonotone(c: nat, d: nat, k: nat)
    requires c <= d
    ensures Bumped(c, k) <= Bumped(d, k)
    decreases k
  {
    if k > 0 {
      BumpedMonotone(c * 115 / 100, d * 115 / 100, k - 1);
    }
  }

  lemma {:induction false} CapAfterAtLeastBumped(original: nat, oracle: seq<nat>)
    ensures CapAfter(original, oracle) >= Bumped(original, BumpsTaken(original, oracle))
    decreases |oracle|
  {
    if oracle != [] {
      var next := RaisedCap(original, oracle[0]);
      CapAfterAtLeastBumped(next, oracle[1..]);
      if original < oracle[0] {
        BumpedMonotone(original, next, BumpsTaken(next, oracle[1..]));
      }
    }
  }

  lemma SevenBumpsDouble(c: nat)
    requires c >= 7
    ensures Bumped(c, 7) >= 2 * c
  {
    BumpOnce(c, 0); BumpOnce(c, 1); BumpOnce(c, 2); BumpOnce(c, 3); BumpOnce(c, 4); BumpOnce(c, 5); BumpOnce(c, 6);
    SevenStepsDouble([c, Bumped(c, 1), Bumped(c, 2), Bumped(c, 3), Bumped(c, 4), Bumped(c, 5), Bumped(c, 6),
                      Bumped(c, 7)]);
  }

  lemma SevenStepsDouble(c: seq<nat>)
    requires |c| == 8 && c[0] >= 7
    requires forall i :: 0 <= i < 7 ==> 100 * c[i + 1] + 99 >= 115 * c[i]
    ensures c[7] >= 2 * c[0]
  {
    var a0, a1, a2, a3, a4, a5, a6, a7 := c[0], c[1], c[2], c[3], c[4], c[5], c[6], c[7];
    assert 100 * a1 + 99 >= 115 * a0 && 100 * a2 + 99 >= 115 * a1 && 100 * a3 + 99 >= 115 * a2
        && 100 * a4 + 99 >= 115 * a3 && 100 * a5 + 99 >= 115 * a4 && 100 * a6 + 99 >= 115 * a5
        && 100 * a7 + 99 >= 115 * a6;
    // from 17 wei on, 1.15^7 > 2.66 covers the rounding; below, each step gains a whole wei
    if a0 < 17 {
      assert a1 >= a0 + 1 && a2 >= a1 + 1 && a3 >= a2 + 1 && a4 >= a3 + 1 && a5 >= a4 + 1 && a6 >= a5 + 1;
    }
  }

  lemma BumpOnce(c: nat, k: nat)
    ensures Bumped(c, k + 1) == Bumped(c, k) * 115 / 100
    ensures 100 * Bumped(c, k + 1) >= 115 * Bumped(c, k) - 99
  {
    BumpedSplit(c, k, 1);
    assert Bumped(Bumped(c, k), 1) == Bumped(Bumped(c, k) * 115 / 100, 0);
  }

  lemma {:induction false} BumpedSplit(c: nat, j: nat, k: nat)
    ensures Bumped(c, j + k) == Bumped(Bumped(c, j), k)
    decreases j
  {
    if j > 0 {
      BumpedSplit(c * 115 / 100, j - 1, k);
    }
  }

  lemma MulMonotone(p: nat, x: nat, y: nat)
    requires x <= y
    ensures p * x <= p * y
  {
  }

  lemma {:induction false} BumpsGrowGeometrically(c: nat, k: nat)
    requires c >= 7
    ensures Bumped(c, 7 * k) >= Power2(k) * c
    decreases k
  {
    if k > 0 {
      hide Bumped;
      BumpedSplit(c, 7, 7 * (k - 1));
      SevenBumpsDouble(c);
      BumpsGrowGeometrically(Bumped(c, 7), k - 1);
      PowerStep(k, c, Bumped(c, 7));
      assert Bumped(c, 7 * k) == Bumped(Bumped(c, 7), 7 * (k - 1)) by { assert 7 * k == 7 + 7 * (k - 1); }
    } else {
      assert Power2(0) * c == c;
    }
  }

  lemma PowerStep(k: nat, c: nat, d: nat)
    requires k > 0 && d >= 2 * c
    ensures Power2(k - 1) * d >= Power2(k) * c
  {
    var p := Power2(k - 1);
    MulMonotone(p, 2 * c, d);
    assert p * (2 * c) == 2 * p * c;
  }

  /** Any target fee is reached in logarithmically many re-signs that take the 115% branch:
      7k of them, in any order among other re-signs, multiply a cap of at least 7 wei by 2^k. */
  lemma BumpsReachAnyTarget(original: nat, oracle: seq<nat>, k: nat)
    requires original >= 7
    requires BumpsTaken(original, oracle) >= 7 * k
    ensures CapAfter(original, oracle) >= Power2(k) * original
  {
    var b := BumpsTaken(original, oracle);
    CapAfterAtLeastBumped(original, oracle);
    BumpedSplit(original, 7 * k, b - 7 * k);
    BumpsGrowGeometrically(original, k);
    BumpedAtLeast(Bumped(original, 7 * k), b - 7 * k);
  }

  lemma {:induction false} BumpedAtLeast(c: nat, k: nat)
    ensures Bumped(c, k) >= c
    decreases k
  {
    if k > 0 {
      BumpedAtLeast(c * 115 / 100, k - 1);
    }
  }

  predicate WithinCap(tx: Tx) {
    tx.tipCap <= tx.feeCap
  }

  /** The one branch combination that can put the tip above the cap: fee cap from the oracle, tip bumped past it. */
  predicate Breaks(tx: Tx, oracleFee: nat, oracleTip: nat) {
    oracleFee > tx.feeCap && oracleTip <= tx.tipCap && tx.tipCap * 115 / 100 > oracleFee
  }

  /** EIP-1559 wants tip <= fee cap.  When the original and the oracle obey it, a re-sign breaks it exactly there. */
  lemma TipWithinCapIff(tx: Tx, oracleFee: nat, oracleTip: nat)
    requires WithinCap(tx) && oracleTip <= oracleFee
    ensures WithinCap(Resigned(tx, oracleFee, oracleTip)) <==> !Breaks(tx, oracleFee, oracleTip)
    ensures 115 * tx.tipCap <= 100 * tx.feeCap ==> WithinCap(Resigned(tx, oracleFee, oracleTip))
  {
  }

  /** The failing branch exists: oracle at 101/100 against an original at 100/100. */
  lemma TipCanExceedCap()
    ensures var r := Resigned(Tx(Intent(Key(0), 0, None, 0, Opaque([]), 0), 100, 100), 101, 100);
            r.tipCap == 115 && r.feeCap == 101
  {
  }

  predicate Ordered(oracle: seq<(nat, nat)>) {
    forall i :: 0 <= i < |oracle| ==> oracle[i].1 <= oracle[i].0
  }

  /** No re-sign of the chain takes the failing combination. */
  predicate NeverBreaks(tx: Tx, oracle: seq<(nat, nat)>)
    decreases |oracle|
  {
    oracle == [] || (!Breaks(tx, oracle[0].0, oracle[0].1)
                     && NeverBreaks(Resigned(tx, oracle[0].0, oracle[0].1), oracle[1..]))
  }

  /** Along any chain of re-signs, every version obeys the rule exactly when no re-sign takes that combination. */
  lemma {:induction false} ChainWithinCapIff(tx: Tx, oracle: seq<(nat, nat)>)
    requires WithinCap(tx) && Ordered(oracle)
    ensures (forall v :: v in Versions(tx, oracle) ==> WithinCap(v)) <==> NeverBreaks(tx, oracle)
    decreases |oracle|
  {
    if oracle != [] {
      var next := Resigned(tx, oracle[0].0, oracle[0].1);
      var rest := Versions(next, oracle[1..]);
      TipWithinCapIff(tx, oracle[0].0, oracle[0].1);
      assert forall v :: v in Versions(tx, oracle) <==> v == tx || v in rest;
      FirstVersion(next, oracle[1..]);
      if WithinCap(next) {
        ChainWithinCapIff(next, oracle[1..]);
      } else {
        assert next in rest;
      }
    }
  }

  lemma FirstVersion(tx: Tx, oracle: seq<(nat, nat)>)
    ensures tx in Versions(tx, oracle)
  {
  }

  /** The margin that the 120% rule gives: the first re-sign is safe. */
  predicate Margin(feeCap: nat, tipCap: nat) {
    115 * tipCap <= 100 * feeCap
  }

  /** Rounding alone can cost the margin: both caps bumped, from 23/20 to 26/23. */
  lemma RoundingCostsMargin()
    ensures var r := Resigned(Tx(Intent(Key(0), 0, None, 0, Opaque([]), 0), 23, 20), 0, 0);
            Margin(23, 20) && r.feeCap == 26 && r.tipCap == 23 && !Margin(r.feeCap, r.tipCap)
  {
  }

  /** The margin with 660 wei to spare, which pays for the rounding of every later bump. */
  predicate Roomy(feeCap: nat, tipCap: nat) {
    115 * tipCap + 660 <= 100 * feeCap
  }

  /** The three safe branch combinations keep the roomy margin, and from it no re-sign breaks the rule; the
      fourth keeps it exactly while the bumped tip leaves it. */
  lemma RoomKeptIff(tx: Tx, oracleFee: nat, oracleTip: nat)
    requires Roomy(tx.feeCap, tx.tipCap) && Roomy(oracleFee, oracleTip)
    ensures WithinCap(tx) && !Breaks(tx, oracleFee, oracleTip)
    ensures var r := Resigned(tx, oracleFee, oracleTip);
            Roomy(r.feeCap, r.tipCap) <==>
            !(oracleFee > tx.feeCap && oracleTip <= tx.tipCap && !Roomy(oracleFee, tx.tipCap * 115 / 100))
  {
  }

  /** No re-sign of the chain raises the fee cap to the oracle's while it bumps the tip out of the roomy margin. */
  predicate NeverTight(tx: Tx, oracle: seq<(nat, nat)>)
    decreases |oracle|
  {
    oracle == [] ||
    (&& !(oracle[0].0 > tx.feeCap && oracle[0].1 <= tx.tipCap && !Roomy(oracle[0].0, tx.tipCap * 115 / 100))
     && NeverTight(Resigned(tx, oracle[0].0, oracle[0].1), oracle[1..]))
  }

  /** A chain that starts roomy stays within the rule for as long as it is never tight. */
  lemma {:induction false} RoomyChainsAreSafe(tx: Tx, oracle: seq<(nat, nat)>)
    requires Roomy(tx.feeCap, tx.tipCap) && NeverTight(tx, oracle)
    requires forall i :: 0 <= i < |oracle| ==> Roomy(oracle[i].0, oracle[i].1)
    ensures NeverBreaks(tx, oracle) && forall v :: v in Versions(tx, oracle) ==> WithinCap(v)
    decreases |oracle|
  {
    if oracle != [] {
      RoomKeptIff(tx, oracle[0].0, oracle[0].1);
      RoomyChainsAreSafe(Resigned(tx, oracle[0].0, oracle[0].1), oracle[1..]);
    }
  }

  /** Oracle readings, as fee cap and tip, of the given gas prices and tips. */
  function Readings(prices: seq<(nat, nat)>): seq<(nat, nat)> {
    seq(|prices|, i requires 0 <= i < |prices| => (OracleFeeCap(prices[i].0), prices[i].1))
  }

  /** A transaction priced by the oracle is safe on its first re-sign from a gas price of 20 wei and at least the tip,
      and has the roomy margin from 152 wei; below 20 the 120% rule is too weak. */
  lemma FreshTransactionsAreSafe(gasPrice: nat, tip: nat)
    requires tip <= gasPrice
    ensures tip <= OracleFeeCap(gasPrice)
    ensures gasPrice >= 20 ==> Margin(OracleFeeCap(gasPrice), tip)
    ensures gasPrice >= 152 ==> Roomy(OracleFeeCap(gasPrice), tip)
  {
  }

  /** So a fresh transaction keeps the rule over any chain of re-signs that is never tight. */
  lemma FreshChainsAreSafe(intent: Intent, first: (nat, nat), prices: seq<(nat, nat)>)
    requires first.0 >= 152 && first.1 <= first.0
    requires forall i :: 0 <= i < |prices| ==> prices[i].0 >= 152 && prices[i].1 <= prices[i].0
    requires NeverTight(Tx(intent, OracleFeeCap(first.0), first.1), Readings(prices))
    ensures forall v :: v in Versions(Tx(intent, OracleFeeCap(first.0), first.1), Readings(prices)) ==> WithinCap(v)
  {
    FreshTransactionsAreSafe(first.0, first.1);
    forall i | 0 <= i < |prices| ensures Roomy(Readings(prices)[i].0, Readings(prices)[i].1) {
      FreshTransactionsAreSafe(prices[i].0, prices[i].1);
    }
    hide OracleFeeCap, Roomy;
    RoomyChainsAreSafe(Tx(intent, OracleFeeCap(first.0), first.1), Readings(prices));
  }

  /** A fresh transaction can still break the rule later: gas prices 100, 101, 102 with tips 100, 50, 50 lead
      to fee cap 122 and tip 132 at the second re-sign. */
  lemma FreshCanBreakLater(intent: Intent)
    ensures var tx, oracle := Tx(intent, OracleFeeCap(100), 100), Readings([(101, 50), (102, 50)]);
            Margin(tx.feeCap, tx.tipCap) && Versions(tx, oracle) == [tx, Tx(intent, 121, 115), Tx(intent, 122, 132)]
  {
    var tx, oracle := Tx(intent, OracleFeeCap(100), 100), Readings([(101, 50), (102, 50)]);
    assert oracle == [(121, 50), (122, 50)];
    assert oracle[1..] == [(122, 50)];
    assert Versions(Tx(intent, 122, 132), oracle[1..][1..]) == [Tx(intent, 122, 132)];
  }

  /** The cached gas settings of the RPC gas oracle. */
  class RpcGasOracle {
    var gasFeeCap: nat
    var gasTipCap: nat
    const gasLimit: nat

    constructor (limit: nat, gasPrice: nat, tipCap: nat)
      ensures gasLimit == limit && gasFeeCap == OracleFeeCap(gasPrice) && gasTipCap == tipCap
    {
      gasLimit := limit;
      gasFeeCap := OracleFeeCap(gasPrice);
      gasTipCap := tipCap;
    }

    /** A failed call leaves the cache as it was; a good one replaces both caps. */
    method UpdateGasPrice(reply: Option<(nat, nat)>) returns (ok: bool)
      modifies this
      ensures ok == reply.Some?
      ensures ok ==> 100 * gasFeeCap <= 120 * reply.value.0 < 100 * (gasFeeCap + 1) && gasTipCap == reply.value.1
      ensures !ok ==> gasFeeCap == old(gasFeeCap) && gasTipCap == old(gasTipCap)
    {
      if reply.None? {
        return false;
      }
      var newGasPrice := reply.value.0;
      newGasPrice := newGasPrice * 120;
      newGasPrice := newGasPrice / 100;
      gasFeeCap := newGasPrice;
      gasTipCap := reply.value.1;
      return true;
    }
  }
}
