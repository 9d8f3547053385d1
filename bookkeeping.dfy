/**
 * Token bookkeeping shared by the training and evaluation passes: the target
 * of a batch loses its first time step and is flattened time-major, non-PAD
 * positions and correct predictions are counted, and the counts are
 * accumulated over the batches of an epoch into the reported metrics.
 */
module Bookkeeping {
  import opened Wrappers

  /**
   * One batch as the epoch loop sees it. `trg` is batch-major, as the batch
   * supplier hands it over (one row of `trgLen` token ids per example);
   * `predictions` are the argmax ids of the model output after its first step,
   * flattened like the target; `loss` and `attnMass` are the batch's loss and
   * attention mass on gold positions, computed outside this model.
   */
  datatype Batch = Batch(trgLen: nat, trg: seq<seq<int>>, predictions: seq<int>, loss: real, attnMass: real)

  /** Number of scored positions: every example, every step but the first ((trgLen - 1) · batch, see ScoredLengthIsProduct). */
  function ScoredLength(b: Batch): nat
  {
    if b.trgLen == 0 then 0 else Blocks(b.trgLen - 1, |b.trg|)
  }

  /** a · n, as repeated addition so that proofs about it stay linear (see BlocksIsProduct). */
  function Blocks(a: nat, n: nat): nat
  {
    if a == 0 then 0 else n + Blocks(a - 1, n)
  }

  lemma {:induction false} BlocksIsProduct(a: nat, n: nat)
    ensures Blocks(a, n) == a * n
  {
    if a > 0 {
      BlocksIsProduct(a - 1, n);
      assert a * n == n + (a - 1) * n;
    }
  }

  lemma {:induction false} BlocksBelow(a: nat, b: nat, n: nat, k: nat)
    requires a < b && k < n
    ensures Blocks(a, n) + k < Blocks(b, n)
  {
    if a + 1 < b {
      BlocksBelow(a, b - 1, n, k);
    }
  }

  lemma ScoredLengthIsProduct(b: Batch)
    requires b.trgLen > 0
    ensures ScoredLength(b) == (b.trgLen - 1) * |b.trg|
  {
    BlocksIsProduct(b.trgLen - 1, |b.trg|);
  }

  /** A padded batch: every row as long as the batch, and one prediction per scored position. */
  predicate WellShaped(b: Batch)
  {
    (forall k :: 0 <= k < |b.trg| ==> |b.trg[k]| == b.trgLen) && |b.predictions| == ScoredLength(b)
  }

  /** The tokens of time step t across the batch (row t of the permuted target). */
  function Column(trg: seq<seq<int>>, t: nat): (c: seq<int>)
    requires forall k :: 0 <= k < |trg| ==> t < |trg[k]|
    ensures |c| == |trg|
  {
    seq(|trg|, k requires 0 <= k < |trg| => trg[k][t])
  }

  /** Time steps t .. trgLen-1 of the permuted target, flattened time-major. */
  function TimeMajorFrom(trg: seq<seq<int>>, trgLen: nat, t: nat): (s: seq<int>)
    requires forall k :: 0 <= k < |trg| ==> |trg[k]| == trgLen
    ensures |s| == if t < trgLen then Blocks(trgLen - t, |trg|) else 0
    decreases trgLen - t
  {
    if t >= trgLen then [] else Column(trg, t) + TimeMajorFrom(trg, trgLen, t + 1)
  }

  /** trg[1:].view(-1) of the permuted target. */
  function ScoredTargets(b: Batch): (s: seq<int>)
    requires WellShaped(b)
    ensures |s| == ScoredLength(b) == |b.predictions|
  {
    TimeMajorFrom(b.trg, b.trgLen, 1)
  }

  lemma {:induction false} TimeMajorFromAt(trg: seq<seq<int>>, trgLen: nat, t: nat, x: nat, k: nat)
    requires forall k :: 0 <= k < |trg| ==> |trg[k]| == trgLen
    requires t <= x < trgLen && k < |trg|
    ensures Blocks(x - t, |trg|) + k < |TimeMajorFrom(trg, trgLen, t)|
    ensures TimeMajorFrom(trg, trgLen, t)[Blocks(x - t, |trg|) + k] == trg[k][x]
    decreases trgLen - t
  {
    var n := |trg|;
    var c := Column(trg, t);
    var rest := TimeMajorFrom(trg, trgLen, t + 1);
    var whole := TimeMajorFrom(trg, trgLen, t);
    assert whole == c + rest;
    BlocksBelow(x - t, trgLen - t, n, k);
    if x == t {
      assert whole[k] == c[k] == trg[k][t];
    } else {
      var j := Blocks(x - (t + 1), n) + k;
      TimeMajorFromAt(trg, trgLen, t + 1, x, k);
      assert Blocks(x - t, n) + k == n + j;
      assert whole[n + j] == rest[j];
    }
  }

  /**
   * The flattened target is the time-major walk of the batch after its first step:
   * example k at step x (x >= 1) lands at position (x-1)*batch + k.
   */
  lemma ScoredTargetsAt(b: Batch, x: nat, k: nat)
    requires WellShaped(b)
    requires 1 <= x < b.trgLen && k < |b.trg|
    ensures Blocks(x - 1, |b.trg|) == (x - 1) * |b.trg|
    ensures (x - 1) * |b.trg| + k < |ScoredTargets(b)|
    ensures ScoredTargets(b)[(x - 1) * |b.trg| + k] == b.trg[k][x]
  {
    TimeMajorFromAt(b.trg, b.trgLen, 1, x, k);
    BlocksIsProduct(x - 1, |b.trg|);
  }

  lemma {:induction false} TimeMajorFromAgree(trg: seq<seq<int>>, trg': seq<seq<int>>, trgLen: nat, t: nat)
    requires forall k :: 0 <= k < |trg| ==> |trg[k]| == trgLen
    requires forall k :: 0 <= k < |trg'| ==> |trg'[k]| == trgLen
    requires |trg| == |trg'|
    requires forall k, x :: 0 <= k < |trg| && t <= x < trgLen ==> trg[k][x] == trg'[k][x]
    ensures TimeMajorFrom(trg, trgLen, t) == TimeMajorFrom(trg', trgLen, t)
    decreases trgLen - t
  {
    if t < trgLen {
      TimeMajorFromAgree(trg, trg', trgLen, t + 1);
      assert Column(trg, t) == Column(trg', t) by {
        forall k | 0 <= k < |trg| ensures Column(trg, t)[k] == Column(trg', t)[k] {
          assert trg[k][t] == trg'[k][t];
        }
      }
    }
  }

  /** The first (start-of-sequence) step is never scored: batches that agree after it score the same targets. */
  lemma FirstStepNeverScored(b: Batch, b': Batch)
    requires WellShaped(b) && WellShaped(b')
    requires b.trgLen == b'.trgLen && |b.trg| == |b'.trg|
    requires forall k, x :: 0 <= k < |b.trg| && 1 <= x < b.trgLen ==> b.trg[k][x] == b'.trg[k][x]
    ensures ScoredTargets(b) == ScoredTargets(b')
  {
    TimeMajorFromAgree(b.trg, b'.trg, b.trgLen, 1);
  }

  /** trg != PAD, summed. */
  function NonPadCount(s: seq<int>, pad: int): (n: nat)
    ensures n <= |s|
  {
    if s == [] then 0 else NonPadCount(s[..|s| - 1], pad) + (if s[|s| - 1] != pad then 1 else 0)
  }

  /** ((trg == predictions) * (trg != PAD)), summed: PAD positions never count as correct. */
  function CorrectCount(s: seq<int>, predictions: seq<int>, pad: int): (n: nat)
    requires |predictions| == |s|
    ensures n <= NonPadCount(s, pad)
  {
    if s == [] then 0
    else
      var last := |s| - 1;
      CorrectCount(s[..last], predictions[..last], pad)
        + (if s[last] == predictions[last] && s[last] != pad then 1 else 0)
  }

  /** Every non-PAD target is predicted exactly when the correct count reaches the non-PAD count. */
  lemma {:induction false} AllCorrectIff(s: seq<int>, predictions: seq<int>, pad: int)
    requires |predictions| == |s|
    ensures CorrectCount(s, predictions, pad) == NonPadCount(s, pad)
        <==> forall k :: 0 <= k < |s| && s[k] != pad ==> predictions[k] == s[k]
  {
    if s != [] {
      var last := |s| - 1;
      AllCorrectIff(s[..last], predictions[..last], pad);
      if forall k :: 0 <= k < |s| && s[k] != pad ==> predictions[k] == s[k] {
        forall k | 0 <= k < last && s[..last][k] != pad
          ensures predictions[..last][k] == s[..last][k]
        {
          assert s[k] != pad;
        }
      } else {
        var k :| 0 <= k < |s| && s[k] != pad && predictions[k] != s[k];
        if k < last {
          assert s[..last][k] != pad && predictions[..last][k] != s[..last][k];
        }
      }
    }
  }

  function BatchNonPad(b: Batch, pad: int): nat
    requires WellShaped(b)
  {
    NonPadCount(ScoredTargets(b), pad)
  }

  function BatchCorrect(b: Batch, pad: int): (n: nat)
    requires WellShaped(b)
    ensures n <= BatchNonPad(b, pad)
  {
    CorrectCount(ScoredTargets(b), b.predictions, pad)
  }

  /** The accumulators of one pass: epoch_loss, total_trg, total_correct, total_attn_mass_imp. */
  datatype EpochTotals = EpochTotals(lossSum: real, totalTrg: nat, totalCorrect: nat, attnMassSum: real)

  /** One batch added to the accumulators. */
  function AddBatch(t: EpochTotals, b: Batch, pad: int): EpochTotals
    requires WellShaped(b)
  {
    EpochTotals(t.lossSum + b.loss, t.totalTrg + BatchNonPad(b, pad),
                t.totalCorrect + BatchCorrect(b, pad), t.attnMassSum + b.attnMass)
  }

  /** The accumulators after the given batches, summed in supplier order. */
  function Totals(batches: seq<Batch>, pad: int): (t: EpochTotals)
    requires forall k :: 0 <= k < |batches| ==> WellShaped(batches[k])
    ensures t.totalCorrect <= t.totalTrg
  {
    if batches == [] then EpochTotals(0.0, 0, 0, 0.0)
    else AddBatch(Totals(batches[..|batches| - 1], pad), batches[|batches| - 1], pad)
  }

  lemma TotalsStep(batches: seq<Batch>, pad: int, i: nat)
    requires forall k :: 0 <= k < |batches| ==> WellShaped(batches[k])
    requires i < |batches|
    ensures Totals(batches[..i + 1], pad) == AddBatch(Totals(batches[..i], pad), batches[i], pad)
  {
    assert batches[..i + 1][..i] == batches[..i];
  }

  /**
   * The batch loop of train_model and evaluate (the two share this bookkeeping;
   * they differ only in how the per-batch loss is formed, which is an input here).
   */
  method AccumulateEpoch(batches: seq<Batch>, pad: int) returns (t: EpochTotals)
    requires forall k :: 0 <= k < |batches| ==> WellShaped(batches[k])
    ensures t == Totals(batches, pad)
    ensures t.totalCorrect <= t.totalTrg
  {
    t := EpochTotals(0.0, 0, 0, 0.0);
    var i := 0;
    while i < |batches|
      invariant 0 <= i <= |batches|
      invariant t == Totals(batches[..i], pad)
    {
      TotalsStep(batches, pad, i);
      t := AddBatch(t, batches[i], pad);
      i := i + 1;
    }
    assert batches[..i] == batches;
  }

  /** 100·part/whole lies in [0, 100] when 0 <= part <= whole and whole > 0. */
  lemma PercentInRange(part: real, whole: real)
    requires 0.0 <= part <= whole && whole > 0.0
    ensures 0.0 <= 100.0 * part / whole <= 100.0
  {
    var q := part / whole;
    assert q * whole == part;
    assert q <= 1.0;
    assert 100.0 * part / whole == 100.0 * q;
  }

  datatype EpochMetrics = EpochMetrics(meanLoss: real, accuracy: real, attnMassPercent: real)

  datatype MetricsError = DivisionByZero

  /**
   * The return expression: mean loss per batch, accuracy over non-PAD tokens and
   * attention-mass percentage. Python raises on the first division by zero: no
   * batches, or no non-PAD target token.
   */
  function FinishEpoch(t: EpochTotals, numBatches: nat): (r: Result<EpochMetrics, MetricsError>)
    ensures r.Success? <==> numBatches > 0 && t.totalTrg > 0
    ensures r.Failure? ==> r.error == DivisionByZero
    ensures r.Success? && t.totalCorrect <= t.totalTrg ==> 0.0 <= r.value.accuracy <= 100.0
    ensures r.Success? && 0.0 <= t.attnMassSum <= t.totalTrg as real ==> 0.0 <= r.value.attnMassPercent <= 100.0
  {
    if numBatches == 0 || t.totalTrg == 0 then Failure(DivisionByZero)
    else
      var n := t.totalTrg as real;
      var acc := 100.0 * t.totalCorrect as real / n;
      var mass := 100.0 * t.attnMassSum / n;
      assert t.totalCorrect <= t.totalTrg ==> 0.0 <= acc <= 100.0 by {
        if t.totalCorrect <= t.totalTrg {
          PercentInRange(t.totalCorrect as real, n);
        }
      }
      assert 0.0 <= t.attnMassSum <= n ==> 0.0 <= mass <= 100.0 by {
        if 0.0 <= t.attnMassSum <= n {
          PercentInRange(t.attnMassSum, n);
        }
      }
      Success(EpochMetrics(t.lossSum / numBatches as real, acc, mass))
  }

  /**
   * The three metrics are the ratios train_model and evaluate return: loss per batch, and correct
   * tokens and gold attention mass per non-PAD target token, as percentages.
   */
  lemma FinishEpochRatios(t: EpochTotals, numBatches: nat)
    requires numBatches > 0 && t.totalTrg > 0
    ensures var m := FinishEpoch(t, numBatches).value;
      && m.meanLoss * numBatches as real == t.lossSum
      && m.accuracy * t.totalTrg as real == 100.0 * t.totalCorrect as real
      && m.attnMassPercent * t.totalTrg as real == 100.0 * t.attnMassSum
  {
  }

  /** One whole pass over a batch stream, from batches to the three reported metrics. */
  method RunEpoch(batches: seq<Batch>, pad: int) returns (r: Result<EpochMetrics, MetricsError>)
    requires forall k :: 0 <= k < |batches| ==> WellShaped(batches[k])
    ensures r == FinishEpoch(Totals(batches, pad), |batches|)
    ensures r.Success? ==> 0.0 <= r.value.accuracy <= 100.0
    ensures r.Success? <==> Totals(batches, pad).totalTrg > 0
  {
    var t := AccumulateEpoch(batches, pad);
    r := FinishEpoch(t, |batches|);
  }

  /** When each batch's gold mass lies between 0 and its non-PAD count, so do the epoch's totals. */
  lemma {:induction false} AttnMassBounded(batches: seq<Batch>, pad: int)
    requires forall k :: 0 <= k < |batches| ==> WellShaped(batches[k])
    requires forall k :: 0 <= k < |batches| ==> 0.0 <= batches[k].attnMass <= BatchNonPad(batches[k], pad) as real
    ensures 0.0 <= Totals(batches, pad).attnMassSum <= Totals(batches, pad).totalTrg as real
  {
    if batches != [] {
      var front := batches[..|batches| - 1];
      AttnMassBounded(front, pad);
    }
  }

  /** Under that hypothesis the reported attention-mass percentage lies in [0, 100]. */
  lemma AttnMassPercentInRange(batches: seq<Batch>, pad: int)
    requires forall k :: 0 <= k < |batches| ==> WellShaped(batches[k])
    requires forall k :: 0 <= k < |batches| ==> 0.0 <= batches[k].attnMass <= BatchNonPad(batches[k], pad) as real
    requires FinishEpoch(Totals(batches, pad), |batches|).Success?
    ensures 0.0 <= FinishEpoch(Totals(batches, pad), |batches|).value.attnMassPercent <= 100.0
  {
    AttnMassBounded(batches, pad);
  }
}
