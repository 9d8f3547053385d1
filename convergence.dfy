/**
 * The epoch loop of `train`: after each epoch the validation loss is compared
 * with the best so far (+∞ at the start), an improving epoch is checkpointed
 * and its duration added to the convergence time, and two non-improving
 * epochs in a row stop the loop. The run then reloads the checkpoint of the
 * last improving epoch and names its vocabulary and translation outputs.
 */
module Convergence {
  import opened Wrappers
  import Paths
  import Decoders
  import Bookkeeping

  /** The fields of the run configuration that the file names are built from; coeff as str(coeff) renders it. */
  datatype RunConfig = RunConfig(task: string, coeff: string, seed: int, attention: string)

  function CheckpointPath(cfg: RunConfig, epoch: nat): string
  {
    Paths.ModelPath(cfg.task, cfg.attention, cfg.seed, cfg.coeff, epoch)
  }

  /** for epoch in range(epochs): a negative budget runs nothing. */
  function Budget(epochs: int): nat { if epochs < 0 then 0 else epochs }

  // ---------------------------------------------------------------------
  // Specification of the loop, as functions of the validation losses
  // ---------------------------------------------------------------------

  /** best_valid_loss before epoch k (0-based): None stands for the initial +∞. */
  function BestBefore(losses: seq<real>, k: nat): (b: Option<real>)
    requires k <= |losses|
    ensures b.None? <==> k == 0
  {
    if k == 0 then None
    else
      var b := BestBefore(losses, k - 1);
      if BeatsBest(b, losses[k - 1]) then Some(losses[k - 1]) else b
  }

  /** The loop's test `val_loss < best_valid_loss`, with None standing for +∞. */
  predicate BeatsBest(best: Option<real>, valLoss: real)
  {
    best.None? || valLoss < best.value
  }

  /** Epoch k improves when its validation loss is strictly below the running best. */
  predicate Improves(losses: seq<real>, k: nat)
    requires k < |losses|
  {
    BeatsBest(BestBefore(losses, k), losses[k])
  }

  /** The meaning of an improvement without the running best: strictly below every earlier loss. */
  predicate BelowAllEarlier(losses: seq<real>, k: nat)
    requires k < |losses|
  {
    forall j :: 0 <= j < k ==> losses[k] < losses[j]
  }

  /** Epoch k breaks the loop: it does not improve, and neither did the epoch before it. */
  predicate StopsAt(losses: seq<real>, k: nat)
    requires k < |losses|
  {
    1 <= k && !Improves(losses, k) && !Improves(losses, k - 1)
  }

  function StopSearch(losses: seq<real>, budget: nat, k: nat): (n: nat)
    requires k <= budget <= |losses|
    ensures k <= n <= budget
    decreases budget - k
  {
    if k == budget then budget
    else if StopsAt(losses, k) then k + 1
    else StopSearch(losses, budget, k + 1)
  }

  /** How many epochs the loop runs, the breaking epoch included. */
  function EpochsRun(losses: seq<real>, epochs: int): (n: nat)
    requires Budget(epochs) <= |losses|
    ensures n <= Budget(epochs)
  {
    StopSearch(losses, Budget(epochs), 0)
  }

  lemma {:induction false} StopSearchBounds(losses: seq<real>, budget: nat, k: nat)
    requires k <= budget <= |losses|
    ensures k <= StopSearch(losses, budget, k) <= budget
    ensures forall j :: k <= j < StopSearch(losses, budget, k) - 1 ==> !StopsAt(losses, j)
    ensures StopSearch(losses, budget, k) < budget ==>
      StopSearch(losses, budget, k) >= 2 && StopsAt(losses, StopSearch(losses, budget, k) - 1)
    decreases budget - k
  {
    if k < budget && !StopsAt(losses, k) {
      StopSearchBounds(losses, budget, k + 1);
    }
  }

  /**
   * The loop runs at most `epochs` epochs, and breaks exactly at the first epoch
   * that fails to improve right after another non-improving epoch.
   */
  lemma EpochsRunCharacterised(losses: seq<real>, epochs: int)
    requires Budget(epochs) <= |losses|
    ensures EpochsRun(losses, epochs) <= Budget(epochs)
    ensures forall k :: 0 <= k < EpochsRun(losses, epochs) - 1 ==> !StopsAt(losses, k)
    ensures EpochsRun(losses, epochs) < Budget(epochs) ==>
      EpochsRun(losses, epochs) >= 2 && StopsAt(losses, EpochsRun(losses, epochs) - 1)
  {
    StopSearchBounds(losses, Budget(epochs), 0);
  }

  /** k is where the minimum of s first occurs: nothing in s is lower, nothing before k is as low. */
  predicate IsFirstMinIndex(s: seq<real>, k: nat)
  {
    k < |s| && (forall j :: 0 <= j < |s| ==> s[k] <= s[j]) && (forall j :: 0 <= j < k ==> s[k] < s[j])
  }

  /** epochs_taken_to_converge: the 1-based index of the last improving epoch among the first n, 0 if none. */
  function LastImproving(losses: seq<real>, n: nat): (e: nat)
    requires n <= |losses|
    ensures e <= n
    ensures n > 0 ==> e > 0
    ensures e > 0 ==> Improves(losses, e - 1)
  {
    if n == 0 then 0
    else if Improves(losses, n - 1) then n
    else LastImproving(losses, n - 1)
  }

  /** No epoch after the last improving one improves. */
  lemma {:induction false} LastImprovingIsLast(losses: seq<real>, n: nat)
    requires n <= |losses|
    ensures forall k :: LastImproving(losses, n) <= k < n ==> !Improves(losses, k)
  {
    if n > 0 && !Improves(losses, n - 1) {
      LastImprovingIsLast(losses, n - 1);
    }
  }

  /** After n > 0 epochs the running best is the loss of the last improving epoch. */
  lemma {:induction false} BestIsLastImproving(losses: seq<real>, n: nat)
    requires 0 < n <= |losses|
    ensures BestBefore(losses, n) == Some(losses[LastImproving(losses, n) - 1])
  {
    if !Improves(losses, n - 1) {
      assert n - 1 > 0;
      BestIsLastImproving(losses, n - 1);
    }
  }

  /** The running best after k > 0 epochs is at most every loss seen so far. */
  lemma {:induction false} BestBeforeIsLowest(losses: seq<real>, k: nat)
    requires 0 < k <= |losses|
    ensures forall j :: 0 <= j < k ==> BestBefore(losses, k).value <= losses[j]
  {
    if k > 1 {
      BestBeforeIsLowest(losses, k - 1);
    }
  }

  /** Comparing against the running best is comparing against every earlier epoch. */
  lemma ImprovesIffBelowAllEarlier(losses: seq<real>, k: nat)
    requires k < |losses|
    ensures Improves(losses, k) <==> BelowAllEarlier(losses, k)
  {
    if k > 0 {
      BestBeforeIsLowest(losses, k);
      BestIsLastImproving(losses, k);
      var e := LastImproving(losses, k);
      if !Improves(losses, k) {
        assert !(losses[k] < losses[e - 1]);
      }
    }
  }

  /**
   * Because the comparison is strict, the last improving epoch is where the minimum of
   * the consumed losses first occurs.
   */
  lemma LastImprovingIsFirstMin(losses: seq<real>, n: nat)
    requires 0 < n <= |losses|
    ensures LastImproving(losses, n) >= 1
    ensures forall j :: 0 <= j < n ==> losses[LastImproving(losses, n) - 1] <= losses[j]
    ensures forall j :: 0 <= j < LastImproving(losses, n) - 1 ==> losses[LastImproving(losses, n) - 1] < losses[j]
  {
    var e := LastImproving(losses, n);
    BestIsLastImproving(losses, n);
    BestBeforeIsLowest(losses, n);
    ImprovesIffBelowAllEarlier(losses, e - 1);
  }

  /** The same, stated on the prefix of losses the loop consumed. */
  lemma BestIsFirstMinimum(losses: seq<real>, n: nat)
    requires 0 < n <= |losses|
    ensures LastImproving(losses, n) >= 1
    ensures IsFirstMinIndex(losses[..n], LastImproving(losses, n) - 1)
  {
    LastImprovingIsFirstMin(losses, n);
    var s := losses[..n];
    assert forall j :: 0 <= j < |s| ==> s[j] == losses[j];
  }

  /** convergence_time: the durations of exactly the improving epochs among the first n, summed. */
  function ImprovingTime(losses: seq<real>, durations: seq<real>, n: nat): real
    requires n <= |losses| == |durations|
  {
    if n == 0 then 0.0
    else ImprovingTime(losses, durations, n - 1) + (if Improves(losses, n - 1) then durations[n - 1] else 0.0)
  }

  function Sum(s: seq<real>): real
  {
    if s == [] then 0.0 else Sum(s[..|s| - 1]) + s[|s| - 1]
  }

  /** With non-negative durations the convergence time lies between 0 and the time of all epochs run. */
  lemma {:induction false} ImprovingTimeBounds(losses: seq<real>, durations: seq<real>, n: nat)
    requires n <= |losses| == |durations|
    requires forall k :: 0 <= k < |durations| ==> durations[k] >= 0.0
    ensures 0.0 <= ImprovingTime(losses, durations, n) <= Sum(durations[..n])
  {
    if n > 0 {
      ImprovingTimeBounds(losses, durations, n - 1);
      assert durations[..n][..n - 1] == durations[..n - 1];
    }
  }

  /** The checkpoint store after n epochs: improving epoch e (1-based) has saved under its own path. */
  function StoreAfter(store0: map<string, nat>, cfg: RunConfig, losses: seq<real>, n: nat): map<string, nat>
    requires n <= |losses|
  {
    if n == 0 then store0
    else
      var s := StoreAfter(store0, cfg, losses, n - 1);
      if Improves(losses, n - 1) then s[CheckpointPath(cfg, n) := n] else s
  }

  /** Every improving epoch's checkpoint is in the store, under that epoch's path, and later saves do not overwrite it. */
  lemma {:induction false} ImprovingEpochCheckpointed(store0: map<string, nat>, cfg: RunConfig, losses: seq<real>, n: nat, e: nat)
    requires 1 <= e <= n <= |losses|
    requires Improves(losses, e - 1)
    ensures CheckpointPath(cfg, e) in StoreAfter(store0, cfg, losses, n)
    ensures StoreAfter(store0, cfg, losses, n)[CheckpointPath(cfg, e)] == e
  {
    var p := CheckpointPath(cfg, e);
    if n > e {
      var prev := StoreAfter(store0, cfg, losses, n - 1);
      ImprovingEpochCheckpointed(store0, cfg, losses, n - 1, e);
      if Improves(losses, n - 1) {
        var q := CheckpointPath(cfg, n);
        CheckpointPathsDiffer(cfg, n, e);
        assert StoreAfter(store0, cfg, losses, n) == prev[q := n];
      } else {
        assert StoreAfter(store0, cfg, losses, n) == prev;
      }
    } else {
      var prev := StoreAfter(store0, cfg, losses, n - 1);
      assert StoreAfter(store0, cfg, losses, n) == prev[p := n];
    }
  }

  lemma CheckpointPathsDiffer(cfg: RunConfig, a: nat, b: nat)
    requires a != b
    ensures CheckpointPath(cfg, a) != CheckpointPath(cfg, b)
  {
    if CheckpointPath(cfg, a) == CheckpointPath(cfg, b) {
      Paths.ModelPathInjective(cfg.task, cfg.attention, cfg.seed, cfg.coeff, a, b);
    }
  }

  /** Nothing else changes: a path no improving epoch saved to keeps what it held before the run. */
  lemma {:induction false} StoreAfterFrame(store0: map<string, nat>, cfg: RunConfig, losses: seq<real>, n: nat, p: string)
    requires n <= |losses|
    requires forall e :: 1 <= e <= n && Improves(losses, e - 1) ==> p != CheckpointPath(cfg, e)
    ensures (p in StoreAfter(store0, cfg, losses, n)) == (p in store0)
    ensures p in store0 ==> StoreAfter(store0, cfg, losses, n)[p] == store0[p]
  {
    if n > 0 {
      StoreAfterFrame(store0, cfg, losses, n - 1, p);
    }
  }

  // ---------------------------------------------------------------------
  // The loop itself
  // ---------------------------------------------------------------------

  /** best_valid_loss (None for +∞), no_improvement_last_time, epochs_taken_to_converge, convergence_time, and the checkpoint files. */
  datatype RunState = RunState(
    bestValidLoss: Option<real>,
    noImprovementLastTime: bool,
    epochsTakenToConverge: nat,
    convergenceTime: real,
    checkpoints: map<string, nat>)

  /** The run state after n epochs. */
  function StateAfter(cfg: RunConfig, store0: map<string, nat>, losses: seq<real>, durations: seq<real>, n: nat): RunState
    requires n <= |losses| == |durations|
  {
    RunState(
      BestBefore(losses, n),
      n > 0 && !Improves(losses, n - 1),
      LastImproving(losses, n),
      ImprovingTime(losses, durations, n),
      StoreAfter(store0, cfg, losses, n))
  }

  /** One epoch of the loop body: compare with the running best; save and time an improving epoch, flag a stale one. */
  function EpochUpdate(cfg: RunConfig, s: RunState, epoch: nat, valLoss: real, duration: real): RunState
  {
    if BeatsBest(s.bestValidLoss, valLoss)
    then RunState(Some(valLoss), false, epoch + 1, s.convergenceTime + duration,
                  s.checkpoints[CheckpointPath(cfg, epoch + 1) := epoch + 1])
    else s.(noImprovementLastTime := true)
  }

  /** The state the loop body builds, epoch after epoch, from +∞ and the initial store. */
  function LoopState(cfg: RunConfig, store0: map<string, nat>, losses: seq<real>, durations: seq<real>, n: nat): RunState
    requires n <= |losses| == |durations|
  {
    if n == 0 then RunState(None, false, 0, 0.0, store0)
    else EpochUpdate(cfg, LoopState(cfg, store0, losses, durations, n - 1), n - 1, losses[n - 1], durations[n - 1])
  }

  /** The loop's running best and stale flag are BestBefore and the stopping rule's premise. */
  lemma {:induction false} LoopStateBest(cfg: RunConfig, store0: map<string, nat>, losses: seq<real>, durations: seq<real>, n: nat)
    requires n <= |losses| == |durations|
    ensures LoopState(cfg, store0, losses, durations, n).bestValidLoss == BestBefore(losses, n)
    ensures LoopState(cfg, store0, losses, durations, n).noImprovementLastTime == (n > 0 && !Improves(losses, n - 1))
  {
    if n > 0 {
      LoopStateBest(cfg, store0, losses, durations, n - 1);
    }
  }

  /** The loop's epochs_taken_to_converge is LastImproving. */
  lemma {:induction false} LoopStateTaken(cfg: RunConfig, store0: map<string, nat>, losses: seq<real>, durations: seq<real>, n: nat)
    requires n <= |losses| == |durations|
    ensures LoopState(cfg, store0, losses, durations, n).epochsTakenToConverge == LastImproving(losses, n)
  {
    if n > 0 {
      var prev := LoopState(cfg, store0, losses, durations, n - 1);
      LoopStateBest(cfg, store0, losses, durations, n - 1);
      LoopStateTaken(cfg, store0, losses, durations, n - 1);
      if Improves(losses, n - 1) {
        assert LoopState(cfg, store0, losses, durations, n).epochsTakenToConverge == n;
      } else {
        assert LoopState(cfg, store0, losses, durations, n).epochsTakenToConverge == prev.epochsTakenToConverge;
      }
    }
  }

  /** The loop's convergence_time is ImprovingTime. */
  lemma {:induction false} LoopStateTime(cfg: RunConfig, store0: map<string, nat>, losses: seq<real>, durations: seq<real>, n: nat)
    requires n <= |losses| == |durations|
    ensures LoopState(cfg, store0, losses, durations, n).convergenceTime == ImprovingTime(losses, durations, n)
  {
    if n > 0 {
      var prev := LoopState(cfg, store0, losses, durations, n - 1);
      LoopStateBest(cfg, store0, losses, durations, n - 1);
      LoopStateTime(cfg, store0, losses, durations, n - 1);
      if Improves(losses, n - 1) {
        assert LoopState(cfg, store0, losses, durations, n).convergenceTime == prev.convergenceTime + durations[n - 1];
      } else {
        assert LoopState(cfg, store0, losses, durations, n).convergenceTime == prev.convergenceTime;
      }
    }
  }

  /** The loop's checkpoint files are StoreAfter. */
  lemma {:induction false} LoopStateStore(cfg: RunConfig, store0: map<string, nat>, losses: seq<real>, durations: seq<real>, n: nat)
    requires n <= |losses| == |durations|
    ensures LoopState(cfg, store0, losses, durations, n).checkpoints == StoreAfter(store0, cfg, losses, n)
  {
    if n > 0 {
      var prev := LoopState(cfg, store0, losses, durations, n - 1);
      LoopStateBest(cfg, store0, losses, durations, n - 1);
      LoopStateStore(cfg, store0, losses, durations, n - 1);
      if Improves(losses, n - 1) {
        assert LoopState(cfg, store0, losses, durations, n).checkpoints == prev.checkpoints[CheckpointPath(cfg, n) := n];
      } else {
        assert LoopState(cfg, store0, losses, durations, n).checkpoints == prev.checkpoints;
      }
    }
  }

  /** The state the loop builds is the one StateAfter describes. */
  lemma LoopStateCharacterised(cfg: RunConfig, store0: map<string, nat>, losses: seq<real>, durations: seq<real>, n: nat)
    requires n <= |losses| == |durations|
    ensures LoopState(cfg, store0, losses, durations, n) == StateAfter(cfg, store0, losses, durations, n)
  {
    LoopStateBest(cfg, store0, losses, durations, n);
    LoopStateTaken(cfg, store0, losses, durations, n);
    LoopStateTime(cfg, store0, losses, durations, n);
    LoopStateStore(cfg, store0, losses, durations, n);
  }

  /**
   * The epoch loop, fed with the validation loss and the wall-clock duration each
   * epoch would produce, and with the checkpoint files present before the run.
   */
  method EpochLoop(cfg: RunConfig, epochs: int, valLosses: seq<real>, durations: seq<real>, store0: map<string, nat>)
    returns (s: RunState, epochsRun: nat)
    requires |durations| == |valLosses| && Budget(epochs) <= |valLosses|
    ensures epochsRun == EpochsRun(valLosses, epochs)
    ensures s == StateAfter(cfg, store0, valLosses, durations, epochsRun)
  {
    var budget := Budget(epochs);
    s := RunState(None, false, 0, 0.0, store0);
    var epoch: nat := 0;
    while epoch < budget
      invariant 0 <= epoch <= budget
      invariant StopSearch(valLosses, budget, epoch) == EpochsRun(valLosses, epochs)
      invariant s == LoopState(cfg, store0, valLosses, durations, epoch)
    {
      var valLoss := valLosses[epoch];
      LoopStateBest(cfg, store0, valLosses, durations, epoch);
      if !BeatsBest(s.bestValidLoss, valLoss) && s.noImprovementLastTime {
        // the break of the else branch
        assert StopsAt(valLosses, epoch);
        epochsRun := epoch + 1;
        LoopStateCharacterised(cfg, store0, valLosses, durations, epochsRun);
        return;
      }
      s := EpochUpdate(cfg, s, epoch, valLoss, durations[epoch]);
      assert !StopsAt(valLosses, epoch);
      epoch := epoch + 1;
    }
    epochsRun := budget;
    LoopStateCharacterised(cfg, store0, valLosses, durations, epochsRun);
  }

  // ---------------------------------------------------------------------
  // Reload and output names
  // ---------------------------------------------------------------------

  datatype TrainReport = TrainReport(
    state: RunState,
    epochsRun: nat,
    decoder: Decoders.DecoderKind,
    restoredEpoch: nat,
    test: Bookkeeping.EpochMetrics,
    srcVocabOutPath: string,
    trgVocabOutPath: string,
    translationsOutPath: Option<string>)

  /** torch.load of a checkpoint file that does not exist, or the division by zero of the test pass. */
  datatype TrainError = MissingCheckpoint(path: string) | TestPassFailed(error: Bookkeeping.MetricsError)

  /** Tasks whose translations are generated and dumped after training. */
  predicate IsTranslationTask(task: string) { task == "en-hi" || task == "en-de" }

  /**
   * train, apart from the numerics: choose the decoder, run the epoch loop,
   * reload the checkpoint of epoch epochs_taken_to_converge (fatal when that
   * file is missing), evaluate on the test batches (fatal when they hold no
   * non-PAD target token), and name the vocabulary and translation outputs.
   */
  method Train(cfg: RunConfig, epochs: int, decodeNoAttInference: bool,
               valLosses: seq<real>, durations: seq<real>, store0: map<string, nat>,
               testBatches: seq<Bookkeeping.Batch>, pad: int)
    returns (r: Result<TrainReport, TrainError>)
    requires |durations| == |valLosses| && Budget(epochs) <= |valLosses|
    requires forall k :: 0 <= k < |testBatches| ==> Bookkeeping.WellShaped(testBatches[k])
    ensures var n := EpochsRun(valLosses, epochs);
      var s := StateAfter(cfg, store0, valLosses, durations, n);
      var path := CheckpointPath(cfg, s.epochsTakenToConverge);
      var test := Bookkeeping.FinishEpoch(Bookkeeping.Totals(testBatches, pad), |testBatches|);
      var choice := Decoders.SelectDecoder(cfg.attention, decodeNoAttInference);
      var stem := Paths.VocabPath(cfg.coeff, s.epochsTakenToConverge, cfg.seed, choice.suffix, cfg.task);
      && (r.Success? <==> path in s.checkpoints && test.Success?)
      && (path !in s.checkpoints ==> r == Failure(MissingCheckpoint(path)))
      && (path in s.checkpoints && test.Failure? ==> r == Failure(TestPassFailed(test.error)))
      && (r.Success? ==>
            && r.value.state == s
            && r.value.epochsRun == n
            && r.value.decoder == choice.decoder
            && r.value.restoredEpoch == s.checkpoints[path]
            && r.value.test == test.value
            && r.value.srcVocabOutPath == stem + ".src.vocab"
            && r.value.trgVocabOutPath == stem + ".trg.vocab"
            && r.value.translationsOutPath ==
                 if IsTranslationTask(cfg.task)
                 then Some(Paths.TranslationsPath(cfg.coeff, s.epochsTakenToConverge, cfg.seed, choice.suffix, cfg.task))
                 else None)
    ensures EpochsRun(valLosses, epochs) > 0 && Bookkeeping.Totals(testBatches, pad).totalTrg > 0 ==>
      r.Success? && r.value.restoredEpoch == r.value.state.epochsTakenToConverge
      && 0.0 <= r.value.test.accuracy <= 100.0
  {
    var choice := Decoders.SelectDecoder(cfg.attention, decodeNoAttInference);
    var s, n := EpochLoop(cfg, epochs, valLosses, durations, store0);
    var taken := s.epochsTakenToConverge;
    var path := CheckpointPath(cfg, taken);
    if n > 0 {
      ImprovingEpochCheckpointed(store0, cfg, valLosses, n, taken);
    }
    if path !in s.checkpoints {
      return Failure(MissingCheckpoint(path));
    }
    var test := Bookkeeping.RunEpoch(testBatches, pad);
    if test.Failure? {
      return Failure(TestPassFailed(test.error));
    }
    var stem := Paths.VocabPath(cfg.coeff, taken, cfg.seed, choice.suffix, cfg.task);
    var translations := if IsTranslationTask(cfg.task)
      then Some(Paths.TranslationsPath(cfg.coeff, taken, cfg.seed, choice.suffix, cfg.task))
      else None;
    r := Success(TrainReport(s, n, choice.decoder, s.checkpoints[path], test.value,
                             stem + ".src.vocab", stem + ".trg.vocab", translations));
  }

  /**
   * After the loop the best loss is the minimum of the losses consumed, the reloaded
   * epoch is where it first occurs, and that epoch's checkpoint is what the store holds
   * under its path. No epoch run leaves epochs_taken_to_converge at 0.
   */
  lemma ReloadedIsBest(cfg: RunConfig, store0: map<string, nat>, losses: seq<real>, durations: seq<real>, epochs: int)
    requires |durations| == |losses| && Budget(epochs) <= |losses|
    ensures var n := EpochsRun(losses, epochs);
      var s := StateAfter(cfg, store0, losses, durations, n);
      && (s.epochsTakenToConverge == 0 <==> n == 0)
      && (n > 0 ==>
            && s.bestValidLoss == Some(losses[s.epochsTakenToConverge - 1])
            && IsFirstMinIndex(losses[..n], s.epochsTakenToConverge - 1)
            && CheckpointPath(cfg, s.epochsTakenToConverge) in s.checkpoints
            && s.checkpoints[CheckpointPath(cfg, s.epochsTakenToConverge)] == s.epochsTakenToConverge)
  {
    var n := EpochsRun(losses, epochs);
    var s := StateAfter(cfg, store0, losses, durations, n);
    var e := LastImproving(losses, n);
    assert s.epochsTakenToConverge == e;
    assert s.checkpoints == StoreAfter(store0, cfg, losses, n);
    if n > 0 {
      BestIsLastImproving(losses, n);
      BestIsFirstMinimum(losses, n);
      ImprovingEpochCheckpointed(store0, cfg, losses, n, e);
    }
  }

  /**
   * Losses 2.0, 1.5, 1.6, 1.7, 0.1 with a budget of five epochs: epoch 2 is the best,
   * epochs 3 and 4 do not improve, so the loop stops after four epochs and never sees 0.1.
   */
  lemma ScenarioTwoStaleEpochs()
    ensures EpochsRun([2.0, 1.5, 1.6, 1.7, 0.1], 5) == 4
    ensures LastImproving([2.0, 1.5, 1.6, 1.7, 0.1], 4) == 2
  {
    var l := [2.0, 1.5, 1.6, 1.7, 0.1];
    assert BestBefore(l, 1) == Some(2.0);
    assert BestBefore(l, 2) == Some(1.5);
    assert BestBefore(l, 3) == Some(1.5);
    assert BestBefore(l, 4) == Some(1.5);
    assert Improves(l, 1) && !Improves(l, 2) && !Improves(l, 3);
    assert !StopsAt(l, 0) && !StopsAt(l, 1) && !StopsAt(l, 2) && StopsAt(l, 3);
    assert StopSearch(l, 5, 3) == 4;
  }
}
