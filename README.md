# Training-loop logic of the author-based sequence-to-sequence trainer

This project models the non-numerical logic of `train.py` in the author-based
sequence-to-sequence experiments of *deceptive-attention*. That script trains an
encoder–decoder with attention on synthetic tasks and on translation. It is
mostly PyTorch plumbing, but it contains four pieces of exact sequential logic,
and this model covers them:

- **Early stopping and checkpoint selection** (`convergence.dfy`, module `Convergence`).
  - Each epoch's validation loss is compared strictly with the best so far, which starts at +∞ and is modelled as `None`.
  - An improving epoch does four things:
    - it becomes the new best;
    - it sets `epochs_taken_to_converge` to its 1-based number;
    - it saves a checkpoint under its own path;
    - it adds its duration to `convergence_time`.
  - A non-improving epoch sets `no_improvement_last_time`. A second one in a row breaks the loop.
  - After the loop:
    - the checkpoint of epoch `epochs_taken_to_converge` is reloaded;
    - that reload fails when the file is missing;
    - the test batches are evaluated, which fails with a division by zero when they hold no non-PAD token;
    - the vocabulary and translation outputs are named after that epoch.
  - The loop is an imperative method, `EpochLoop`. It is proved against declarative functions of the loss sequence (`BestBefore`, `Improves`, `LastImproving`, `ImprovingTime`, `StoreAfter`, `EpochsRun`). Those functions' own properties are proved as lemmas.
  - The checkpoint store is a map from path to epoch.
- **Gold-alignment mask** (`mask.dfy`, module `Mask`). `generate_mask` builds the mask for the tasks `copy`, `rev`, `binary-flip` and `en-hi`:
  - it zero-fills a `trg_len × batch × src_len` array;
  - it marks the task's pattern in place;
  - it clears the first target step and the first and last source positions.
  - The model uses `array3<real>` and loop methods. Every cell is proved equal to the specification function `MaskAt`, and the errors `generate_mask` raises become a `Result`.
- **Token bookkeeping of an epoch** (`bookkeeping.dfy`, module `Bookkeeping`). This part is shared by `train_model` and `evaluate`:
  - the target loses its first time step and is flattened time-major;
  - non-PAD tokens and correct non-PAD predictions are counted;
  - the counts are accumulated over the batches;
  - the epoch's mean loss, accuracy and attention-mass percentage are formed, and a division by zero is an error.
- **Path builders and decoder choice** (`paths.dfy` and `decoders.dfy`).
  - The paths come from the f-strings of `get_data_path`, `get_vocab_path`, `get_translations_path` and `get_model_path`. This includes Python's `str` for integers, with a proved round trip.
  - The decoder variant and file suffix come from the `if/elif/else` of `initialize_model`.

`wrappers.dfy` holds the `Option` and `Result` datatypes.

The model follows the code itself wherever the documented intent reads differently:
- An attention name that is not `uniform` or `no-attention` is silently accepted, not rejected. It gets the full-attention decoder without the inference flag and the no-attention decoder with it; the suffix is `""` either way.
- When `epochs <= 0`, no epoch runs. Then `epochs_taken_to_converge` stays 0, and the reload asks for the `_epoch=0` checkpoint, which this run never saved. `Train` reports that as `MissingCheckpoint` unless the initial store already holds that file.

## Model

| member | source | states |
|---|---|---|
| Paths.NatToString | deceptive-attention/src/seq2seq/author-based/train.py:461 | `str(n)` of a non-negative integer: its decimal digits, most significant first, without leading zeros; its contract is stated by NatToStringDigits and ParseNatToString |
| Paths.IntToString | deceptive-attention/src/seq2seq/author-based/train.py:461 | `str(seed)` of any integer: a minus sign before the digits of the magnitude when negative; see IntToStringSign |
| Paths.DataPath | deceptive-attention/src/seq2seq/author-based/train.py:460-461 | `get_data_path`: task, suffix, then the `_seed=`, `_coeff=` and `_epoch=` fields with `str` of seed, coeff and epoch; see DataPathInjective |
| Paths.VocabPath | deceptive-attention/src/seq2seq/author-based/train.py:450-452 | `get_vocab_path`: `DATA_VOCAB_PATH` before the data stem; see VocabPathShape |
| Paths.TranslationsPath | deceptive-attention/src/seq2seq/author-based/train.py:455-457 | `get_translations_path`: `DATA_TRANSLATIONS_PATH` before the data stem; see TranslationsPathShape |
| Paths.ModelRunName | deceptive-attention/src/seq2seq/author-based/train.py:465 | the part of a checkpoint file name that names the run: task, attention, seed and coeff, up to `_epoch=` |
| Paths.ModelFileName | deceptive-attention/src/seq2seq/author-based/train.py:465 | the checkpoint file name: the run name, the epoch number and `.pt` |
| Paths.ModelPath | deceptive-attention/src/seq2seq/author-based/train.py:464-465 | `get_model_path`: `DATA_MODELS_PATH` before the checkpoint file name; see ModelPathShape and ModelPathInjective |
| Paths.NatToStringDigits | deceptive-attention/src/seq2seq/author-based/train.py:461 | `str(n)` of a non-negative integer is a non-empty run of decimal digits, and a single digit exactly when n < 10 |
| Paths.IntToStringSign | deceptive-attention/src/seq2seq/author-based/train.py:461 | `str(seed)` starts with a minus sign exactly when the seed is negative |
| Paths.ParseNatToString | deceptive-attention/src/seq2seq/author-based/train.py:461 | reading the decimal rendering of n back gives n (the rendering has an inverse) |
| Paths.NatToStringInjective | deceptive-attention/src/seq2seq/author-based/train.py:461 | different epoch numbers render differently |
| Paths.DataPathInjective | deceptive-attention/src/seq2seq/author-based/train.py:460-461 | two data stems of the same run are equal only when they name the same epoch |
| Paths.VocabPathShape | deceptive-attention/src/seq2seq/author-based/train.py:450-452 | a vocabulary path is `DATA_VOCAB_PATH` followed by exactly the run's data stem |
| Paths.TranslationsPathShape | deceptive-attention/src/seq2seq/author-based/train.py:455-457 | a translation path is `DATA_TRANSLATIONS_PATH` followed by exactly the run's data stem |
| Paths.ModelPathShape | deceptive-attention/src/seq2seq/author-based/train.py:464-465 | a checkpoint path starts with `DATA_MODELS_PATH` and ends in `.pt` |
| Paths.ModelPathInjective | deceptive-attention/src/seq2seq/author-based/train.py:464-465 | two checkpoint paths of the same run are equal only for the same epoch, so no epoch's save overwrites another's |
| Paths.OutputDirectoriesDisjoint | deceptive-attention/src/seq2seq/author-based/train.py:450-465 | the vocabulary and translation paths of a run carry the same stem; no vocabulary, translation or checkpoint path of any run equals one of another kind |
| Decoders.SelectDecoder | deceptive-attention/src/seq2seq/author-based/train.py:270-283 | suffix `_uniform` exactly for the uniform decoder; suffix `_no-attn` only with the no-attention decoder; the full-attention decoder only with suffix `""` and the inference flag off |
| Decoders.UniformTakesPrecedence | deceptive-attention/src/seq2seq/author-based/train.py:275-277 | `uniform` gives the uniform decoder and `_uniform` whatever the inference flag |
| Decoders.NoAttentionDecoderExactly | deceptive-attention/src/seq2seq/author-based/train.py:275-279 | the no-attention decoder is chosen if and only if the name is not `uniform` and either names `no-attention` or the inference flag is set |
| Decoders.SuffixIgnoresInferenceFlag | deceptive-attention/src/seq2seq/author-based/train.py:277-281 | the suffix never depends on the inference flag, and it is `_no-attn` if and only if the name is `no-attention` |
| Decoders.UnrecognisedNamesFallBack | deceptive-attention/src/seq2seq/author-based/train.py:278-283 | any other name gets suffix `""`: the full-attention decoder without the flag, the no-attention decoder with it |
| Mask.MinLen | deceptive-attention/src/seq2seq/author-based/train.py:66 | `min(trg_len, src_len)` |
| Mask.ReversedColumn | deceptive-attention/src/seq2seq/author-based/train.py:75 | the column `max(0, list_src_lens[b] - i - 1)` that `rev` marks at step i |
| Mask.FlipBound | deceptive-attention/src/seq2seq/author-based/train.py:78 | `last`: m when m is odd, m - 1 otherwise |
| Mask.FlipPartner | deceptive-attention/src/seq2seq/author-based/train.py:80 | the column binary-flip marks at step i: i - 1 for even i, i + 1 for odd i; see FlipPartnerInvolution |
| Mask.KnownTask | deceptive-attention/src/seq2seq/author-based/train.py:68-86 | the four task names with a branch; any other name reaches the `ValueError` |
| Mask.LengthsFit | deceptive-attention/src/seq2seq/author-based/train.py:73-76 | `list_src_lens` has an entry for every example, and none is longer than the source dimension, so every index the `rev` loop writes exists |
| Mask.MaskFailure | deceptive-attention/src/seq2seq/author-based/train.py:62-91 | the error for the arguments, in the order `generate_mask` raises them: unknown task (`ValueError`), missing `list_src_lens` for `rev` (the assert), then an `IndexError` when a dimension is 0 or a `rev` index falls outside the array or the list; none otherwise. GenerateMask fails exactly when this is an error |
| Mask.Marked | deceptive-attention/src/seq2seq/author-based/train.py:66-81 | the cells a task sets to 1 before the clearing: the diagonal below m for `copy`, the reversed column below m for `rev`, the partner column inside `[1, last)` for `binary-flip`, none for `en-hi` |
| Mask.FlipPartnerInvolution | deceptive-attention/src/seq2seq/author-based/train.py:78-80 | inside `[1, last)` the binary-flip partner stays inside `[1, last)` and pairing twice gives back the step |
| Mask.MaskAt | deceptive-attention/src/seq2seq/author-based/train.py:65-91 | every mask value is 0 or 1; boundary cells are 0; a cell is 1 exactly when the task marks it and it is off the boundary |
| Mask.SetAcrossBatch | deceptive-attention/src/seq2seq/author-based/train.py:70 | writes v at (i, b, j) for every example b and leaves every other cell unchanged |
| Mask.SetAcrossSource | deceptive-attention/src/seq2seq/author-based/train.py:89 | writes v at (i, b, j) for every source position j and leaves every other cell unchanged |
| Mask.MarkDiagonal | deceptive-attention/src/seq2seq/author-based/train.py:68-70 | afterwards (i, b, i) is 1 for i < m and every other cell is unchanged |
| Mask.MarkReversedExample | deceptive-attention/src/seq2seq/author-based/train.py:74-76 | afterwards (i, b, max(0, len-i-1)) is 1 for i < m in example b and every other cell is unchanged |
| Mask.MarkReversed | deceptive-attention/src/seq2seq/author-based/train.py:71-76 | the `for b` loop: afterwards each example's reversed positions are 1 and every other cell is unchanged |
| Mask.MarkFlipped | deceptive-attention/src/seq2seq/author-based/train.py:77-81 | afterwards (i, b, partner(i)) is 1 for 1 ≤ i < last in every example and every other cell is unchanged |
| Mask.ClearStep | deceptive-attention/src/seq2seq/author-based/train.py:89 | afterwards target step i is 0 everywhere and every other cell is unchanged |
| Mask.ClearSourcePosition | deceptive-attention/src/seq2seq/author-based/train.py:90-91 | afterwards source position j is 0 in every step and example and every other cell is unchanged |
| Mask.GenerateMask | deceptive-attention/src/seq2seq/author-based/train.py:62-93 | fails exactly as `generate_mask` does (unknown task, missing `list_src_lens` for `rev`, an index past a dimension), with that error; otherwise returns a fresh `trg_len × batch × src_len` array equal to `MaskAt` in every cell |
| Mask.BoundaryFree | deceptive-attention/src/seq2seq/author-based/train.py:89-91 | for every task, row 0, source column 0 and the last source column are 0 |
| Mask.EnHiAllZero | deceptive-attention/src/seq2seq/author-based/train.py:82-84 | `en-hi` yields an all-zero mask |
| Mask.CopyDiagonal | deceptive-attention/src/seq2seq/author-based/train.py:68-70 | for `copy` a cell is 1 exactly when it is (i, b, i) with 1 ≤ i < m and i not the last source position, whatever `list_src_lens` is passed |
| Mask.RevAntiDiagonal | deceptive-attention/src/seq2seq/author-based/train.py:71-76 | `rev` marks source position len-1-i at step i while i is inside the example, and position 0 after that |
| Mask.AtMostOneGoldPosition | deceptive-attention/src/seq2seq/author-based/train.py:66-81 | for every task, each target step of each example has at most one cell set to 1 |
| Mask.FlipSymmetric | deceptive-attention/src/seq2seq/author-based/train.py:77-81 | the binary-flip marks are symmetric: (i, j) is marked exactly when (j, i) is, whatever `list_src_lens` is passed |
| Bookkeeping.ScoredLength | deceptive-attention/src/seq2seq/author-based/train.py:133-135 | the length of `trg[1:].view(-1)`: (trg_len - 1) · batch, 0 for an empty target; see ScoredLengthIsProduct |
| Bookkeeping.Column | deceptive-attention/src/seq2seq/author-based/train.py:133 | the tokens of one time step across the batch, one per example |
| Bookkeeping.TimeMajorFrom | deceptive-attention/src/seq2seq/author-based/train.py:133 | the time steps from t on, flattened time-major; its length is (trg_len - t) · batch |
| Bookkeeping.BatchNonPad | deceptive-attention/src/seq2seq/author-based/train.py:138-139 | `non_pad_tokens_trg`: the non-PAD tokens of the scored target |
| Bookkeeping.AddBatch | deceptive-attention/src/seq2seq/author-based/train.py:142-154 | one batch added to the four accumulators: its loss, its non-PAD count, its correct count and its attention mass |
| Bookkeeping.ScoredLengthIsProduct | deceptive-attention/src/seq2seq/author-based/train.py:133-135 | the flattened target has (trg_len - 1) · batch positions |
| Bookkeeping.ScoredTargets | deceptive-attention/src/seq2seq/author-based/train.py:133 | the flattened target of a well-shaped batch has one position per prediction |
| Bookkeeping.ScoredTargetsAt | deceptive-attention/src/seq2seq/author-based/train.py:133 | position (x-1) · batch + k of the flattened target is example k's token at step x, so the order is time-major |
| Bookkeeping.FirstStepNeverScored | deceptive-attention/src/seq2seq/author-based/train.py:130-133 | batches that agree after the first time step score the same targets |
| Bookkeeping.NonPadCount | deceptive-attention/src/seq2seq/author-based/train.py:138-139 | the non-PAD count is at most the number of positions |
| Bookkeeping.CorrectCount | deceptive-attention/src/seq2seq/author-based/train.py:144 | correct predictions are counted only at non-PAD positions, so there are at most as many as non-PAD tokens |
| Bookkeeping.AllCorrectIff | deceptive-attention/src/seq2seq/author-based/train.py:138-144 | the correct count equals the non-PAD count if and only if every non-PAD target is predicted |
| Bookkeeping.BatchCorrect | deceptive-attention/src/seq2seq/author-based/train.py:198-205 | per batch, correct ≤ non-PAD |
| Bookkeeping.Totals | deceptive-attention/src/seq2seq/author-based/train.py:142-144 | the accumulated correct count never exceeds the accumulated non-PAD count |
| Bookkeeping.AccumulateEpoch | deceptive-attention/src/seq2seq/author-based/train.py:96-154 | the batch loop's four accumulators equal the per-batch sums of loss, non-PAD count, correct count and attention mass, in batch order; correct ≤ total |
| Bookkeeping.FinishEpoch | deceptive-attention/src/seq2seq/author-based/train.py:156 | the return expression succeeds exactly when there is a batch and a non-PAD token, and otherwise fails with a division by zero; the accuracy is then in [0, 100], and so is the attention-mass percentage when the summed mass lies in [0, total] |
| Bookkeeping.FinishEpochRatios | deceptive-attention/src/seq2seq/author-based/train.py:211 | mean loss × batches = loss sum; accuracy × total = 100 × correct; attention percentage × total = 100 × mass |
| Bookkeeping.RunEpoch | deceptive-attention/src/seq2seq/author-based/train.py:159-211 | a whole pass gives the metrics of the accumulated totals; it succeeds if and only if some non-PAD token was seen, and the accuracy is then in [0, 100] |
| Bookkeeping.AttnMassBounded | deceptive-attention/src/seq2seq/author-based/train.py:187-202 | if each batch's gold mass lies in [0, non-PAD count], the epoch's summed mass lies in [0, total non-PAD count] |
| Bookkeeping.AttnMassPercentInRange | deceptive-attention/src/seq2seq/author-based/train.py:211 | under that hypothesis the reported attention-mass percentage lies in [0, 100] |
| Convergence.Budget | deceptive-attention/src/seq2seq/author-based/train.py:363 | the number of epochs `range(epochs)` yields: `epochs`, or 0 when negative |
| Convergence.CheckpointPath | deceptive-attention/src/seq2seq/author-based/train.py:386 | the checkpoint path of one epoch of the configured run |
| Convergence.BeatsBest | deceptive-attention/src/seq2seq/author-based/train.py:383 | the loop's test `val_loss < best_valid_loss`, with +∞ as `None` |
| Convergence.Improves | deceptive-attention/src/seq2seq/author-based/train.py:383 | epoch k passes that test against the running best of the epochs before it; see ImprovesIffBelowAllEarlier |
| Convergence.StopsAt | deceptive-attention/src/seq2seq/author-based/train.py:389-392 | epoch k breaks the loop: it does not improve, and the epoch before it did not either |
| Convergence.ImprovingTime | deceptive-attention/src/seq2seq/author-based/train.py:358-387 | `convergence_time`: the durations of exactly the improving epochs, summed; see ImprovingTimeBounds |
| Convergence.StoreAfter | deceptive-attention/src/seq2seq/author-based/train.py:386 | the checkpoint files after n epochs: each improving epoch has saved its number under its own path, on top of the initial store |
| Convergence.StateAfter | deceptive-attention/src/seq2seq/author-based/train.py:357-393 | the run state after n epochs, field by field from BestBefore, Improves, LastImproving, ImprovingTime and StoreAfter |
| Convergence.EpochUpdate | deceptive-attention/src/seq2seq/author-based/train.py:383-393 | one pass of the loop body that does not break: an improving epoch becomes the best, sets the epoch number, adds its time, saves its checkpoint and clears the flag; any other epoch sets the flag |
| Convergence.LoopState | deceptive-attention/src/seq2seq/author-based/train.py:357-393 | the state the loop body builds from +∞, flag off, 0, 0.0 and the initial store; see LoopStateCharacterised |
| Convergence.IsTranslationTask | deceptive-attention/src/seq2seq/author-based/train.py:418 | `task in ['en-hi', 'en-de']`: the tasks whose translations are generated and dumped after training |
| Convergence.BestBefore | deceptive-attention/src/seq2seq/author-based/train.py:357-384 | the running best is +∞ (`None`) exactly before the first epoch |
| Convergence.StopSearch | deceptive-attention/src/seq2seq/author-based/train.py:363-393 | the search for the breaking epoch ends between its start and the budget |
| Convergence.EpochsRun | deceptive-attention/src/seq2seq/author-based/train.py:363 | the loop never runs more than `epochs` epochs, and none when `epochs` ≤ 0 |
| Convergence.StopSearchBounds | deceptive-attention/src/seq2seq/author-based/train.py:389-393 | no epoch strictly before the last one searched breaks; the search ends early only just after a breaking epoch |
| Convergence.EpochsRunCharacterised | deceptive-attention/src/seq2seq/author-based/train.py:363-393 | the loop runs at most `epochs` epochs; no epoch before the last one run is a second non-improving epoch in a row; when it ends early, the last epoch run is one |
| Convergence.LastImproving | deceptive-attention/src/seq2seq/author-based/train.py:359-385 | `epochs_taken_to_converge` is at most the number of epochs run, is positive once an epoch ran, and names an improving epoch |
| Convergence.LastImprovingIsLast | deceptive-attention/src/seq2seq/author-based/train.py:383-385 | no epoch after `epochs_taken_to_converge` improves |
| Convergence.BestIsLastImproving | deceptive-attention/src/seq2seq/author-based/train.py:383-385 | after some epochs the running best is the loss of the last improving epoch |
| Convergence.BestBeforeIsLowest | deceptive-attention/src/seq2seq/author-based/train.py:383-384 | the running best is at most every loss seen so far |
| Convergence.ImprovesIffBelowAllEarlier | deceptive-attention/src/seq2seq/author-based/train.py:383 | an epoch improves on the running best if and only if its loss is strictly below every earlier loss |
| Convergence.LastImprovingIsFirstMin | deceptive-attention/src/seq2seq/author-based/train.py:357-385 | the last improving epoch holds the minimum of the losses consumed, and no earlier epoch reaches it (the first occurrence, because the comparison is strict) |
| Convergence.BestIsFirstMinimum | deceptive-attention/src/seq2seq/author-based/train.py:357-385 | the same, as the first index of the minimum of the consumed prefix of losses |
| Convergence.ImprovingTimeBounds | deceptive-attention/src/seq2seq/author-based/train.py:358-387 | with non-negative durations, `convergence_time` lies between 0 and the total duration of the epochs run |
| Convergence.ImprovingEpochCheckpointed | deceptive-attention/src/seq2seq/author-based/train.py:386 | every improving epoch's checkpoint is in the store under its own path, and later saves do not overwrite it |
| Convergence.CheckpointPathsDiffer | deceptive-attention/src/seq2seq/author-based/train.py:386 | different epochs of a run save under different paths |
| Convergence.StoreAfterFrame | deceptive-attention/src/seq2seq/author-based/train.py:386 | a path that no improving epoch saved to keeps what it held before the run |
| Convergence.LoopStateBest | deceptive-attention/src/seq2seq/author-based/train.py:383-393 | the loop body's `best_valid_loss` is the running best, and `no_improvement_last_time` holds exactly when the previous epoch did not improve (any improvement resets it) |
| Convergence.LoopStateTaken | deceptive-attention/src/seq2seq/author-based/train.py:385 | the loop body's `epochs_taken_to_converge` is the last improving epoch |
| Convergence.LoopStateTime | deceptive-attention/src/seq2seq/author-based/train.py:387 | the loop body's `convergence_time` is the summed duration of exactly the improving epochs |
| Convergence.LoopStateStore | deceptive-attention/src/seq2seq/author-based/train.py:386 | the loop body's checkpoint files are those of the improving epochs, on top of the initial store |
| Convergence.LoopStateCharacterised | deceptive-attention/src/seq2seq/author-based/train.py:357-393 | the state the loop body builds epoch by epoch is the declarative run state |
| Convergence.EpochLoop | deceptive-attention/src/seq2seq/author-based/train.py:357-393 | the loop, with its `break`, runs exactly `EpochsRun` epochs (the `OverflowError` of its log lines is left out, see below) and ends in the declarative run state after them |
| Convergence.Train | deceptive-attention/src/seq2seq/author-based/train.py:353-422 | `train`: picks the decoder, runs the loop, then reloads epoch `epochs_taken_to_converge` and evaluates the test batches. Of the failures modelled (the `OverflowError` of the log lines is left out, see below), it fails with `MissingCheckpoint` exactly when that checkpoint is missing, and otherwise with the test pass's division by zero exactly when the test batches hold no non-PAD token. On success it reports the test metrics and names the `.src.vocab`/`.trg.vocab` outputs, plus the translation stem for `en-hi`/`en-de`. When at least one epoch ran and the test batches hold a non-PAD token, it succeeds, reloads the epoch it names, and the test accuracy is in [0, 100] |
| Convergence.ReloadedIsBest | deceptive-attention/src/seq2seq/author-based/train.py:401-402 | `epochs_taken_to_converge` is 0 exactly when no epoch ran. Otherwise the best loss is that epoch's loss, the epoch is the first minimum of the losses consumed, and the store holds that epoch's checkpoint under the reloaded path |
| Convergence.ScenarioTwoStaleEpochs | deceptive-attention/src/seq2seq/author-based/train.py:383-393 | losses 2.0, 1.5, 1.6, 1.7, 0.1 with five epochs: the loop stops after four epochs and reloads epoch 2 |

## Left out

- The neural network: the forward and backward passes, `optimizer.step`, `clip_grad_norm_`, `init_weights`, `count_parameters` and `set_seed`. These are library internals; each batch's loss is an input of the model.
- The floating-point numerics:
  - the cross-entropy loss;
  - the regulariser `-coeff·log(1 - attn_mass/non_pad)`;
  - the `einsum` attention mass;
  - the argmax over logits.
  - The mass and the predictions are inputs of each batch. Losses, durations and metrics are exact reals, so rounding, NaN and infinite losses are not modelled.
- `generate` and `generate_translations`: without the argmax, the vocabulary lookups, the batch supplier and the BLEU computation, nothing is left of them.
- `epoch_time` and the clock: an epoch's duration (`end_time - start_time`) is an input.
- File and device I/O:
  - `os.makedirs` and `load_vocabulary`/`save_vocab`;
  - the translation and source-sentence dumps;
  - `torch.save`/`torch.load`, reduced to the checkpoint store (a map from path to epoch number).
  - The vocabulary and translation output paths are computed, not written.
- Logging, tqdm and TensorBoard writes.
- The device-dependent `output_dim += 1` workaround and the other arguments of `initialize_model`. Only the decoder variant and the suffix are modelled.
- The helper modules `utils`, `batch_utils`, `models` and `log_utils` are not part of this model. The PAD id is a parameter.
- Convergence.EpochLoop: in every epoch that does not break, the log lines (lines 395-399) evaluate `math.exp` of the train and validation losses. Python raises `OverflowError` there for a loss above about 709.78, after that epoch's checkpoint may already have been saved. The epoch that breaks (line 392) never reaches them. The model does not fail there: it runs `EpochsRun` epochs whatever the size of the losses.
- Convergence.Train: the log line after the test pass (lines 405-406) evaluates `math.exp` of the test loss. `train` raises `OverflowError` when the train or validation loss of an epoch that does not break, or the test loss, exceeds about 709.78. Either way this happens before the vocabulary files are named. The model does not fail there, so `Train`'s failures are only the missing checkpoint and the test pass's division by zero.
- Convergence.Train: each epoch's train and validation passes (lines 367-368) are assumed to succeed, and their validation losses are inputs. So the `ZeroDivisionError` that an empty or all-PAD train or dev split raises inside those passes is not modelled. Only the final test pass (line 404) is run through the bookkeeping model.
- Paths.DataPath: `coeff` is taken as the text that `str(coeff)` produces. Python's rendering of floats is not modelled.
- Mask.GenerateMask: in `binary-flip` with min(trg_len, src_len) ≤ 2, the index lists are empty, so `torch.tensor` builds empty floating-point index tensors. The model treats that assignment as writing nothing; whether PyTorch raises for such index tensors is not modelled.
- Mask.GenerateMask: the model draws on `list_src_lens` only for `rev`, as `generate_mask` does. Source lengths that are not integers are not modelled.
