# Adversarial patch training loop — a Dafny model

This project models the control logic of the patch trainer in `model/train.py`.
The trainer optimises one adversarial patch that is pasted into images at random
placements so that a YOLOv8 classifier predicts a target class. Tensors, the
classifier and the optimizer are abstract here. What is modelled and proved is
the bookkeeping around them:

- the per-image step of `train_step`: placement draws inside their ranges, the
  loss and success of the patched image, the optional optimizer step, and the
  clamp of the patch into [-1, 1];
- the averaging of running sums, first over the images of a batch and then over
  the batches of a loader (`train`, `val`);
- `calculate_success`: the fraction of rows whose first maximal entry is the target;
- the epoch controller of `train_patch`: best-loss tracking, reverting to the best
  snapshot, early stopping on loss patience, and the epoch limit.

Files, one module each:

- `ext_real.dfy` (`ExtReals`): a loss as a Python float sees it: finite, `+inf` or NaN,
  with the float `<`, addition and division by a count.
- `success.dfy` (`Success`): `ArgMax` (first maximal index) and `CalculateSuccess`.
- `patches.dfy` (`Patches`): the patch as a sequence of reals, `Clamp`, and the
  `LivePatch` object that training updates in place.
- `train_step.dfy` (`TrainStep`): one image (`ImageStep`, `RunImageStep`) and one batch
  (`Steps`, `Finish`, `RunTrainStep`).
- `epoch.dfy` (`Epoch`): the loop over batches shared by `Train` and `Val`.
- `controller.dfy` (`Controller`): `Bookkeep`, `After`, `Run`, the `Trainer` class and
  `TrainPatch`.

The foreign code enters as function-typed fields of datatypes. `Env` holds the
spatial shape that `transform_patch` gives for a transformation draw, and the
classifier with its `nll_loss` on the patched image. `Optimizer` is either
`NoOptimizer` (the validation path) or the patch after an optimizer step. The random
draws (`random_transformation`, and the two `torch.randint` calls) are
nondeterministic choices in the methods. `RunImageStep` returns the draw it made
as an ordinary result; `RunTrainStep` and `RunLoader` return the draws of the whole
loop as a ghost value. So each result can be stated as a function of the inputs and
the draws.

The exceptions the loop can raise are modelled as `StepError` values:

- `PlacementRange`: `torch.randint(0, n)` with `n <= 0`;
- `TargetOutOfRange`: `nll_loss` with a target outside the classes. The default
  `ignore_index` of -100 is accepted instead, and it gives a NaN loss;
- `EmptyScores`: `argmax` over a row with no classes;
- `DivisionByZero`: the final division for an empty batch or an empty loader.

An exception ends the loop and leaves the patch as it was when the exception was
raised.

Three behaviours of the code are worth stating outright:

- the patch is clamped to [-1, 1] after every image (`model/train.py:49`);
- early stopping counts the epochs since the lowest validation loss and stops
  once that count exceeds `stop_threshold` (`model/train.py:135`); the best patch
  is the one with the lowest validation loss (`model/train.py:127`);
- the upper bound of `torch.randint` is exclusive (`model/train.py:30-31`), so the
  offset satisfies `x < height - patch height`, and a transformed patch as tall or
  as wide as the image raises.

## Model

| member | source | states |
|---|---|---|
| ExtReals.LessIsFloatLess | model/train.py:127 | the float `<` of `val_loss < best_val_loss`: irreflexive and asymmetric, NaN is neither below nor above anything, infinity is below nothing, every finite value is below infinity, and finite values compare by value |
| ExtReals.AddIsFloatAdd | model/train.py:51-52 | the `+=` of the running sums (also lines 69-70 and 89-90): commutative, associative, with 0 as its unit; NaN absorbs everything, infinity absorbs every finite value, and finite values add |
| ExtReals.DivByIsFloatDiv | model/train.py:54-55 | the `/=` by a positive count (also lines 76-77 and 96-97): infinity and NaN stay as they are, a finite sum gives the finite quotient whose product with the count is the sum, and dividing by 1 changes nothing |
| Success.ArgMax | model/train.py:11 | the index returned is the first index of a maximal entry of the row |
| Success.Hits | model/train.py:11-12 | the count of the `top1_class == target_class` comparisons that hold: exactly the number of rows whose first maximum is the target; it is at most the number of rows, equal to it iff every row is a hit, and 0 iff none is |
| Success.CalculateSuccess | model/train.py:9-13 | the mean of the hits: NaN exactly for no rows, otherwise the number of rows whose first maximum is the target divided by the number of rows, a fraction in [0, 1] that is 1 iff every row is a hit and 0 iff none is |
| Success.SingleRowSuccess | model/train.py:39 | for the single row the step passes, the success is 1 exactly when the target is the first index of the maximal entry, else 0 |
| Patches.ClampValue | model/train.py:49 | one clamped element lies in [-1, 1] and is the point of [-1, 1] nearest to the input |
| Patches.Clamp | model/train.py:48-49 | the clamp keeps the length, puts every element in [-1, 1], acts element by element, and leaves an in-range patch unchanged |
| Patches.ClampIdempotent | model/train.py:49 | clamping twice is the same as clamping once |
| TrainStep.ImageStepOutcome | model/train.py:26-49 | one image completes exactly when both placement ranges are non-empty, the scores are non-empty and the target is a class index or the ignored index -100; a completed image leaves the patch in [-1, 1] with a success in [0, 1], and without an optimizer its patch is the clamp of the input |
| TrainStep.RunImageStep | model/train.py:22-49 | one image: the result is `ImageStep` of the patch and the draws made; the offsets lie in their ranges, so the patch lies strictly inside the image; the patch changes only when the image completes |
| TrainStep.RunTrainStep | model/train.py:16-57 | (`BatchSpec`) the batch result and the new patch are the fold `Steps` over the images with the draws made, followed by division by the batch size; every reached placement lies in range; a completed batch has success in [0, 1] and a patch in [-1, 1] |
| TrainStep.HaltedPersists | model/train.py:21-52 | once an image raises, the later images change neither the patch nor the outcome |
| TrainStep.StepsBounds | model/train.py:42-52 | the success sum is between 0 and the number of images; the patch is in [-1, 1] once an image has completed, and stays in range if it started in range |
| TrainStep.ValidationOnlyClamps | model/train.py:42-49 | without an optimizer the patch is the initial patch or its clamp, and its clamp once any image has completed: the clamp runs on the validation path too |
| TrainStep.BatchAveragesInRange | model/train.py:51-55 | the averaged success of a completed batch lies in [0, 1] and the patch in [-1, 1] |
| Epoch.BatchesHaltedPersists | model/train.py:66-70 | once a batch raises, the later batches change neither the patch nor the outcome |
| Epoch.BatchesBounds | model/train.py:66-78 | the summed batch successes lie between 0 and the number of batches; the patch is in [-1, 1] once a batch has completed |
| Epoch.BatchesValidationOnlyClamps | model/train.py:86-90 | over a whole loader without an optimizer the patch is the initial patch or its clamp, and its clamp once a batch has completed |
| Epoch.EpochAveragesInRange | model/train.py:76-78 | a completed loader pass has success in [0, 1] and the patch in [-1, 1]; without an optimizer the patch is exactly the clamp of the initial patch |
| Epoch.RunLoader | model/train.py:66-78 | the loader result and the new patch are the fold `Batches` over the batches with the draws made, divided by the number of batches; every placement the loop reaches, in every batch, lies in its `randint` range (`LoaderPlaced`); a completed pass has success in [0, 1] and the patch in [-1, 1], and without an optimizer the patch is the clamp of the initial one |
| Epoch.Train | model/train.py:61-78 | `train` is the loader pass with the optimizer: the `Batches` fold with the draws made, every reached placement in its range; its success lies in [0, 1] and its patch in [-1, 1] |
| Epoch.Val | model/train.py:81-98 | `val` is the loader pass without an optimizer: the `Batches` fold with the draws made, every reached placement in its range; on success its average lies in [0, 1] and the patch is exactly the clamp of the patch it was given |
| Controller.Bookkeep | model/train.py:127-133 | after an epoch's bookkeeping the live patch equals the snapshot; the best loss does not increase; the epoch's loss is not below the best; a strictly lower loss snapshots the live patch at this epoch, anything else keeps the old best |
| Controller.Trainer.constructor | model/train.py:103-106 | the best loss starts at infinity, the best epoch at 0 and the best patch as a copy of the initial patch |
| Controller.Trainer.EndEpoch | model/train.py:127-133 | the trainer's state after the epoch's bookkeeping is `Bookkeep` of its state before |
| Controller.Trainer.RunEpoch | model/train.py:111-133 | the trainer's state after one epoch (training, validation with its clamp, bookkeeping) is `Next` of its state before |
| Controller.TrainPatch | model/train.py:101-139 | the number of epochs run and the way the loop ended are `Run`; the returned patch and the live patch are those of `After` that many epochs |
| Controller.LiveIsBest | model/train.py:127-133 | after every epoch's bookkeeping the live patch equals the best patch, and the best epoch is 0 or an epoch already run |
| Controller.BestNeverRegresses | model/train.py:127-130 | across epochs the best loss never increases and the best epoch never decreases |
| Controller.FirstMinimalExtends | model/train.py:127-129 | for any sequence of losses, when the running best (infinity until a finite loss arrives) is the loss of the first minimal epoch so far, a newest loss strictly below it makes the newest epoch the first minimal one, and any other loss leaves the first minimal epoch as it was |
| Controller.FirstMinimumStep | model/train.py:127-130 | one epoch of bookkeeping preserves the fact that the best patch is the snapshot of the first minimal epoch |
| Controller.FirstMinimumRecorded | model/train.py:103-133 | after any number of epochs the bookkeeping records the first epoch of minimal finite loss, its loss and its snapshot, or the initial values if no loss was finite |
| Controller.BestIsFirstMinimum | model/train.py:103-133 | the best patch is the snapshot taken at the first epoch that reached the minimal finite validation loss, and the best loss and epoch are that epoch's; if no epoch produced a finite loss, it is the initial patch with loss infinity and epoch 0 |
| Controller.NonImprovingSinceBest | model/train.py:127-135 | every epoch after the best epoch failed to improve the best loss |
| Controller.RunFromTerminates | model/train.py:109-139 | the loop from a given epoch runs at most `epochs` epochs, stops early at the first epoch whose stopping test holds, and otherwise runs to the limit |
| Controller.RunTerminates | model/train.py:109-139 | the loop runs at most `epochs` epochs; it returns early exactly at the first epoch `e` with `e - best_val_epoch > stop_threshold`; otherwise it runs all `epochs` |
| Controller.LoopStep | model/train.py:109-137 | one iteration of the epoch loop advances the state by `Next`; if the stopping test then holds the run ends here early, otherwise it continues as the run from the next epoch |
| Controller.EarlyStopPatience | model/train.py:135-137 | an early stop comes after at least `stop_threshold + 1` epochs since the best epoch, none of which improved the best loss |
| Controller.BestInRange | model/train.py:127-133 | if the initial patch is in [-1, 1], so are the best patch and the live patch after any number of epochs |
| Controller.SingleEpochHitsLimit | model/train.py:109-139 | with `epochs = 1` and a non-negative threshold the loop ends on the epoch limit after exactly one epoch, not by early stopping |

## Left out

- Autograd and the optimizer (`zero_grad`, `backward`, `step`): the patch after a step is an opaque, stateless function of the patch, the image and the draws. The optimizer's internal state (momentum, Adam moments) is not modelled; at the epoch level it is folded into `Epochs.train`, which takes the epoch number, so the revert at line 133 restores the patch but not that state, as in the code.
- `torch.log` and `nll_loss` numerics: the loss is an opaque value that the classifier function returns. Only the target-range check and the `ignore_index` case are modelled.
- The classifier call: an opaque function of the patch, the image and the draws.
- `random_transformation`, `transform_patch`, `apply_patch_to_image` and `save_patch`: `patch.py` is not part of this model. Only the spatial shape of the transformed patch is used, as an opaque function of the patch and a transformation draw.
- The distribution of the random draws: they are nondeterministic choices within their ranges, not uniform samples.
- `training_log`, `plot_training_log`, `print`, `time.time`, `time.strftime` and the remaining-time estimate: I/O and wall-clock reporting.
- Device placement (`.to(device)`, `device=device`): plumbing with no effect on values.
- Floating point: reals replace floats, so rounding and the float32 mean are not modelled. Patch elements and log-probabilities are finite reals, so a NaN element and a `-inf` log-probability are not represented. A loss can be finite, `+inf` or NaN; `-inf` cannot arise as a loss.
- Controller.TrainPatch: the controller takes one epoch's training as an opaque function of the epoch and the live patch, and the validation loss as an opaque function of the epoch and the trained patch. It applies the clamp that `Epoch.Val` is proved to perform, but it does not call `Epoch.Train` and `Epoch.Val`. So an exception raised inside `train` or `val` is not modelled at the epoch level.
- `stop_threshold` is an integer; a float threshold is not modelled.
