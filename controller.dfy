/** `train_patch`: the epoch loop that keeps the best patch by validation loss,
    reverts the live patch to it when an epoch does not improve, and stops
    early once too many epochs have passed since the best one. */
module Controller {
  import opened ExtReals
  import opened Patches

  /** What one epoch does outside the bookkeeping: `train` turns the live
      patch at the start of epoch `e` into the trained patch, and `valLoss` is
      the loss `val` reports on that trained patch. (`val` itself only clamps
      the patch, which the model applies after `valLoss`.) */
  datatype Epochs = Epochs(train: (nat, seq<real>) -> seq<real>, valLoss: (nat, seq<real>) -> ExtReal)

  /** The live patch and `best_patch`, `best_val_loss`, `best_val_epoch`. */
  datatype State = State(live: seq<real>, best: seq<real>, bestLoss: ExtReal, bestEpoch: int)

  /** Before the first epoch: the best patch is a copy of the initial one. */
  function Start(p: seq<real>): State {
    State(p, p, PosInf, 0)
  }

  /** The end of epoch `epoch`: a strictly lower loss snapshots the live patch,
      anything else (an equal loss, infinity, NaN) reverts it to the snapshot. */
  function Bookkeep(s: State, epoch: int, loss: ExtReal): (r: State)
    ensures r.live == r.best
    ensures r.bestLoss == s.bestLoss || Less(r.bestLoss, s.bestLoss)
    ensures !Less(loss, r.bestLoss)
    ensures Less(loss, s.bestLoss) ==> r.best == s.live && r.bestLoss == loss && r.bestEpoch == epoch
    ensures !Less(loss, s.bestLoss) ==> r.best == s.best && r.bestLoss == s.bestLoss && r.bestEpoch == s.bestEpoch
  {
    if Less(loss, s.bestLoss) then State(s.live, s.live, loss, epoch)
    else State(s.best, s.best, s.bestLoss, s.bestEpoch)
  }

  /** The state after the bookkeeping of the first `n` epochs. */
  function After(o: Epochs, init: seq<real>, n: nat): State
    decreases n
  {
    if n == 0 then Start(init) else Next(o, After(o, init, n - 1), n - 1)
  }

  /** One epoch: training, validation (whose only effect on the patch is the
      clamp) and the bookkeeping with the validation loss. */
  function Next(o: Epochs, s: State, epoch: nat): State {
    var trained := o.train(epoch, s.live);
    Bookkeep(s.(live := Clamp(trained)), epoch, o.valLoss(epoch, trained))
  }

  /** The validation loss of epoch `e`. */
  function Loss(o: Epochs, init: seq<real>, e: nat): ExtReal {
    o.valLoss(e, o.train(e, After(o, init, e).live))
  }

  /** The live patch at the end of epoch `e`'s training and validation, the
      value snapshotted when that epoch improves. */
  function Snapshot(o: Epochs, init: seq<real>, e: nat): seq<real> {
    Clamp(o.train(e, After(o, init, e).live))
  }

  /** Epoch `e` improved on the best loss so far. */
  predicate Improves(o: Epochs, init: seq<real>, e: nat) {
    Less(Loss(o, init, e), After(o, init, e).bestLoss)
  }

  /** The early-stopping test after epoch `e`'s bookkeeping. */
  predicate StopsAfter(o: Epochs, init: seq<real>, threshold: int, e: nat) {
    e - After(o, init, e + 1).bestEpoch > threshold
  }

  /** How many epochs ran and whether the loop returned early. */
  datatype Outcome = Outcome(epochsRun: nat, early: bool)

  function RunFrom(o: Epochs, init: seq<real>, epochs: int, threshold: int, e: nat): Outcome
    decreases epochs - e
  {
    if e >= epochs then Outcome(e, false)
    else if StopsAfter(o, init, threshold, e) then Outcome(e + 1, true)
    else RunFrom(o, init, epochs, threshold, e + 1)
  }

  function Run(o: Epochs, init: seq<real>, epochs: int, threshold: int): Outcome {
    RunFrom(o, init, epochs, threshold, 0)
  }

  /** The validation losses, epoch by epoch. */
  function Losses(o: Epochs, init: seq<real>): nat -> ExtReal {
    (e: nat) => Loss(o, init, e)
  }

  /** None of the first `n` losses is finite. */
  predicate NoFiniteIn(losses: nat -> ExtReal, n: nat) {
    forall e: nat :: e < n ==> !losses(e).Num?
  }

  /** `k` is the first of the first `n` epochs whose loss is the minimum of
      their finite losses. */
  predicate FirstMinimalIn(losses: nat -> ExtReal, n: nat, k: int) {
    && 0 <= k < n
    && losses(k).Num?
    && (forall e: nat :: e < n && losses(e).Num? ==> losses(k).v <= losses(e).v)
    && (forall e: nat :: e < k && losses(e).Num? ==> losses(k).v < losses(e).v)
  }

  /** Keeping the running best with a strict `<`, starting from infinity,
      tracks the first minimal loss. */
  lemma FirstMinimalExtends(losses: nat -> ExtReal, n: nat, best: ExtReal, k: int)
    requires NoFiniteIn(losses, n) ==> best == PosInf
    requires !NoFiniteIn(losses, n) ==> FirstMinimalIn(losses, n, k) && best == losses(k)
    ensures Less(losses(n), best) ==> !NoFiniteIn(losses, n + 1) && FirstMinimalIn(losses, n + 1, n)
    ensures !Less(losses(n), best) ==>
      && (NoFiniteIn(losses, n) ==> NoFiniteIn(losses, n + 1))
      && (!NoFiniteIn(losses, n) ==> !NoFiniteIn(losses, n + 1) && FirstMinimalIn(losses, n + 1, k))
  {
    if !NoFiniteIn(losses, n) {
      assert losses(k).Num?;
    }
  }

  predicate NoFiniteLoss(o: Epochs, init: seq<real>, n: nat) {
    NoFiniteIn(Losses(o, init), n)
  }

  predicate FirstMinimal(o: Epochs, init: seq<real>, n: nat, k: int) {
    FirstMinimalIn(Losses(o, init), n, k)
  }

  /** After every epoch's bookkeeping the live patch equals the snapshot, and
      `best_val_epoch` is 0 or an epoch already run. */
  lemma {:induction false} LiveIsBest(o: Epochs, init: seq<real>, n: nat)
    ensures After(o, init, n).live == After(o, init, n).best
    ensures 0 <= After(o, init, n).bestEpoch
    ensures n == 0 || After(o, init, n).bestEpoch < n
    decreases n
  {
    if n > 0 {
      LiveIsBest(o, init, n - 1);
    }
  }

  /** `best_val_loss` never increases and `best_val_epoch` never decreases. */
  lemma {:induction false} BestNeverRegresses(o: Epochs, init: seq<real>, m: nat, n: nat)
    requires m <= n
    ensures var a, b := After(o, init, m), After(o, init, n);
      (b.bestLoss == a.bestLoss || Less(b.bestLoss, a.bestLoss)) && a.bestEpoch <= b.bestEpoch
    decreases n
  {
    if m < n {
      BestNeverRegresses(o, init, m, n - 1);
      LiveIsBest(o, init, n - 1);
      var a, c := After(o, init, m), After(o, init, n - 1);
      if Less(After(o, init, n).bestLoss, c.bestLoss) && Less(c.bestLoss, a.bestLoss) {
        LessTransitive(After(o, init, n).bestLoss, c.bestLoss, a.bestLoss);
      }
    }
  }

  /** What the bookkeeping records after `n` epochs. */
  predicate RecordsFirstMinimum(o: Epochs, init: seq<real>, n: nat) {
    var s := After(o, init, n);
    && (NoFiniteLoss(o, init, n) ==> s.best == init && s.bestLoss == PosInf && s.bestEpoch == 0)
    && (!NoFiniteLoss(o, init, n) ==>
          && FirstMinimal(o, init, n, s.bestEpoch)
          && s.bestLoss == Loss(o, init, s.bestEpoch)
          && s.best == Snapshot(o, init, s.bestEpoch))
  }

  /** `FirstMinimalExtends` for the validation losses, stated for epoch `n - 1`. */
  lemma LossesExtend(o: Epochs, init: seq<real>, n: nat, best: ExtReal, k: int)
    requires n > 0
    requires NoFiniteLoss(o, init, n - 1) ==> best == PosInf
    requires !NoFiniteLoss(o, init, n - 1) ==> FirstMinimal(o, init, n - 1, k) && best == Loss(o, init, k)
    ensures Less(Loss(o, init, n - 1), best) ==> !NoFiniteLoss(o, init, n) && FirstMinimal(o, init, n, n - 1)
    ensures !Less(Loss(o, init, n - 1), best) ==>
      && (NoFiniteLoss(o, init, n - 1) ==> NoFiniteLoss(o, init, n))
      && (!NoFiniteLoss(o, init, n - 1) ==> !NoFiniteLoss(o, init, n) && FirstMinimal(o, init, n, k))
  {
    FirstMinimalExtends(Losses(o, init), n - 1, best, k);
  }

  /** One epoch of bookkeeping preserves `RecordsFirstMinimum`. */
  lemma FirstMinimumStep(o: Epochs, init: seq<real>, n: nat)
    requires n > 0 && RecordsFirstMinimum(o, init, n - 1)
    ensures RecordsFirstMinimum(o, init, n)
  {
    var s := After(o, init, n - 1);
    assert After(o, init, n) == Bookkeep(s.(live := Snapshot(o, init, n - 1)), n - 1, Loss(o, init, n - 1));
    LossesExtend(o, init, n, s.bestLoss, s.bestEpoch);
  }

  /** The best patch is the snapshot of the first epoch that reached the
      minimal finite loss; with no finite loss it is the initial patch. */
  lemma BestIsFirstMinimum(o: Epochs, init: seq<real>, n: nat)
    ensures var s := After(o, init, n);
      NoFiniteLoss(o, init, n) ==> s.best == init && s.bestLoss == PosInf && s.bestEpoch == 0
    ensures var s := After(o, init, n);
      !NoFiniteLoss(o, init, n) ==>
        && FirstMinimal(o, init, n, s.bestEpoch)
        && s.bestLoss == Loss(o, init, s.bestEpoch)
        && s.best == Snapshot(o, init, s.bestEpoch)
  {
    FirstMinimumRecorded(o, init, n);
  }

  /** `RecordsFirstMinimum` holds after every number of epochs. */
  lemma {:induction false} FirstMinimumRecorded(o: Epochs, init: seq<real>, n: nat)
    ensures RecordsFirstMinimum(o, init, n)
    decreases n
  {
    if n > 0 {
      FirstMinimumRecorded(o, init, n - 1);
      FirstMinimumStep(o, init, n);
    }
  }

  /** Every epoch after the best one, up to epoch `n - 1`, failed to improve. */
  lemma NonImprovingSinceBest(o: Epochs, init: seq<real>, n: nat, e: nat)
    requires After(o, init, n).bestEpoch < e < n
    ensures !Improves(o, init, e)
  {
    if Improves(o, init, e) {
      assert After(o, init, e + 1).bestEpoch == e;
      BestNeverRegresses(o, init, e + 1, n);
    }
  }

  /** Termination: the loop runs at most `epochs` epochs; it returns early
      exactly at the first epoch whose stopping test holds; otherwise it runs
      all `epochs`. */
  lemma {:induction false} RunFromTerminates(o: Epochs, init: seq<real>, epochs: int, threshold: int, e0: nat)
    requires e0 == 0 || e0 <= epochs
    requires forall e :: 0 <= e < e0 ==> !StopsAfter(o, init, threshold, e)
    ensures var out := RunFrom(o, init, epochs, threshold, e0);
      && out.epochsRun <= (if epochs > 0 then epochs else 0)
      && (!out.early ==> out.epochsRun == (if epochs > 0 then epochs else 0))
      && (out.early ==> out.epochsRun >= 1 && StopsAfter(o, init, threshold, out.epochsRun - 1))
      && (forall e :: 0 <= e < out.epochsRun && (out.early ==> e < out.epochsRun - 1) ==>
            !StopsAfter(o, init, threshold, e))
    decreases epochs - e0
  {
    if e0 < epochs && !StopsAfter(o, init, threshold, e0) {
      RunFromTerminates(o, init, epochs, threshold, e0 + 1);
    }
  }

  lemma RunTerminates(o: Epochs, init: seq<real>, epochs: int, threshold: int)
    ensures var out := Run(o, init, epochs, threshold);
      && out.epochsRun <= (if epochs > 0 then epochs else 0)
      && (!out.early ==> out.epochsRun == (if epochs > 0 then epochs else 0))
      && (out.early ==> out.epochsRun >= 1 && StopsAfter(o, init, threshold, out.epochsRun - 1))
      && (forall e :: 0 <= e < out.epochsRun && (out.early ==> e < out.epochsRun - 1) ==>
            !StopsAfter(o, init, threshold, e))
  {
    RunFromTerminates(o, init, epochs, threshold, 0);
  }

  /** An early stop comes after more than `threshold` epochs without
      improvement since the best epoch. */
  lemma EarlyStopPatience(o: Epochs, init: seq<real>, epochs: int, threshold: int)
    ensures var out := Run(o, init, epochs, threshold);
      var b := After(o, init, out.epochsRun).bestEpoch;
      out.early ==>
        && out.epochsRun - 1 - b >= threshold + 1
        && forall e: nat :: b < e < out.epochsRun ==> !Improves(o, init, e)
  {
    RunTerminates(o, init, epochs, threshold);
    var out := Run(o, init, epochs, threshold);
    forall e: nat | After(o, init, out.epochsRun).bestEpoch < e < out.epochsRun
      ensures !Improves(o, init, e)
    {
      NonImprovingSinceBest(o, init, out.epochsRun, e);
    }
  }

  /** The returned patch stays in [-1, 1] when the initial patch is. */
  lemma {:induction false} BestInRange(o: Epochs, init: seq<real>, n: nat)
    requires InRange(init)
    ensures InRange(After(o, init, n).best) && InRange(After(o, init, n).live)
    decreases n
  {
    if n > 0 {
      BestInRange(o, init, n - 1);
    }
  }

  /** One epoch with a non-negative patience ends on the epoch limit, not by
      early stopping. */
  lemma SingleEpochHitsLimit(o: Epochs, init: seq<real>, threshold: int)
    requires threshold >= 0
    ensures Run(o, init, 1, threshold) == Outcome(1, false)
  {
    assert After(o, init, 1).bestEpoch == 0;
  }

  /** The epoch loop of `TrainPatch` has reached epoch `e` in state `s`, and the
      run from there ends as the run from the start does. */
  ghost predicate Looping(o: Epochs, init: seq<real>, epochs: int, threshold: int, e: nat, s: State) {
    && s == After(o, init, e)
    && RunFrom(o, init, epochs, threshold, 0) == RunFrom(o, init, epochs, threshold, e)
  }

  /** One iteration of the epoch loop, as `TrainPatch` takes it. */
  lemma LoopStep(o: Epochs, init: seq<real>, epochs: int, threshold: int, e: nat, s: State)
    requires e < epochs
    requires Looping(o, init, epochs, threshold, e, s)
    ensures var s' := Next(o, s, e);
      && s' == After(o, init, e + 1)
      && (e - s'.bestEpoch > threshold ==> RunFrom(o, init, epochs, threshold, 0) == Outcome(e + 1, true))
      && (e - s'.bestEpoch <= threshold ==> Looping(o, init, epochs, threshold, e + 1, s'))
  {
  }

  /** The mutable state of `train_patch`: the caller's live patch tensor and the
      best-so-far fields. */
  class Trainer {
    const patch: LivePatch
    var bestValLoss: ExtReal
    var bestValEpoch: int
    var bestPatch: seq<real>

    ghost function Current(): State
      reads this, patch
    {
      State(patch.data, bestPatch, bestValLoss, bestValEpoch)
    }

    constructor (live: LivePatch)
      ensures patch == live
      ensures Current() == Start(live.data)
    {
      patch := live;
      bestValLoss := PosInf;
      bestValEpoch := 0;
      bestPatch := live.data;
    }

    /** The bookkeeping at the end of an epoch. */
    method EndEpoch(epoch: int, valLoss: ExtReal)
      modifies this, patch
      ensures Current() == Bookkeep(old(Current()), epoch, valLoss)
    {
      if Less(valLoss, bestValLoss) {
        bestValLoss := valLoss;
        bestValEpoch := epoch;
        bestPatch := patch.data;
      } else {
        patch.data := bestPatch;
      }
    }

    /** One epoch of the loop: training, validation (which clamps the patch)
        and the bookkeeping. */
    method RunEpoch(o: Epochs, epoch: nat)
      modifies this, patch
      ensures Current() == Next(o, old(Current()), epoch)
    {
      patch.data := o.train(epoch, patch.data);
      var valLoss := o.valLoss(epoch, patch.data);
      patch.data := Clamp(patch.data);
      EndEpoch(epoch, valLoss);
    }
  }

  /** `train_patch`: updates the caller's patch in place and returns the best
      patch. `ran` and `early` record how the loop ended. */
  method TrainPatch(o: Epochs, live: LivePatch, epochs: int, stopThreshold: int)
    returns (best: seq<real>, ghost ran: nat, ghost early: bool)
    modifies live
    ensures Run(o, old(live.data), epochs, stopThreshold) == Outcome(ran, early)
    ensures best == After(o, old(live.data), ran).best
    ensures live.data == After(o, old(live.data), ran).live
  {
    ghost var init := live.data;
    var t := new Trainer(live);
    var epoch := 0;
    while epoch < epochs
      invariant 0 <= epoch && (epoch == 0 || epoch <= epochs)
      invariant t.patch == live
      invariant Looping(o, init, epochs, stopThreshold, epoch, t.Current())
      decreases epochs - epoch
    {
      LoopStep(o, init, epochs, stopThreshold, epoch, t.Current());
      t.RunEpoch(o, epoch);
      if epoch - t.bestValEpoch > stopThreshold {
        best, ran, early := t.bestPatch, epoch + 1, true;
        return;
      }
      epoch := epoch + 1;
    }
    best, ran, early := t.bestPatch, epoch, false;
  }
}
