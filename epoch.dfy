/** `train` and `val`: one pass of `train_step` over every batch of a loader,
    with the batch averages summed and divided by the number of batches. */
module Epoch {
  import opened ExtReals
  import opened Patches
  import opened TrainStep

  predicate DrawsFit(loader: seq<seq<Image>>, draws: seq<seq<Draw>>) {
    |draws| == |loader| && forall b :: 0 <= b < |loader| ==> |draws[b]| == |loader[b]|
  }

  /** The loop over batches as a left fold of `Steps` and `Finish`. */
  function Batches(env: Env, opt: Optimizer, target: int, p0: seq<real>,
                   loader: seq<seq<Image>>, draws: seq<seq<Draw>>): StepsState
    requires DrawsFit(loader, draws)
    decreases |loader|
  {
    if |loader| == 0 then Running(p0, Num(0.0), 0.0)
    else
      var n := |loader| - 1;
      assert DrawsFit(loader[..n], draws[..n]);
      AdvanceBatch(env, opt, target, Batches(env, opt, target, p0, loader[..n], draws[..n]), loader[n], draws[n])
  }

  /** One iteration of the loop over batches: `train_step` on the batch, whose
      averages are added to the sums, unless it raises. */
  function AdvanceBatch(env: Env, opt: Optimizer, target: int, prev: StepsState,
                        images: seq<Image>, d: seq<Draw>): StepsState
    requires |images| == |d|
  {
    match prev
    case Halted(_, _) => prev
    case Running(p, l, s) =>
      var st := Steps(env, opt, target, p, images, d);
      match Finish(st, |images|)
      case Err(e) => Halted(st.patch, e)
      case Ok(a) => Running(st.patch, Add(l, a.loss), s + a.success)
  }

  lemma {:induction false} BatchesHaltedPersists(env: Env, opt: Optimizer, target: int, p0: seq<real>,
                                                 loader: seq<seq<Image>>, draws: seq<seq<Draw>>, j: nat)
    requires DrawsFit(loader, draws) && j <= |loader|
    requires DrawsFit(loader[..j], draws[..j])
    requires Batches(env, opt, target, p0, loader[..j], draws[..j]).Halted?
    ensures Batches(env, opt, target, p0, loader, draws) == Batches(env, opt, target, p0, loader[..j], draws[..j])
    decreases |loader|
  {
    if j < |loader| {
      var n := |loader| - 1;
      assert loader[..n][..j] == loader[..j] && draws[..n][..j] == draws[..j];
      assert DrawsFit(loader[..n], draws[..n]);
      BatchesHaltedPersists(env, opt, target, p0, loader[..n], draws[..n], j);
    } else {
      assert loader[..j] == loader && draws[..j] == draws;
    }
  }

  /** The summed batch successes count at most one per batch, and the patch is
      in [-1, 1] once a batch has completed (or from the start, if the initial
      patch already was). */
  lemma {:induction false} BatchesBounds(env: Env, opt: Optimizer, target: int, p0: seq<real>,
                                         loader: seq<seq<Image>>, draws: seq<seq<Draw>>)
    requires DrawsFit(loader, draws)
    ensures var st := Batches(env, opt, target, p0, loader, draws);
      && (st.Running? ==> 0.0 <= st.successSum <= |loader| as real)
      && (InRange(p0) ==> InRange(st.patch))
      && (st.Running? && |loader| > 0 ==> InRange(st.patch))
    decreases |loader|
  {
    if |loader| > 0 {
      var n := |loader| - 1;
      assert DrawsFit(loader[..n], draws[..n]);
      BatchesBounds(env, opt, target, p0, loader[..n], draws[..n]);
      var prev := Batches(env, opt, target, p0, loader[..n], draws[..n]);
      if prev.Running? {
        StepsBounds(env, opt, target, prev.patch, loader[n], draws[n]);
        BatchAveragesInRange(env, opt, target, prev.patch, loader[n], draws[n]);
      }
    }
  }

  /** Without an optimizer the patch is the initial patch or its clamp, and its
      clamp once a batch has completed. */
  lemma {:induction false} BatchesValidationOnlyClamps(env: Env, target: int, p0: seq<real>,
                                                       loader: seq<seq<Image>>, draws: seq<seq<Draw>>)
    requires DrawsFit(loader, draws)
    ensures var st := Batches(env, NoOptimizer, target, p0, loader, draws);
      && (st.patch == p0 || st.patch == Clamp(p0))
      && (st.Running? && |loader| > 0 ==> st.patch == Clamp(p0))
    decreases |loader|
  {
    if |loader| > 0 {
      var n := |loader| - 1;
      assert DrawsFit(loader[..n], draws[..n]);
      BatchesValidationOnlyClamps(env, target, p0, loader[..n], draws[..n]);
      var prev := Batches(env, NoOptimizer, target, p0, loader[..n], draws[..n]);
      if prev.Running? {
        ValidationOnlyClamps(env, target, prev.patch, loader[n], draws[n]);
        ClampIdempotent(p0);
      }
    }
  }

  /** The epoch averages: the success lies in [0, 1] and the patch in [-1, 1];
      without an optimizer the patch is exactly the clamp of the initial one. */
  lemma EpochAveragesInRange(env: Env, opt: Optimizer, target: int, p0: seq<real>,
                             loader: seq<seq<Image>>, draws: seq<seq<Draw>>)
    requires DrawsFit(loader, draws)
    ensures var st := Batches(env, opt, target, p0, loader, draws);
      Finish(st, |loader|).Ok? ==>
        && 0.0 <= Finish(st, |loader|).value.success <= 1.0
        && InRange(st.patch)
        && (opt.NoOptimizer? ==> st.patch == Clamp(p0))
  {
    BatchesBounds(env, opt, target, p0, loader, draws);
    var st := Batches(env, opt, target, p0, loader, draws);
    if Finish(st, |loader|).Ok? {
      MeanInUnit(st.successSum, |loader|);
      if opt.NoOptimizer? {
        BatchesValidationOnlyClamps(env, target, p0, loader, draws);
      }
    }
  }

  /** Every placement of batch `b` lies in its range, if the loop reaches
      that batch. */
  ghost predicate BatchPlaced(env: Env, opt: Optimizer, target: int, p0: seq<real>,
                              loader: seq<seq<Image>>, draws: seq<seq<Draw>>, b: nat)
    requires DrawsFit(loader, draws) && b < |loader|
  {
    assert DrawsFit(loader[..b], draws[..b]);
    var st := Batches(env, opt, target, p0, loader[..b], draws[..b]);
    st.Running? ==>
      forall k :: 0 <= k < |loader[b]| ==> PlacedWithinRange(env, opt, target, st.patch, loader[b], draws[b], k)
  }

  /** Every placement the loop over batches reaches lies in its range. */
  ghost predicate LoaderPlaced(env: Env, opt: Optimizer, target: int, p0: seq<real>,
                               loader: seq<seq<Image>>, draws: seq<seq<Draw>>)
    requires DrawsFit(loader, draws)
  {
    forall b :: 0 <= b < |loader| ==> BatchPlaced(env, opt, target, p0, loader, draws, b)
  }

  /** `BatchPlaced` depends only on the batches up to `b` and their draws. */
  lemma BatchPlacedPrefix(env: Env, opt: Optimizer, target: int, p0: seq<real>,
                          loader: seq<seq<Image>>, draws: seq<seq<Draw>>,
                          loader': seq<seq<Image>>, draws': seq<seq<Draw>>, b: nat)
    requires DrawsFit(loader, draws) && DrawsFit(loader', draws')
    requires b < |loader| && b < |loader'|
    requires loader[..b + 1] == loader'[..b + 1] && draws[..b + 1] == draws'[..b + 1]
    ensures BatchPlaced(env, opt, target, p0, loader, draws, b) == BatchPlaced(env, opt, target, p0, loader', draws', b)
  {
    assert loader[..b] == loader[..b + 1][..b] == loader'[..b + 1][..b] == loader'[..b];
    assert draws[..b] == draws[..b + 1][..b] == draws'[..b + 1][..b] == draws'[..b];
    assert loader[b] == loader[..b + 1][b] && loader'[b] == loader'[..b + 1][b];
    assert draws[b] == draws[..b + 1][b] && draws'[b] == draws'[..b + 1][b];
  }

  /** A batch whose placements lie in range extends `LoaderPlaced`. */
  lemma LoaderPlacedSnoc(env: Env, opt: Optimizer, target: int, p0: seq<real>,
                         loader: seq<seq<Image>>, draws: seq<seq<Draw>>, d: seq<Draw>)
    requires |draws| < |loader| && DrawsFit(loader[..|draws|], draws) && |d| == |loader[|draws|]|
    requires LoaderPlaced(env, opt, target, p0, loader[..|draws|], draws)
    requires var st := Batches(env, opt, target, p0, loader[..|draws|], draws);
      st.Running? ==>
        forall k :: 0 <= k < |d| ==> PlacedWithinRange(env, opt, target, st.patch, loader[|draws|], d, k)
    ensures DrawsFit(loader[..|draws| + 1], draws + [d])
    ensures LoaderPlaced(env, opt, target, p0, loader[..|draws| + 1], draws + [d])
  {
    var i := |draws|;
    var l, ds := loader[..i + 1], draws + [d];
    assert DrawsFit(l, ds);
    forall b | 0 <= b < i + 1
      ensures BatchPlaced(env, opt, target, p0, l, ds, b)
    {
      if b < i {
        BatchPlacedPrefix(env, opt, target, p0, l, ds, loader[..i], draws, b);
      } else {
        assert l[..i] == loader[..i] && ds[..i] == draws;
        assert l[i] == loader[i] && ds[i] == d;
      }
    }
  }

  /** Past a batch that raised, `BatchPlaced` holds: the loop never got there. */
  lemma HaltedBatchPlaced(env: Env, opt: Optimizer, target: int, p0: seq<real>,
                          loader: seq<seq<Image>>, draws: seq<seq<Draw>>, j: nat, b: nat)
    requires DrawsFit(loader, draws) && j <= b < |loader|
    requires DrawsFit(loader[..j], draws[..j])
    requires Batches(env, opt, target, p0, loader[..j], draws[..j]).Halted?
    ensures BatchPlaced(env, opt, target, p0, loader, draws, b)
  {
    var l, ds := loader[..b], draws[..b];
    assert DrawsFit(l, ds);
    assert l[..j] == loader[..j] && ds[..j] == draws[..j];
    BatchesHaltedPersists(env, opt, target, p0, l, ds, j);
  }

  lemma BatchesSnoc(env: Env, opt: Optimizer, target: int, p0: seq<real>,
                    loader: seq<seq<Image>>, draws: seq<seq<Draw>>, d: seq<Draw>)
    requires |draws| < |loader| && DrawsFit(loader[..|draws|], draws) && |d| == |loader[|draws|]|
    ensures DrawsFit(loader[..|draws| + 1], draws + [d])
    ensures Batches(env, opt, target, p0, loader[..|draws| + 1], draws + [d]) ==
      AdvanceBatch(env, opt, target, Batches(env, opt, target, p0, loader[..|draws|], draws), loader[|draws|], d)
  {
    var i := |draws|;
    assert loader[..i + 1][..i] == loader[..i];
    assert (draws + [d])[..i] == draws;
  }

  /** After a batch raises, padding the draws for the remaining batches
      changes nothing. */
  lemma LoaderHaltPadding(env: Env, opt: Optimizer, target: int, p0: seq<real>,
                          loader: seq<seq<Image>>, done: seq<seq<Draw>>)
    returns (all: seq<seq<Draw>>)
    requires |done| <= |loader| && DrawsFit(loader[..|done|], done)
    requires Batches(env, opt, target, p0, loader[..|done|], done).Halted?
    requires LoaderPlaced(env, opt, target, p0, loader[..|done|], done)
    ensures DrawsFit(loader, all)
    ensures Batches(env, opt, target, p0, loader, all) == Batches(env, opt, target, p0, loader[..|done|], done)
    ensures LoaderPlaced(env, opt, target, p0, loader, all)
  {
    var j := |done|;
    var rest := loader[j..];
    var pad := seq(|rest|, k requires 0 <= k < |rest| => seq(|rest[k]|, _ => Draw(0, 0, 0)));
    all := done + pad;
    assert all[..j] == done;
    forall k | 0 <= k < |loader|
      ensures |all[k]| == |loader[k]|
    {
      if k >= j {
        assert loader[k] == rest[k - j];
      }
    }
    BatchesHaltedPersists(env, opt, target, p0, loader, all, j);
    forall b | 0 <= b < |loader|
      ensures BatchPlaced(env, opt, target, p0, loader, all, b)
    {
      if b < j {
        assert all[..b + 1] == done[..b + 1];
        BatchPlacedPrefix(env, opt, target, p0, loader, all, loader[..j], done, b);
      } else {
        HaltedBatchPlaced(env, opt, target, p0, loader, all, j, b);
      }
    }
  }

  /** The loop shared by `train` and `val`; `opt` is the optimizer `train`
      passes to `train_step`, or `NoOptimizer` for `val`. */
  method RunLoader(env: Env, opt: Optimizer, target: int, loader: seq<seq<Image>>, patch: LivePatch)
    returns (r: StepResult, ghost draws: seq<seq<Draw>>)
    modifies patch
    ensures DrawsFit(loader, draws)
    ensures patch.data == Batches(env, opt, target, old(patch.data), loader, draws).patch
    ensures r == Finish(Batches(env, opt, target, old(patch.data), loader, draws), |loader|)
    ensures r.Ok? ==> 0.0 <= r.value.success <= 1.0 && InRange(patch.data)
    ensures r.Ok? && opt.NoOptimizer? ==> patch.data == Clamp(old(patch.data))
    ensures LoaderPlaced(env, opt, target, old(patch.data), loader, draws)
  {
    ghost var p0 := patch.data;
    var lossSum := Num(0.0);
    var successSum := 0.0;
    var b := 0;
    draws := [];
    while b < |loader|
      invariant 0 <= b <= |loader| && |draws| == b
      invariant DrawsFit(loader[..b], draws)
      invariant Batches(env, opt, target, p0, loader[..b], draws) == Running(patch.data, lossSum, successSum)
      invariant LoaderPlaced(env, opt, target, p0, loader[..b], draws)
    {
      var br, d := RunTrainStep(env, opt, target, loader[b], patch);
      BatchesSnoc(env, opt, target, p0, loader, draws, d);
      LoaderPlacedSnoc(env, opt, target, p0, loader, draws, d);
      if br.Err? {
        draws := LoaderHaltPadding(env, opt, target, p0, loader, draws + [d]);
        r := Err(br.error);
        return;
      }
      lossSum := Add(lossSum, br.value.loss);
      successSum := successSum + br.value.success;
      draws := draws + [d];
      b := b + 1;
    }
    assert loader[..b] == loader;
    EpochAveragesInRange(env, opt, target, p0, loader, draws);
    if |loader| == 0 {
      r := Err(DivisionByZero);
    } else {
      r := Ok(Averages(DivBy(lossSum, |loader|), successSum / |loader| as real));
    }
  }

  /** `train`: the loader pass with the optimizer. */
  method Train(env: Env, step: (seq<real>, Image, Draw) -> seq<real>, target: int,
               loader: seq<seq<Image>>, patch: LivePatch)
    returns (r: StepResult, ghost draws: seq<seq<Draw>>)
    modifies patch
    ensures DrawsFit(loader, draws)
    ensures patch.data == Batches(env, Optimizer(step), target, old(patch.data), loader, draws).patch
    ensures r == Finish(Batches(env, Optimizer(step), target, old(patch.data), loader, draws), |loader|)
    ensures r.Ok? ==> 0.0 <= r.value.success <= 1.0 && InRange(patch.data)
    ensures LoaderPlaced(env, Optimizer(step), target, old(patch.data), loader, draws)
  {
    r, draws := RunLoader(env, Optimizer(step), target, loader, patch);
  }

  /** `val`: the loader pass without an optimizer, which only clamps the patch. */
  method Val(env: Env, target: int, loader: seq<seq<Image>>, patch: LivePatch)
    returns (r: StepResult, ghost draws: seq<seq<Draw>>)
    modifies patch
    ensures DrawsFit(loader, draws)
    ensures patch.data == Batches(env, NoOptimizer, target, old(patch.data), loader, draws).patch
    ensures r == Finish(Batches(env, NoOptimizer, target, old(patch.data), loader, draws), |loader|)
    ensures r.Ok? ==> 0.0 <= r.value.success <= 1.0 && patch.data == Clamp(old(patch.data))
    ensures LoaderPlaced(env, NoOptimizer, target, old(patch.data), loader, draws)
  {
    r, draws := RunLoader(env, NoOptimizer, target, loader, patch);
  }
}
