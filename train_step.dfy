/** `train_step`: one pass over the images of a batch. For each image it draws a
    transformation and a placement, scores the patched image, applies an
    optimizer step when there is an optimizer, clamps the patch, and adds the
    image's loss and success to running sums that are averaged at the end. */
module TrainStep {
  import opened ExtReals
  import opened Success
  import opened Patches

  /** Spatial dimensions (tensor dimensions 2 and 3). */
  datatype Shape = Shape(rows: int, cols: int)

  /** A host image: an opaque identity and its spatial shape. */
  datatype Image = Image(id: nat, shape: Shape)

  /** The random choices made for one image: an opaque draw standing for
      `random_transformation()`, and the placement offsets `x` and `y`. */
  datatype Draw = Draw(transform: nat, x: int, y: int)

  /** What the foreign code reports for one patched image: the value of
      `nll_loss` and the row of log-probabilities. */
  datatype Output = Output(loss: ExtReal, logProbs: seq<real>)

  /** The code outside the model: the spatial shape of `transform_patch` for a
      transformation draw, and the classifier with its loss on the image the
      patch was pasted into. */
  datatype Env = Env(
    transformedShape: (seq<real>, nat) -> Shape,
    classify: (seq<real>, Image, Draw) -> Output)

  /** `optimizer` is either `None` (the validation path) or produces the patch
      after `zero_grad`, `backward` and `step`. */
  datatype Optimizer = NoOptimizer | Optimizer(step: (seq<real>, Image, Draw) -> seq<real>)

  /** The exceptions the loop can raise:
      `torch.randint` with an empty range, `nll_loss` with a target outside the
      classes, `argmax` over no classes, and the final division by zero. */
  datatype StepError = PlacementRange | TargetOutOfRange | EmptyScores | DivisionByZero

  /** `nll_loss`'s default `ignore_index`. */
  const IgnoreIndex: int := -100

  datatype Averages = Averages(loss: ExtReal, success: real)
  datatype StepResult = Ok(value: Averages) | Err(error: StepError)

  /** Upper bounds (exclusive) of the placement draws. */
  function XBound(env: Env, patch: seq<real>, img: Image, t: nat): int {
    img.shape.rows - env.transformedShape(patch, t).rows
  }

  function YBound(env: Env, patch: seq<real>, img: Image, t: nat): int {
    img.shape.cols - env.transformedShape(patch, t).cols
  }

  /** When both ranges are non-empty, the offsets lie inside them, so the
      transformed patch lies strictly inside the image. */
  predicate DrawWithinRange(env: Env, patch: seq<real>, img: Image, d: Draw) {
    var s := env.transformedShape(patch, d.transform);
    (XBound(env, patch, img, d.transform) > 0 && YBound(env, patch, img, d.transform) > 0) ==>
      (0 <= d.x && d.x + s.rows < img.shape.rows && 0 <= d.y && d.y + s.cols < img.shape.cols)
  }

  datatype ImageOutcome = Good(patch: seq<real>, loss: ExtReal, success: real) | Bad(err: StepError)

  /** The work done for one image, given its draws. */
  function ImageStep(env: Env, opt: Optimizer, target: int, patch: seq<real>, img: Image, d: Draw): ImageOutcome
  {
    if XBound(env, patch, img, d.transform) <= 0 || YBound(env, patch, img, d.transform) <= 0 then
      Bad(PlacementRange)
    else
      var out := env.classify(patch, img, d);
      if target != IgnoreIndex && !(0 <= target < |out.logProbs|) then Bad(TargetOutOfRange)
      else if |out.logProbs| == 0 then Bad(EmptyScores)
      else
        var loss := if target == IgnoreIndex then NaN else out.loss;
        var success := CalculateSuccess([out.logProbs], target).v;
        var stepped := match opt
          case NoOptimizer => patch
          case Optimizer(step) => step(patch, img, d);
        Good(Clamp(stepped), loss, success)
  }

  /** An image completes exactly when the placement range is non-empty in both
      directions, the scores are non-empty and the target is a class index or
      the ignored index; a completed image has a patch in [-1, 1] and a success
      in [0, 1], and without an optimizer its patch is the clamp of the input. */
  lemma ImageStepOutcome(env: Env, opt: Optimizer, target: int, patch: seq<real>, img: Image, d: Draw)
    ensures var o := ImageStep(env, opt, target, patch, img, d);
      && (o.Good? <==> (
        && XBound(env, patch, img, d.transform) > 0
        && YBound(env, patch, img, d.transform) > 0
        && |env.classify(patch, img, d).logProbs| > 0
        && (target == IgnoreIndex || 0 <= target < |env.classify(patch, img, d).logProbs|)))
      && (o.Good? ==> InRange(o.patch) && 0.0 <= o.success <= 1.0)
      && (o.Good? && opt.NoOptimizer? ==> o.patch == Clamp(patch))
  {
  }

  /** The patch and running sums after a prefix of the images, or the patch
      at the point an exception was raised. */
  datatype StepsState =
    | Running(patch: seq<real>, lossSum: ExtReal, successSum: real)
    | Halted(patch: seq<real>, err: StepError)

  /** The loop over `images` as a left fold, the i-th image using `draws[i]`. */
  function Steps(env: Env, opt: Optimizer, target: int, p0: seq<real>, images: seq<Image>, draws: seq<Draw>): StepsState
    requires |images| == |draws|
    decreases |images|
  {
    if |images| == 0 then Running(p0, Num(0.0), 0.0)
    else
      var n := |images| - 1;
      Advance(env, opt, target, Steps(env, opt, target, p0, images[..n], draws[..n]), images[n], draws[n])
  }

  /** One iteration of the loop: a halted state stays halted; otherwise the
      image either raises or adds its loss and success to the sums. */
  function Advance(env: Env, opt: Optimizer, target: int, st: StepsState, img: Image, d: Draw): StepsState {
    match st
    case Halted(_, _) => st
    case Running(p, l, s) =>
      match ImageStep(env, opt, target, p, img, d)
      case Bad(e) => Halted(p, e)
      case Good(p', loss, success) => Running(p', Add(l, loss), s + success)
  }

  /** The division of the running sums by the count, or the exception. */
  function Finish(st: StepsState, n: nat): StepResult {
    match st
    case Halted(_, e) => Err(e)
    case Running(_, l, s) =>
      if n == 0 then Err(DivisionByZero) else Ok(Averages(DivBy(l, n), s / n as real))
  }

  /** Once the loop has raised, later images change nothing. */
  lemma {:induction false} HaltedPersists(env: Env, opt: Optimizer, target: int, p0: seq<real>,
                                          images: seq<Image>, draws: seq<Draw>, j: nat)
    requires |images| == |draws| && j <= |images|
    requires Steps(env, opt, target, p0, images[..j], draws[..j]).Halted?
    ensures Steps(env, opt, target, p0, images, draws) == Steps(env, opt, target, p0, images[..j], draws[..j])
    decreases |images|
  {
    if j < |images| {
      var n := |images| - 1;
      assert images[..n][..j] == images[..j] && draws[..n][..j] == draws[..j];
      HaltedPersists(env, opt, target, p0, images[..n], draws[..n], j);
    } else {
      assert images[..j] == images && draws[..j] == draws;
    }
  }

  /** The running success sum counts at most one per image, and the patch is
      in [-1, 1] once an image has been processed (or from the start, if the
      initial patch already was). */
  lemma {:induction false} StepsBounds(env: Env, opt: Optimizer, target: int, p0: seq<real>,
                                       images: seq<Image>, draws: seq<Draw>)
    requires |images| == |draws|
    ensures var st := Steps(env, opt, target, p0, images, draws);
      && (st.Running? ==> 0.0 <= st.successSum <= |images| as real)
      && (InRange(p0) ==> InRange(st.patch))
      && (st.Running? && |images| > 0 ==> InRange(st.patch))
    decreases |images|
  {
    if |images| > 0 {
      var n := |images| - 1;
      StepsBounds(env, opt, target, p0, images[..n], draws[..n]);
    }
  }

  /** Without an optimizer the patch is only clamped: it is the initial patch
      or its clamp, and its clamp once any image has been processed. */
  lemma {:induction false} ValidationOnlyClamps(env: Env, target: int, p0: seq<real>,
                                                images: seq<Image>, draws: seq<Draw>)
    requires |images| == |draws|
    ensures var st := Steps(env, NoOptimizer, target, p0, images, draws);
      && (st.patch == p0 || st.patch == Clamp(p0))
      && (st.Running? && |images| > 0 ==> st.patch == Clamp(p0))
    decreases |images|
  {
    if |images| > 0 {
      var n := |images| - 1;
      ValidationOnlyClamps(env, target, p0, images[..n], draws[..n]);
      ClampIdempotent(p0);
    }
  }

  lemma MeanInUnit(sum: real, n: nat)
    requires 0 < n && 0.0 <= sum <= n as real
    ensures 0.0 <= sum / n as real <= 1.0
  {
    assert sum / n as real * n as real == sum;
  }

  /** The averaged success of a completed batch lies in [0, 1], and the patch
      is then in [-1, 1]. */
  lemma BatchAveragesInRange(env: Env, opt: Optimizer, target: int, p0: seq<real>,
                             images: seq<Image>, draws: seq<Draw>)
    requires |images| == |draws|
    ensures var st := Steps(env, opt, target, p0, images, draws);
      Finish(st, |images|).Ok? ==>
        && 0.0 <= Finish(st, |images|).value.success <= 1.0
        && InRange(st.patch)
  {
    StepsBounds(env, opt, target, p0, images, draws);
    var st := Steps(env, opt, target, p0, images, draws);
    if Finish(st, |images|).Ok? {
      MeanInUnit(st.successSum, |images|);
    }
  }

  /** The k-th image's placement was drawn inside its ranges, if the loop
      reached that image. */
  ghost predicate PlacedWithinRange(env: Env, opt: Optimizer, target: int, p0: seq<real>,
                                    images: seq<Image>, draws: seq<Draw>, k: nat)
    requires k < |images| && k < |draws|
  {
    var st := Steps(env, opt, target, p0, images[..k], draws[..k]);
    st.Running? ==> DrawWithinRange(env, st.patch, images[k], draws[k])
  }

  lemma PlacedWithinRangeExtends(env: Env, opt: Optimizer, target: int, p0: seq<real>,
                                 images: seq<Image>, draws: seq<Draw>, more: seq<Draw>, k: nat)
    requires k < |images| && k < |draws|
    ensures PlacedWithinRange(env, opt, target, p0, images, draws + more, k)
      == PlacedWithinRange(env, opt, target, p0, images, draws, k)
  {
    assert (draws + more)[..k] == draws[..k];
  }

  /** After an exception at image i, padding the draws changes nothing. */
  lemma HaltedPadding(env: Env, opt: Optimizer, target: int, p0: seq<real>,
                      images: seq<Image>, draws: seq<Draw>, pad: seq<Draw>)
    requires 0 < |draws| <= |images| && |pad| == |images| - |draws|
    requires Steps(env, opt, target, p0, images[..|draws|], draws).Halted?
    requires forall k :: 0 <= k < |draws| ==> PlacedWithinRange(env, opt, target, p0, images, draws, k)
    ensures Steps(env, opt, target, p0, images, draws + pad) == Steps(env, opt, target, p0, images[..|draws|], draws)
    ensures forall k :: 0 <= k < |images| ==> PlacedWithinRange(env, opt, target, p0, images, draws + pad, k)
  {
    var all := draws + pad;
    var j := |draws|;
    assert all[..j] == draws;
    HaltedPersists(env, opt, target, p0, images, all, j);
    forall k | 0 <= k < |images|
      ensures PlacedWithinRange(env, opt, target, p0, images, all, k)
    {
      if k < j {
        PlacedWithinRangeExtends(env, opt, target, p0, images, draws, pad, k);
      } else {
        assert images[..k][..j] == images[..j] && all[..k][..j] == draws;
        HaltedPersists(env, opt, target, p0, images[..k], all[..k], j);
      }
    }
  }

  /** The fold over one more image is one more `Advance`. */
  lemma StepsSnoc(env: Env, opt: Optimizer, target: int, p0: seq<real>,
                  images: seq<Image>, draws: seq<Draw>, d: Draw)
    requires |draws| < |images|
    ensures Steps(env, opt, target, p0, images[..|draws| + 1], draws + [d]) ==
      Advance(env, opt, target, Steps(env, opt, target, p0, images[..|draws|], draws), images[|draws|], d)
  {
    var i := |draws|;
    assert images[..i + 1][..i] == images[..i];
    assert (draws + [d])[..i] == draws;
  }

  lemma PlacementsExtend(env: Env, opt: Optimizer, target: int, p0: seq<real>,
                         images: seq<Image>, draws: seq<Draw>, d: Draw, p: seq<real>)
    requires |draws| < |images|
    requires Steps(env, opt, target, p0, images[..|draws|], draws).patch == p
    requires DrawWithinRange(env, p, images[|draws|], d)
    requires forall k :: 0 <= k < |draws| ==> PlacedWithinRange(env, opt, target, p0, images, draws, k)
    ensures forall k :: 0 <= k < |draws| + 1 ==> PlacedWithinRange(env, opt, target, p0, images, draws + [d], k)
  {
    var i := |draws|;
    assert (draws + [d])[..i] == draws;
    forall k | 0 <= k < i + 1
      ensures PlacedWithinRange(env, opt, target, p0, images, draws + [d], k)
    {
      if k < i {
        PlacedWithinRangeExtends(env, opt, target, p0, images, draws, [d], k);
      }
    }
  }

  /** The loop invariant of `train_step` after `|draws|` images. */
  ghost predicate Progress(env: Env, opt: Optimizer, target: int, p0: seq<real>,
                           images: seq<Image>, draws: seq<Draw>, p: seq<real>, l: ExtReal, s: real)
  {
    && |draws| <= |images|
    && Steps(env, opt, target, p0, images[..|draws|], draws) == Running(p, l, s)
    && (forall k :: 0 <= k < |draws| ==> PlacedWithinRange(env, opt, target, p0, images, draws, k))
  }

  /** A completed image extends the fold and keeps every placement in range. */
  lemma GoodStepExtends(env: Env, opt: Optimizer, target: int, p0: seq<real>,
                        images: seq<Image>, draws: seq<Draw>, d: Draw,
                        p: seq<real>, l: ExtReal, s: real, o: ImageOutcome)
    requires Progress(env, opt, target, p0, images, draws, p, l, s) && |draws| < |images|
    requires o == ImageStep(env, opt, target, p, images[|draws|], d) && o.Good?
    requires DrawWithinRange(env, p, images[|draws|], d)
    ensures Progress(env, opt, target, p0, images, draws + [d], o.patch, Add(l, o.loss), s + o.success)
  {
    var i := |draws|;
    assert Steps(env, opt, target, p0, images[..i + 1], draws + [d]) == Running(o.patch, Add(l, o.loss), s + o.success) by {
      StepsSnoc(env, opt, target, p0, images, draws, d);
      AdvanceGood(env, opt, target, p, l, s, images[i], d, o);
    }
    assert forall k :: 0 <= k < i + 1 ==> PlacedWithinRange(env, opt, target, p0, images, draws + [d], k) by {
      PlacementsExtend(env, opt, target, p0, images, draws, d, p);
    }
  }

  lemma AdvanceGood(env: Env, opt: Optimizer, target: int, p: seq<real>, l: ExtReal, s: real,
                    img: Image, d: Draw, o: ImageOutcome)
    requires o == ImageStep(env, opt, target, p, img, d) && o.Good?
    ensures Advance(env, opt, target, Running(p, l, s), img, d) == Running(o.patch, Add(l, o.loss), s + o.success)
  {
  }

  /** What `train_step` promises about one batch: with the draws it made, the
      new patch and the result are the fold `Steps` followed by `Finish`;
      every placement the loop reached lies in range; and a completed batch
      has an averaged success in [0, 1] and a patch in [-1, 1]. */
  ghost predicate BatchSpec(env: Env, opt: Optimizer, target: int, p0: seq<real>,
                            images: seq<Image>, draws: seq<Draw>, p: seq<real>, r: StepResult)
  {
    && |draws| == |images|
    && p == Steps(env, opt, target, p0, images, draws).patch
    && r == Finish(Steps(env, opt, target, p0, images, draws), |images|)
    && (forall k :: 0 <= k < |images| ==> PlacedWithinRange(env, opt, target, p0, images, draws, k))
    && (r.Ok? ==> 0.0 <= r.value.success <= 1.0 && InRange(p))
  }

  /** A batch whose every image completed meets `BatchSpec`. */
  lemma CompletedBatch(env: Env, opt: Optimizer, target: int, p0: seq<real>,
                       images: seq<Image>, draws: seq<Draw>, p: seq<real>, l: ExtReal, s: real)
    requires Progress(env, opt, target, p0, images, draws, p, l, s) && |draws| == |images|
    ensures BatchSpec(env, opt, target, p0, images, draws, p,
                      if |images| == 0 then Err(DivisionByZero)
                      else Ok(Averages(DivBy(l, |images|), s / |images| as real)))
  {
    assert images[..|images|] == images;
    BatchAveragesInRange(env, opt, target, p0, images, draws);
  }

  /** An image that raises halts the fold; the padded draws change nothing. */
  lemma BadStepHalts(env: Env, opt: Optimizer, target: int, p0: seq<real>,
                     images: seq<Image>, draws: seq<Draw>, d: Draw,
                     p: seq<real>, l: ExtReal, s: real, o: ImageOutcome, pad: seq<Draw>)
    requires Progress(env, opt, target, p0, images, draws, p, l, s) && |draws| < |images|
    requires o == ImageStep(env, opt, target, p, images[|draws|], d) && o.Bad?
    requires DrawWithinRange(env, p, images[|draws|], d)
    requires |pad| == |images| - |draws| - 1
    ensures BatchSpec(env, opt, target, p0, images, draws + [d] + pad, p, Err(o.err))
  {
    StepsSnoc(env, opt, target, p0, images, draws, d);
    PlacementsExtend(env, opt, target, p0, images, draws, d, p);
    HaltedPadding(env, opt, target, p0, images, draws + [d], pad);
  }

  /** The body of the loop for one image: draw, score, step and clamp. */
  method RunImageStep(env: Env, opt: Optimizer, target: int, img: Image, patch: LivePatch)
    returns (o: ImageOutcome, d: Draw)
    modifies patch
    ensures o == ImageStep(env, opt, target, old(patch.data), img, d)
    ensures DrawWithinRange(env, old(patch.data), img, d)
    ensures patch.data == if o.Good? then o.patch else old(patch.data)
  {
    var t: nat :| true;
    var s := env.transformedShape(patch.data, t);
    var xHigh := img.shape.rows - s.rows;
    if xHigh <= 0 {
      return Bad(PlacementRange), Draw(t, 0, 0);
    }
    var x :| 0 <= x < xHigh;
    var yHigh := img.shape.cols - s.cols;
    if yHigh <= 0 {
      return Bad(PlacementRange), Draw(t, x, 0);
    }
    var y :| 0 <= y < yHigh;
    d := Draw(t, x, y);
    var out := env.classify(patch.data, img, d);
    if target != IgnoreIndex && !(0 <= target < |out.logProbs|) {
      return Bad(TargetOutOfRange), d;
    }
    if |out.logProbs| == 0 {
      return Bad(EmptyScores), d;
    }
    var loss := if target == IgnoreIndex then NaN else out.loss;
    var success := CalculateSuccess([out.logProbs], target);
    match opt {
      case NoOptimizer =>
      case Optimizer(step) =>
        patch.data := step(patch.data, img, d);
    }
    patch.data := Clamp(patch.data);
    o := Good(patch.data, loss, success.v);
  }

  /** `train_step`. The random draws it makes are returned in `draws`
      (entries after an exception are never used). */
  method RunTrainStep(env: Env, opt: Optimizer, target: int, images: seq<Image>, patch: LivePatch)
    returns (r: StepResult, ghost draws: seq<Draw>)
    modifies patch
    ensures BatchSpec(env, opt, target, old(patch.data), images, draws, patch.data, r)
  {
    ghost var p0 := patch.data;
    var lossSum := Num(0.0);
    var successSum := 0.0;
    var i := 0;
    draws := [];
    while i < |images|
      invariant i == |draws|
      invariant Progress(env, opt, target, p0, images, draws, patch.data, lossSum, successSum)
    {
      ghost var before := patch.data;
      var o, d := RunImageStep(env, opt, target, images[i], patch);
      if o.Bad? {
        ghost var pad := seq(|images| - (i + 1), _ => Draw(0, 0, 0));
        BadStepHalts(env, opt, target, p0, images, draws, d, before, lossSum, successSum, o, pad);
        draws := draws + [d] + pad;
        r := Err(o.err);
        return;
      }
      GoodStepExtends(env, opt, target, p0, images, draws, d, before, lossSum, successSum, o);
      lossSum := Add(lossSum, o.loss);
      successSum := successSum + o.success;
      draws := draws + [d];
      i := i + 1;
    }
    CompletedBatch(env, opt, target, p0, images, draws, patch.data, lossSum, successSum);
    if |images| == 0 {
      r := Err(DivisionByZero);
    } else {
      r := Ok(Averages(DivBy(lossSum, |images|), successSum / |images| as real));
    }
  }
}
