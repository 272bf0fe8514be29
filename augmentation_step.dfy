/**
 * One pass of the loop of `AugmentationDataset.__getitem__` in `buteo/ai/augmentation.py`: the
 * record's name selects the transform, cutmix and mixup draw a donor sample from the dataset,
 * the other entries are bound as keyword arguments, and the transform runs channel-first.
 */
module AugmentationStep {
  import opened Wrappers
  import opened Grids
  import opened Randomness
  import opened AugmentationFuncs
  import opened AugmentationArgs

  /**
   * The transform t with bound parameters on the sample (x, y), channel_last as given; cutmix and
   * mixup also receive the donor (xs, ys).
   */
  function Apply(h: Helpers, t: Transform, p: Params, x: Grid, y: Grid, xs: Grid, ys: Grid, channelLast: bool,
                 d: Draws): (r: Result<(Grid, Grid), Fault>)
    requires d.Valid()
  {
    match t
    case RotationT =>
      var s := Rotation(h, x, Some(y), p.chance, p.k, channelLast, d); Success((s.0, s.1.value))
    case MirrorT =>
      var s := Mirror(h, x, Some(y), p.chance, p.k, channelLast, d); Success((s.0, s.1.value))
    case ChannelScaleT =>
      var s := ChannelScaleSpec(h, x, Some(y), p.chance, p.maxAmount, p.additive, channelLast, d); Success((s.0, y))
    case NoiseT =>
      var s := Noise(h, x, Some(y), p.chance, p.maxAmount, p.additive, d); Success((s.0, y))
    case ContrastT =>
      var s := ContrastSpec(h, x, Some(y), p.chance, p.maxAmount, channelLast, d);
      if s.Failure? then Failure(s.error) else Success((s.value.0, y))
    case DropPixelT =>
      var s := DropPixelSpec(h, x, Some(y), p.chance, p.dropProbability, p.dropValue, d); Success((s.0, y))
    case DropChannelT =>
      var s := DropChannelSpec(h, x, Some(y), p.chance, p.dropProbability, p.dropValue, channelLast, d); Success((s.0, y))
    case BlurT =>
      var s := FilterSpec(h, x, Some(y), p.chance, h.blurKernel, p.intensity, channelLast, d.gate); Success((s.0, y))
    case BlurXYT => Success(BlurXY(h, x, y, p.chance, p.intensity, channelLast, d))
    case SharpenT =>
      var s := FilterSpec(h, x, Some(y), p.chance, h.unsharpKernel, p.intensity, channelLast, d.gate); Success((s.0, y))
    case SharpenXYT => Success(SharpenXY(h, x, y, p.chance, p.intensity, channelLast, d))
    case MisalignT =>
      var s := MisalignSpec(h, x, Some(y), p.chance, p.maxOffset, channelLast, d);
      if s.Failure? then Failure(s.error) else Success((s.value.0, s.value.1.value))
    case CutmixT =>
      CutmixSpec(h, x, y, xs, ys, p.chance, p.minSize, p.maxSize, p.labelMix, p.feather, p.featherDist, channelLast, d)
    case MixupT =>
      Mixup(h, x, y, xs, ys, p.minSize, p.maxSize, p.labelMix, p.chance, d)
  }

  /**
   * One pass of the loop of `__getitem__`: the name is looked up; for cutmix and mixup a donor
   * index randint(len(x_train)) is drawn and the donor read; the keywords are bound; the
   * transform runs with channel_last=False.
   */
  function Step(h: Helpers, aug: Augmentation, x: Grid, y: Grid, xTrain: seq<Grid>, yTrain: seq<Grid>, d: ValidDraws): (r: Result<(Grid, Grid), AugError>)
    ensures "name" !in aug ==> r == Failure(MissingName)
    ensures "name" in aug && TransformOf(aug["name"]).None? ==> r == Failure(Unsupported(aug["name"]))
  {
    if "name" !in aug then Failure(MissingName)
    else
      var t := TransformOf(aug["name"]);
      if t.None? then Failure(Unsupported(aug["name"]))
      else
        var donor := Donor(t.value, xTrain, yTrain, d);
        if donor.Failure? then Failure(donor.error)
        else
          var p := Bind(t.value, Kwargs(aug));
          if p.Failure? then Failure(p.error)
          else
            var s := Apply(h, t.value, p.value, x, y, donor.value.0, donor.value.1, false, d);
            if s.Failure? then Failure(TransformFailed(s.error)) else Success(s.value)
  }

  /**
   * The donor for cutmix and mixup: sample randint(len(x_train)) of x_train and y_train (an empty
   * dataset makes the dispatcher's randint fail; Item never gets here then, since its index check
   * already fails on an empty dataset). Other transforms draw nothing and get the sample itself, unused.
   */
  function Donor(t: Transform, xTrain: seq<Grid>, yTrain: seq<Grid>, d: ValidDraws): (r: Result<(Grid, Grid), AugError>)
    ensures r.Success? && TakesDonor(t) ==>
      exists n :: 0 <= n < |xTrain| && n < |yTrain| && r.value == (xTrain[n], yTrain[n])
  {
    if !TakesDonor(t) then Success((Tensor("float32", 0, 0, 0, []), Tensor("float32", 0, 0, 0, [])))
    else if |xTrain| == 0 then Failure(NoDonor)
    else
      var n := RandInt(0, |xTrain|, d.donor);
      if n >= |yTrain| then Failure(IndexOutOfRange(n)) else Success((xTrain[n], yTrain[n]))
  }

  /** Only cutmix and mixup see the dataset: for every other transform the step ignores it. */
  lemma StepIgnoresDataset(h: Helpers, aug: Augmentation, x: Grid, y: Grid, xTrain: seq<Grid>, yTrain: seq<Grid>,
                           xTrain': seq<Grid>, yTrain': seq<Grid>, d: ValidDraws)
    requires "name" in aug
    requires TransformOf(aug["name"]).Some? && !TakesDonor(TransformOf(aug["name"]).value)
    ensures Step(h, aug, x, y, xTrain, yTrain, d) == Step(h, aug, x, y, xTrain', yTrain', d)
  {
  }

  /** One pass of the loop as a value: a record, the current pair and its draws give the next pair. */
  type Stepper = (Augmentation, (Grid, Grid), ValidDraws) -> Result<(Grid, Grid), AugError>

  /** The pass of `__getitem__` over a dataset: Step with the dataset's samples as donors. */
  function StepperOf(h: Helpers, xTrain: seq<Grid>, yTrain: seq<Grid>): Stepper {
    (aug, pair: (Grid, Grid), d) => Step(h, aug, pair.0, pair.1, xTrain, yTrain, d)
  }

  /**
   * A step value that agrees with Step on the dataset, stated so that it only comes into play
   * where Step itself is mentioned.
   */
  ghost predicate Agrees(step: Stepper, h: Helpers, xTrain: seq<Grid>, yTrain: seq<Grid>) {
    forall aug, x, y, d {:trigger Step(h, aug, x, y, xTrain, yTrain, d)} ::
      step(aug, (x, y), d) == Step(h, aug, x, y, xTrain, yTrain, d)
  }

  lemma StepperAgrees(h: Helpers, xTrain: seq<Grid>, yTrain: seq<Grid>)
    ensures Agrees(StepperOf(h, xTrain, yTrain), h, xTrain, yTrain)
  {
  }

  /**
   * One pass of the loop as the program runs it, the imperative transforms called as methods; the
   * result is that of Step, through any step value that agrees with it.
   */
  method ApplyStep(h: Helpers, aug: Augmentation, x: Grid, y: Grid, xTrain: seq<Grid>, yTrain: seq<Grid>, d: ValidDraws,
                   ghost step: Stepper) returns (r: Result<(Grid, Grid), AugError>)
    requires Agrees(step, h, xTrain, yTrain)
    ensures r == step(aug, (x, y), d)
  {
    assert step(aug, (x, y), d) == Step(h, aug, x, y, xTrain, yTrain, d);
    if "name" !in aug {
      return Failure(MissingName);
    }
    var t := TransformOf(aug["name"]);
    if t.None? {
      return Failure(Unsupported(aug["name"]));
    }
    var donor := Donor(t.value, xTrain, yTrain, d);
    if donor.Failure? {
      return Failure(donor.error);
    }
    var p := Bind(t.value, Kwargs(aug));
    if p.Failure? {
      return Failure(p.error);
    }
    var s := ApplyTransform(h, t.value, p.value, x, y, donor.value.0, donor.value.1, d);
    r := if s.Failure? then Failure(TransformFailed(s.error)) else Success(s.value);
  }

  /** `x, y = func(x, y, [xx, yy,] channel_last=False, **kwargs)`. */
  method ApplyTransform(h: Helpers, t: Transform, p: Params, x: Grid, y: Grid, xs: Grid, ys: Grid, d: Draws)
    returns (r: Result<(Grid, Grid), Fault>)
    requires d.Valid()
    ensures r == Apply(h, t, p, x, y, xs, ys, false, d)
  {
    match t {
      case ChannelScaleT =>
        var s := ChannelScale(h, x, Some(y), p.chance, p.maxAmount, p.additive, false, d);
        r := Success((s.0, y));
      case ContrastT =>
        var s := Contrast(h, x, Some(y), p.chance, p.maxAmount, false, d);
        r := if s.Failure? then Failure(s.error) else Success((s.value.0, y));
      case DropPixelT =>
        var s := DropPixel(h, x, Some(y), p.chance, p.dropProbability, p.dropValue, d);
        r := Success((s.0, y));
      case DropChannelT =>
        var s := DropChannel(h, x, Some(y), p.chance, p.dropProbability, p.dropValue, false, d);
        r := Success((s.0, y));
      case BlurT =>
        var s := Blur(h, x, Some(y), p.chance, p.intensity, false, d);
        r := Success((s.0, y));
      case SharpenT =>
        var s := Sharpen(h, x, Some(y), p.chance, p.intensity, false, d);
        r := Success((s.0, y));
      case MisalignT =>
        var s := Misalign(h, x, Some(y), p.chance, p.maxOffset, false, d);
        r := if s.Failure? then Failure(s.error) else Success((s.value.0, s.value.1.value));
      case CutmixT =>
        r := Cutmix(h, x, y, xs, ys, p.chance, p.minSize, p.maxSize, p.labelMix, p.feather, p.featherDist, false, d);
      case _ =>
        r := Apply(h, t, p, x, y, xs, ys, false, d);
    }
  }
}
