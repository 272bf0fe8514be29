/**
 * The augmentation pipeline of `buteo/ai/augmentation.py`: a dataset of samples and labels that,
 * on every access, runs a list of augmentation records over one sample. Each record names a
 * transform and holds its keyword arguments; the transform is looked up by name, the remaining
 * entries are bound to its parameters, and cutmix and mixup also get a donor sample drawn from
 * the dataset.
 */
module Augmentation {
  import opened Wrappers
  import opened Grids
  import opened Randomness
  import opened AugmentationFuncs
  import opened AugmentationArgs
  import opened AugmentationStep
  import opened Pipeline

  /**
   * The loop of `__getitem__`: each record in turn applied to the pair the previous one produced,
   * stopping at the first error. The step is passed as a value that agrees with Step.
   */
  method RunAll(h: Helpers, augs: seq<Augmentation>, x0: Grid, y0: Grid, xTrain: seq<Grid>, yTrain: seq<Grid>,
                draws: int -> ValidDraws, ghost step: Stepper) returns (r: Result<(Grid, Grid), AugError>)
    requires Agrees(step, h, xTrain, yTrain)
    ensures r == Run(step, augs, |augs|, (x0, y0), draws)
  {
    var x, y := x0, y0;
    var n := 0;
    while n < |augs|
      invariant 0 <= n <= |augs|
      invariant Run(step, augs, n, (x0, y0), draws) == Success((x, y))
    {
      var next := ApplyStep(h, augs[n], x, y, xTrain, yTrain, draws(n), step);
      RunNext(step, augs, n, (x0, y0), draws, (x, y));
      if next.Failure? {
        RunStopsAtFailure(step, augs, n + 1, |augs|, (x0, y0), draws);
        return Failure(next.error);
      }
      x, y := next.value.0, next.value.1;
      n := n + 1;
    }
    r := Success((x, y));
  }

  /**
   * A record whose name is missing or not one of the fourteen transforms, reached with the pair
   * mid, ends the whole run with MissingName or Unsupported naming it.
   */
  lemma RunRejectsName(h: Helpers, augs: seq<Augmentation>, n: nat, pair: (Grid, Grid), xTrain: seq<Grid>,
                       yTrain: seq<Grid>, draws: int -> ValidDraws, step: Stepper, mid: (Grid, Grid))
    requires Agrees(step, h, xTrain, yTrain)
    requires n < |augs| && Run(step, augs, n, pair, draws) == Success(mid)
    ensures "name" !in augs[n] ==> Run(step, augs, |augs|, pair, draws) == Failure(MissingName)
    ensures "name" in augs[n] && TransformOf(augs[n]["name"]).None? ==>
              Run(step, augs, |augs|, pair, draws) == Failure(Unsupported(augs[n]["name"]))
  {
    assert step(augs[n], (mid.0, mid.1), draws(n)) == Step(h, augs[n], mid.0, mid.1, xTrain, yTrain, draws(n));
    if "name" !in augs[n] || TransformOf(augs[n]["name"]).None? {
      RunFailsAt(step, augs, n, |augs|, pair, draws, mid);
    }
  }

  /** A Python index of a sequence of length n: -n <= index < n, negative counting from the end. */
  function Wrap(index: int, n: nat): (r: Option<nat>)
    ensures r.Some? <==> -(n as int) <= index < n
    ensures r.Some? ==> r.value < n && (0 <= index ==> r.value == index) && (index < 0 ==> r.value == index + n)
  {
    if 0 <= index < n then Some(index) else if -(n as int) <= index < 0 then Some(index + n) else None
  }

  /** The two channel layout converters of buteo, which this model does not look inside. */
  datatype Layout = Layout(toFirst: Grid -> Grid, toLast: Grid -> Grid)

  /** A callback taking and returning a sample and its label. */
  type Callback = ((Grid, Grid)) -> (Grid, Grid)

  /** The tail of `__getitem__` in both datasets: the callback if set, then conversion to channel-last if asked. */
  function Finish(pair: (Grid, Grid), callback: Option<Callback>, outputIsChannelLast: bool, layout: Layout): (r: (Grid, Grid))
    ensures var c := if callback.Some? then callback.value(pair) else pair;
            (outputIsChannelLast ==> r == (layout.toLast(c.0), layout.toLast(c.1))) && (!outputIsChannelLast ==> r == c)
    ensures callback.None? && !outputIsChannelLast ==> r == pair
  {
    var (x, y) := if callback.Some? then callback.value(pair) else pair;
    if outputIsChannelLast then (layout.toLast(x), layout.toLast(y)) else (x, y)
  }

  /** `AugmentationDataset.__getitem__` as a value. */
  function Item(h: Helpers, xTrain: seq<Grid>, yTrain: seq<Grid>, augs: seq<Augmentation>, callback: Option<Callback>,
                outputIsChannelLast: bool, layout: Layout, draws: int -> ValidDraws, index: int)
    : (r: Result<(Grid, Grid), AugError>)
    ensures Wrap(index, |xTrain|).None? || Wrap(index, |yTrain|).None? ==> r == Failure(IndexOutOfRange(index))
    ensures Wrap(index, |xTrain|).Some? && Wrap(index, |yTrain|).Some? ==>
              var run := Run(StepperOf(h, xTrain, yTrain), augs, |augs|,
                             (xTrain[Wrap(index, |xTrain|).value], yTrain[Wrap(index, |yTrain|).value]), draws);
              (run.Failure? ==> r == Failure(run.error)) &&
              (run.Success? ==> r == Success(Finish(run.value, callback, outputIsChannelLast, layout)))
  {
    var i, j := Wrap(index, |xTrain|), Wrap(index, |yTrain|);
    if i.None? || j.None? then Failure(IndexOutOfRange(index))
    else
      var run := Run(StepperOf(h, xTrain, yTrain), augs, |augs|, (xTrain[i.value], yTrain[j.value]), draws);
      if run.Failure? then Failure(run.error) else Success(Finish(run.value, callback, outputIsChannelLast, layout))
  }

  /** `Dataset.__getitem__` as a value. */
  function PlainItem(xTrain: seq<Grid>, yTrain: seq<Grid>, callback: Option<Callback>, outputIsChannelLast: bool,
                     layout: Layout, index: int): (r: Result<(Grid, Grid), AugError>)
    ensures r.Failure? <==> Wrap(index, |xTrain|).None? || Wrap(index, |yTrain|).None?
    ensures r.Success? ==>
              r.value == Finish((xTrain[Wrap(index, |xTrain|).value], yTrain[Wrap(index, |yTrain|).value]),
                                callback, outputIsChannelLast, layout)
  {
    var i, j := Wrap(index, |xTrain|), Wrap(index, |yTrain|);
    if i.None? || j.None? then Failure(IndexOutOfRange(index))
    else Success(Finish((xTrain[i.value], yTrain[j.value]), callback, outputIsChannelLast, layout))
  }

  /** With no augmentations the augmentation dataset yields exactly what the plain dataset yields. */
  lemma NoAugmentationsIsPlain(h: Helpers, xTrain: seq<Grid>, yTrain: seq<Grid>, callback: Option<Callback>,
                               outputIsChannelLast: bool, layout: Layout, draws: int -> ValidDraws, index: int)
    ensures Item(h, xTrain, yTrain, [], callback, outputIsChannelLast, layout, draws, index) ==
            PlainItem(xTrain, yTrain, callback, outputIsChannelLast, layout, index)
  {
  }

  /** The samples as stored: converted to channel-first one by one when the input is channel-last. */
  function Stored(samples: seq<Grid>, inputIsChannelLast: bool, layout: Layout): (r: seq<Grid>)
    ensures |r| == |samples|
    ensures forall n :: 0 <= n < |samples| ==> r[n] == if inputIsChannelLast then layout.toFirst(samples[n]) else samples[n]
  {
    if !inputIsChannelLast || |samples| == 0 then samples
    else [layout.toFirst(samples[0])] + Stored(samples[1..], inputIsChannelLast, layout)
  }

  /** A dataset that applies a list of augmentations to every sample it yields. */
  class AugmentationDataset {
    const xTrain: seq<Grid>
    const yTrain: seq<Grid>
    const augmentations: seq<Augmentation>
    const callback: Option<Callback>
    const channelLast: bool
    const outputIsChannelLast: bool
    const layout: Layout

    /**
     * The samples and labels stored channel-first, the augmentations (None meaning none), and the
     * transforms set to run with channel_last False.
     */
    constructor (x: seq<Grid>, y: seq<Grid>, augmentations: Option<seq<Augmentation>>, callback: Option<Callback>,
                 inputIsChannelLast: bool, outputIsChannelLast: bool, layout: Layout)
      ensures xTrain == Stored(x, inputIsChannelLast, layout) && yTrain == Stored(y, inputIsChannelLast, layout)
      ensures this.augmentations == if augmentations.Some? then augmentations.value else []
      ensures this.callback == callback && !channelLast && this.outputIsChannelLast == outputIsChannelLast
      ensures this.layout == layout
    {
      xTrain := Stored(x, inputIsChannelLast, layout);
      yTrain := Stored(y, inputIsChannelLast, layout);
      this.augmentations := if augmentations.Some? then augmentations.value else [];
      this.callback := callback;
      channelLast := false;
      this.outputIsChannelLast := outputIsChannelLast;
      this.layout := layout;
    }

    /** `__len__`: the number of stored samples. */
    function Len(): (n: nat)
      ensures n == |xTrain|
    {
      |xTrain|
    }

    /**
     * `__getitem__`: sample and label at the index, every augmentation applied in list order with
     * its own draws, then the callback and the output conversion.
     */
    method GetItem(h: Helpers, index: int, draws: int -> ValidDraws) returns (r: Result<(Grid, Grid), AugError>)
      ensures r == Item(h, xTrain, yTrain, augmentations, callback, outputIsChannelLast, layout, draws, index)
    {
      var i, j := Wrap(index, |xTrain|), Wrap(index, |yTrain|);
      if i.None? || j.None? {
        return Failure(IndexOutOfRange(index));
      }
      StepperAgrees(h, xTrain, yTrain);
      var run := RunAll(h, augmentations, xTrain[i.value], yTrain[j.value], xTrain, yTrain, draws, StepperOf(h, xTrain, yTrain));
      if run.Failure? {
        return Failure(run.error);
      }
      var (x, y) := run.value;
      r := Success(Finish((x, y), callback, outputIsChannelLast, layout));
    }
  }

  /** A dataset that yields its samples without augmenting them. */
  class Dataset {
    const xTrain: seq<Grid>
    const yTrain: seq<Grid>
    const callback: Option<Callback>
    const channelLast: bool
    const outputIsChannelLast: bool
    const layout: Layout

    constructor (x: seq<Grid>, y: seq<Grid>, callback: Option<Callback>, inputIsChannelLast: bool,
                 outputIsChannelLast: bool, layout: Layout)
      ensures xTrain == Stored(x, inputIsChannelLast, layout) && yTrain == Stored(y, inputIsChannelLast, layout)
      ensures this.callback == callback && !channelLast && this.outputIsChannelLast == outputIsChannelLast
      ensures this.layout == layout
    {
      xTrain := Stored(x, inputIsChannelLast, layout);
      yTrain := Stored(y, inputIsChannelLast, layout);
      this.callback := callback;
      channelLast := false;
      this.outputIsChannelLast := outputIsChannelLast;
      this.layout := layout;
    }

    /** `__len__`: the number of stored samples. */
    function Len(): (n: nat)
      ensures n == |xTrain|
    {
      |xTrain|
    }

    /** `__getitem__`: sample and label at the index, then the callback and the output conversion. */
    method GetItem(index: int) returns (r: Result<(Grid, Grid), AugError>)
      ensures r == PlainItem(xTrain, yTrain, callback, outputIsChannelLast, layout, index)
    {
      var i, j := Wrap(index, |xTrain|), Wrap(index, |yTrain|);
      if i.None? || j.None? {
        return Failure(IndexOutOfRange(index));
      }
      r := Success(Finish((xTrain[i.value], yTrain[j.value]), callback, outputIsChannelLast, layout));
    }
  }
}
