/**
 * The fourteen augmentation transforms of `buteo/ai/augmentation_funcs.py`.
 *
 * Each transform draws a chance gate first and returns its inputs unchanged when the gate does
 * not fire. Rotation, mirror, noise, blur_xy, sharpen_xy and mixup are expressions over their
 * inputs and are functions here. The others copy X into a buffer, update it in place and fit the
 * buffer back to X's dtype; they are methods over an `array3<real>` buffer, each proved equal to
 * a specification function about which the properties are stated.
 */
module AugmentationFuncs {
  import opened Wrappers
  import opened Grids
  import opened Randomness

  /** The errors a transform raises (numpy) or would meet (numba does no bounds checking). */
  datatype Fault =
    | EmptyRange      // np.random.randint(lo, hi) with lo >= hi
    | ShapeMismatch   // a donor or label whose shape does not match the target
    | OutOfBounds     // an index past the end of an axis, which numba does not check

  /** A convolution kernel: pixel offsets and their weights. */
  datatype Kernel = Kernel(offsets: seq<(int, int)>, weights: seq<real>)

  /**
   * The helpers the transforms call and this model does not look inside: `rotate_arr`,
   * `mirror_arr`, `_fit_data_to_dtype` (taken to act element by element), numpy's cast of a
   * scalar stored into an array of a dtype, `convolve_array_simple` (the value of the convolved
   * plane at a row and column), its default intensity, the three kernel builders and
   * `_feather_box_2d` (the weight of the target at a row and column).
   */
  datatype Helpers = Helpers(
    rotate: (Grid, int, bool) -> Grid,
    mirror: (Grid, int, bool) -> Grid,
    fit: (DType, real) -> real,
    cast: (DType, real) -> real,
    convolve: (Plane, Kernel, real, int, int) -> real,
    defaultIntensity: real,
    blurKernel: Kernel,
    unsharpKernel: Kernel,
    shiftKernel: (real, real) -> Kernel,
    feather: (Grid, Box, int) -> (int, int) -> real
  )

  /** A sample and its label, which several transforms accept as None. */
  type Sample = (Grid, Option<Grid>)

  function MinReal(a: real, b: real): real { if a <= b then a else b }
  function MaxReal(a: real, b: real): real { if a >= b then a else b }
  function MinInt(a: int, b: int): int { if a <= b then a else b }
  function MaxInt(a: int, b: int): int { if a >= b then a else b }

  // ---------------------------------------------------------------------------
  // Rotation and mirror (lines 62-73, 112-120)

  /** The turn count: k when given, otherwise randint(1, 4). */
  function Turns(k: Option<int>, u: real): (t: int)
    requires Unit(u)
    ensures k.Some? ==> t == k.value
    ensures k.None? ==> 1 <= t <= 3
  {
    if k.None? then RandInt(1, 4, u) else k.value
  }

  /**
   * augmentation_rotation: X and y rotated by the same turn count; a closed gate or k == 0
   * returns both unchanged, and a None label stays None.
   */
  function Rotation(h: Helpers, x: Grid, y: Option<Grid>, chance: real, k: Option<int>, channelLast: bool,
                    d: Draws): (r: Sample)
    requires d.Valid()
    ensures !Fires(d.gate, chance) || k == Some(0) ==> r == (x, y)
    ensures r.1.Some? <==> y.Some?
    ensures Fires(d.gate, chance) && k != Some(0) ==>
      var t := Turns(k, d.turn);
      r.0 == h.rotate(x, t, channelLast) && (y.Some? ==> r.1 == Some(h.rotate(y.value, t, channelLast)))
  {
    if !Fires(d.gate, chance) || k == Some(0) then (x, y)
    else
      var t := Turns(k, d.turn);
      (h.rotate(x, t, channelLast), if y.None? then None else Some(h.rotate(y.value, t, channelLast)))
  }

  /** augmentation_mirror: as rotation, with mirror_arr. */
  function Mirror(h: Helpers, x: Grid, y: Option<Grid>, chance: real, k: Option<int>, channelLast: bool,
                  d: Draws): (r: Sample)
    requires d.Valid()
    ensures !Fires(d.gate, chance) || k == Some(0) ==> r == (x, y)
    ensures r.1.Some? <==> y.Some?
    ensures Fires(d.gate, chance) && k != Some(0) ==>
      var t := Turns(k, d.turn);
      r.0 == h.mirror(x, t, channelLast) && (y.Some? ==> r.1 == Some(h.mirror(y.value, t, channelLast)))
  {
    if !Fires(d.gate, chance) || k == Some(0) then (x, y)
    else
      var t := Turns(k, d.turn);
      (h.mirror(x, t, channelLast), if y.None? then None else Some(h.mirror(y.value, t, channelLast)))
  }

  /** amount = np.random.rand() * max_amount, which lies in [0, max_amount]. */
  function Amount(u: real, maxAmount: real): (a: real)
    ensures Unit(u) && 0.0 <= maxAmount ==> 0.0 <= a <= maxAmount
  {
    if Unit(u) && 0.0 <= maxAmount then AmountBelow(u, maxAmount); u * maxAmount
    else u * maxAmount
  }

  lemma AmountBelow(u: real, maxAmount: real)
    requires Unit(u) && 0.0 <= maxAmount
    ensures 0.0 <= u * maxAmount <= maxAmount
  {
    NonNegative(u, maxAmount);
    NonNegative(1.0 - u, maxAmount);
    assert u * maxAmount + (1.0 - u) * maxAmount == maxAmount;
  }

  // ---------------------------------------------------------------------------
  // Noise (lines 162-172)

  /** One element with noise of scale s: v + s*z (additive) or v * (1 + s*z). */
  function Noisy(v: real, s: real, z: real, additive: bool): real {
    if additive then v + s * z else v * (1.0 + s * z)
  }

  /**
   * augmentation_noise: every element of X perturbed by its own normal draw, scaled by
   * amount = rand() * max_amount, then fitted to X's dtype; the label is never touched.
   */
  function Noise(h: Helpers, x: Grid, y: Option<Grid>, chance: real, maxAmount: real, additive: bool,
                 d: Draws): (r: Sample)
    ensures r.1 == y
    ensures !Fires(d.gate, chance) ==> r.0 == x
    ensures Fires(d.gate, chance) ==> r.0.dtype == x.dtype && SameShape(r.0, x)
    ensures Fires(d.gate, chance) ==> forall i, j, k :: InBounds(x, i, j, k) ==>
      At(r.0, i, j, k) == h.fit(x.dtype, Noisy(At(x, i, j, k), Amount(d.amount, maxAmount), d.normal(i, j, k), additive))
  {
    if !Fires(d.gate, chance) then (x, y)
    else
      var s := Amount(d.amount, maxAmount);
      var noisy := Build(x.dtype, x.d0, x.d1, x.d2, (i, j, k) => Noisy(At(x, i, j, k), s, d.normal(i, j, k), additive));
      (FitGrid(noisy, x.dtype, h.fit), y)
  }

  /** With max_amount 0 noise only refits X: no element moves before the dtype fit. */
  lemma NoiseWithoutAmount(h: Helpers, x: Grid, y: Option<Grid>, chance: real, additive: bool, d: Draws)
    requires Fires(d.gate, chance)
    ensures Noise(h, x, y, chance, 0.0, additive, d) == (FitGrid(x, x.dtype, h.fit), y)
  {
    var r := Noise(h, x, y, chance, 0.0, additive, d).0;
    var f := FitGrid(x, x.dtype, h.fit);
    forall i, j, k | InBounds(r, i, j, k)
      ensures At(r, i, j, k) == At(f, i, j, k)
    {
      assert Noisy(At(x, i, j, k), d.amount * 0.0, d.normal(i, j, k), additive) == At(x, i, j, k);
    }
    SameGrid(r, f);
  }

  // ---------------------------------------------------------------------------
  // Channel scale (lines 213-238)

  /**
   * The factor drawn for one channel: uniform(-amount, amount) when additive, otherwise
   * uniform(1 - amount, 1 + amount).
   */
  function ChannelFactor(additive: bool, amount: real, u: real): (f: real)
    requires Unit(u)
    ensures 0.0 <= amount && additive ==> -amount <= f <= amount
    ensures 0.0 <= amount && !additive ==> 1.0 - amount <= f <= 1.0 + amount
  {
    if additive then Uniform(-amount, amount, u) else Uniform(1.0 - amount, 1.0 + amount, u)
  }

  /** v += f (additive) or v *= f. */
  function Scale(v: real, f: real, additive: bool): real {
    if additive then v + f else v * f
  }

  /** The element [i, j, k] of X scaled by the factor of its channel. */
  function ScaledAt(x: Grid, amount: real, additive: bool, channelLast: bool, d: Draws, i: int, j: int, k: int): real
    requires d.Valid()
  {
    Scale(At(x, i, j, k), ChannelFactor(additive, amount, d.perChannel(ChannelOf(channelLast, i, j, k))), additive)
  }

  /** X with every element of channel c scaled by the factor of channel c, before the dtype fit. */
  function ChannelScaled(x: Grid, amount: real, additive: bool, channelLast: bool, d: Draws): (g: Grid)
    requires d.Valid()
    ensures SameShape(g, x)
    ensures forall i, j, k :: InBounds(g, i, j, k) ==> At(g, i, j, k) == ScaledAt(x, amount, additive, channelLast, d, i, j, k)
  {
    Build("float32", x.d0, x.d1, x.d2, (i, j, k) => ScaledAt(x, amount, additive, channelLast, d, i, j, k))
  }

  /** The buffer holds X with the channels below c scaled. */
  ghost predicate ScaledBelow(buf: array3<real>, x: Grid, amount: real, additive: bool, channelLast: bool, d: Draws, c: int)
    reads buf
    requires d.Valid()
  {
    && buf.Length0 == x.d0 && buf.Length1 == x.d1 && buf.Length2 == x.d2
    && forall i, j, k :: InArray(buf, i, j, k) ==>
         buf[i, j, k] == if ChannelOf(channelLast, i, j, k) < c then ScaledAt(x, amount, additive, channelLast, d, i, j, k)
                         else At(x, i, j, k)
  }

  /** augmentation_channel_scale as a value. */
  function ChannelScaleSpec(h: Helpers, x: Grid, y: Option<Grid>, chance: real, maxAmount: real, additive: bool,
                            channelLast: bool, d: Draws): (r: Sample)
    requires d.Valid()
    ensures r.1 == y
    ensures !Fires(d.gate, chance) ==> r.0 == x
    ensures Fires(d.gate, chance) ==> r.0.dtype == x.dtype && SameShape(r.0, x)
    ensures Fires(d.gate, chance) ==> forall i, j, k :: InBounds(x, i, j, k) ==>
      var f := ChannelFactor(additive, Amount(d.amount, maxAmount), d.perChannel(ChannelOf(channelLast, i, j, k)));
      At(r.0, i, j, k) == h.fit(x.dtype, Scale(At(x, i, j, k), f, additive))
  {
    if !Fires(d.gate, chance) then (x, y)
    else (FitGrid(ChannelScaled(x, Amount(d.amount, maxAmount), additive, channelLast, d), x.dtype, h.fit), y)
  }

  /**
   * augmentation_channel_scale: a float32 copy of X, one factor drawn per channel and applied to
   * the whole channel in place, then the copy fitted back to X's dtype.
   */
  method ChannelScale(h: Helpers, x: Grid, y: Option<Grid>, chance: real, maxAmount: real, additive: bool,
                      channelLast: bool, d: Draws) returns (r: Sample)
    requires d.Valid()
    ensures r == ChannelScaleSpec(h, x, y, chance, maxAmount, additive, channelLast, d)
  {
    if !Fires(d.gate, chance) {
      return (x, y);
    }
    var scaled := ScaleChannels(x, Amount(d.amount, maxAmount), additive, channelLast, d);
    r := (FitGrid(scaled, x.dtype, h.fit), y);
  }

  /** The loop over channels on a float32 copy of X. */
  method ScaleChannels(x: Grid, amount: real, additive: bool, channelLast: bool, d: Draws) returns (g: Grid)
    requires d.Valid()
    ensures g == ChannelScaled(x, amount, additive, channelLast, d)
  {
    var buf := ToArray(x);
    for c := 0 to Channels(x, channelLast)
      invariant ScaledBelow(buf, x, amount, additive, channelLast, d, c)
    {
      ScaleChannel(buf, x, amount, additive, channelLast, d, c);
    }
    ScaledBuffer(buf, x, amount, additive, channelLast, d);
    g := FromArray(buf, "float32");
  }

  /** One pass of the channel loop: channel c scaled in place by its factor. */
  method ScaleChannel(buf: array3<real>, x: Grid, amount: real, additive: bool, channelLast: bool, d: Draws, c: int)
    requires d.Valid() && 0 <= c < Channels(x, channelLast)
    requires ScaledBelow(buf, x, amount, additive, channelLast, d, c)
    modifies buf
    ensures ScaledBelow(buf, x, amount, additive, channelLast, d, c + 1)
  {
    var f := ChannelFactor(additive, amount, d.perChannel(c));
    UpdateChannel(buf, c, channelLast, (row, col, v) => Scale(v, f, additive));
  }

  /** Once every channel is scaled, the buffer reads back as the scaled grid. */
  lemma ScaledBuffer(buf: array3<real>, x: Grid, amount: real, additive: bool, channelLast: bool, d: Draws)
    requires d.Valid() && ScaledBelow(buf, x, amount, additive, channelLast, d, Channels(x, channelLast))
    ensures FromArray(buf, "float32") == ChannelScaled(x, amount, additive, channelLast, d)
  {
    var g, s := FromArray(buf, "float32"), ChannelScaled(x, amount, additive, channelLast, d);
    forall i, j, k | InBounds(g, i, j, k)
      ensures At(g, i, j, k) == At(s, i, j, k)
    {
      assert InArray(buf, i, j, k);
    }
    SameGrid(g, s);
  }

  /**
   * Before the dtype fit, every element moves by at most max_amount (additive) or is multiplied
   * by a factor within max_amount of 1, and all elements of one channel share that factor.
   */
  lemma ChannelScaleBounds(x: Grid, maxAmount: real, additive: bool, channelLast: bool, d: Draws, i: int, j: int, k: int)
    requires d.Valid() && 0.0 <= maxAmount && InBounds(x, i, j, k)
    ensures var a := Amount(d.amount, maxAmount);
      var f := ChannelFactor(additive, a, d.perChannel(ChannelOf(channelLast, i, j, k)));
      && 0.0 <= a <= maxAmount
      && At(ChannelScaled(x, a, additive, channelLast, d), i, j, k) == Scale(At(x, i, j, k), f, additive)
      && (additive ==> -maxAmount <= f <= maxAmount)
      && (!additive ==> 1.0 - maxAmount <= f <= 1.0 + maxAmount)
  {
  }

  // ---------------------------------------------------------------------------
  // Contrast (lines 275-297)

  /** The mean of channel c of X: np.mean of x[:, :, c] (channel-last) or of x[c] (channel-first). */
  function ChannelMean(x: Grid, c: int, channelLast: bool): real {
    PlaneMean(PlaneOf(x, c, channelLast))
  }

  /**
   * The element [i, j, k] after the stretch loop, which always writes x[:, :, c]: the last index k
   * picks the mean, so channel-first input is stretched column by column.
   */
  function StretchedAt(x: Grid, amount: real, channelLast: bool, i: int, j: int, k: int): real {
    if k < Channels(x, channelLast) then Stretch(At(x, i, j, k), ChannelMean(x, k, channelLast), amount)
    else At(x, i, j, k)
  }

  /** The float32 copy of X after the stretch loop, before the dtype fit. */
  function ContrastStretched(x: Grid, amount: real, channelLast: bool): (g: Grid)
    ensures SameShape(g, x)
    ensures forall i, j, k :: InBounds(g, i, j, k) ==> At(g, i, j, k) == StretchedAt(x, amount, channelLast, i, j, k)
  {
    Build("float32", x.d0, x.d1, x.d2, (i, j, k) => StretchedAt(x, amount, channelLast, i, j, k))
  }

  /**
   * augmentation_contrast as a value. Channel-first input with more channels than columns makes
   * the loop write past the last column, reported as OutOfBounds.
   */
  function ContrastSpec(h: Helpers, x: Grid, y: Option<Grid>, chance: real, maxAmount: real, channelLast: bool,
                        d: Draws): (r: Result<Sample, Fault>)
    ensures !Fires(d.gate, chance) ==> r == Success((x, y))
    ensures Fires(d.gate, chance) ==> (r.Failure? <==> Channels(x, channelLast) > x.d2)
    ensures channelLast ==> r.Success?
    ensures r.Success? ==> r.value.1 == y && r.value.0.dtype == x.dtype && SameShape(r.value.0, x)
    ensures Fires(d.gate, chance) && r.Success? ==> forall i, j, k :: InBounds(x, i, j, k) ==>
      At(r.value.0, i, j, k) == h.fit(x.dtype, StretchedAt(x, Amount(d.amount, maxAmount), channelLast, i, j, k))
  {
    if !Fires(d.gate, chance) then Success((x, y))
    else if Channels(x, channelLast) > x.d2 then Failure(OutOfBounds)
    else Success((FitGrid(ContrastStretched(x, Amount(d.amount, maxAmount), channelLast), x.dtype, h.fit), y))
  }

  /**
   * augmentation_contrast: the channel means of a float32 copy of X, then every x[:, :, c] stretched
   * around the mean of channel c by 1 + amount, then the copy fitted back to X's dtype.
   */
  method Contrast(h: Helpers, x: Grid, y: Option<Grid>, chance: real, maxAmount: real, channelLast: bool,
                  d: Draws) returns (r: Result<Sample, Fault>)
    ensures r == ContrastSpec(h, x, y, chance, maxAmount, channelLast, d)
  {
    if !Fires(d.gate, chance) {
      return Success((x, y));
    }
    var channels := Channels(x, channelLast);
    var buf := ToArray(x);
    var means := ChannelMeans(buf, x, channelLast);
    if channels > x.d2 {
      return Failure(OutOfBounds);
    }
    var amount := Amount(d.amount, maxAmount);
    StretchColumns(buf, x, amount, channelLast, means);
    StretchedBuffer(buf, x, amount, channelLast);
    r := Success((FitGrid(FromArray(buf, "float32"), x.dtype, h.fit), y));
  }

  /** The first loop of contrast: the mean of every channel of the buffer, which still holds X. */
  method ChannelMeans(buf: array3<real>, x: Grid, channelLast: bool) returns (means: array<real>)
    requires buf.Length0 == x.d0 && buf.Length1 == x.d1 && buf.Length2 == x.d2
    requires forall i, j, k :: InBounds(x, i, j, k) ==> buf[i, j, k] == At(x, i, j, k)
    ensures fresh(means) && means.Length == Channels(x, channelLast)
    ensures forall c :: 0 <= c < means.Length ==> means[c] == ChannelMean(x, c, channelLast)
  {
    means := new real[Channels(x, channelLast)];
    for c := 0 to means.Length
      modifies means
      invariant forall c' :: 0 <= c' < c ==> means[c'] == ChannelMean(x, c', channelLast)
    {
      ArrayPlaneOf(buf, x, c, channelLast);
      means[c] := PlaneMean(ArrayPlane(buf, c, channelLast));
    }
  }

  /** The second loop of contrast: x[:, :, c] stretched around means[c] for every channel c. */
  method StretchColumns(buf: array3<real>, x: Grid, amount: real, channelLast: bool, means: array<real>)
    requires buf.Length0 == x.d0 && buf.Length1 == x.d1 && buf.Length2 == x.d2
    requires forall i, j, k :: InBounds(x, i, j, k) ==> buf[i, j, k] == At(x, i, j, k)
    requires Channels(x, channelLast) <= x.d2 && means.Length == Channels(x, channelLast)
    requires forall c :: 0 <= c < means.Length ==> means[c] == ChannelMean(x, c, channelLast)
    modifies buf
    ensures StretchedBelow(buf, x, amount, channelLast, Channels(x, channelLast))
  {
    for c := 0 to means.Length
      invariant StretchedBelow(buf, x, amount, channelLast, c)
    {
      StretchColumn(buf, x, amount, channelLast, c, means[c]);
    }
  }

  /** The buffer holds X with x[:, :, k] stretched for every k below c. */
  ghost predicate StretchedBelow(buf: array3<real>, x: Grid, amount: real, channelLast: bool, c: int)
    reads buf
  {
    && buf.Length0 == x.d0 && buf.Length1 == x.d1 && buf.Length2 == x.d2
    && forall i, j, k :: InArray(buf, i, j, k) ==>
         buf[i, j, k] == if k < c then StretchedAt(x, amount, channelLast, i, j, k) else At(x, i, j, k)
  }

  /** One pass of the stretch loop: x[:, :, c] = (x[:, :, c] - m) * (1 + amount) + m. */
  method StretchColumn(buf: array3<real>, x: Grid, amount: real, channelLast: bool, c: int, m: real)
    requires 0 <= c < Channels(x, channelLast) && c < x.d2 && m == ChannelMean(x, c, channelLast)
    requires StretchedBelow(buf, x, amount, channelLast, c)
    modifies buf
    ensures StretchedBelow(buf, x, amount, channelLast, c + 1)
  {
    UpdateChannel(buf, c, true, (row, col, v) => Stretch(v, m, amount));
  }

  /** After the last pass the buffer reads back as the stretched grid. */
  lemma StretchedBuffer(buf: array3<real>, x: Grid, amount: real, channelLast: bool)
    requires Channels(x, channelLast) <= x.d2
    requires StretchedBelow(buf, x, amount, channelLast, Channels(x, channelLast))
    ensures FromArray(buf, "float32") == ContrastStretched(x, amount, channelLast)
  {
    var g, s := FromArray(buf, "float32"), ContrastStretched(x, amount, channelLast);
    forall i, j, k | InBounds(g, i, j, k)
      ensures At(g, i, j, k) == At(s, i, j, k)
    {
      assert InArray(buf, i, j, k);
    }
    SameGrid(g, s);
  }

  /** Channel-last contrast keeps the mean of every channel, up to the dtype fit. */
  lemma ContrastKeepsMean(x: Grid, amount: real, c: int)
    requires 0 <= c < x.d2
    ensures ChannelMean(ContrastStretched(x, amount, true), c, true) == ChannelMean(x, c, true)
  {
    var m := ChannelMean(x, c, true);
    var p := PlaneOf(x, c, true);
    var q := PlaneOf(ContrastStretched(x, amount, true), c, true);
    var t := StretchPlane(p, m, amount);
    forall r | 0 <= r < |q|
      ensures q[r] == t[r]
    {
      forall s | 0 <= s < |q[r]|
        ensures q[r][s] == t[r][s]
      {
        assert InBounds(x, r, s, c);
      }
    }
    assert q == t;
    StretchKeepsMean(p, amount);
  }

  /**
   * Channel-first contrast stretches by column: an element whose column index k is a channel
   * number is stretched around the mean of channel k, whatever its own channel; the columns at
   * or past the channel count are untouched before the fit.
   */
  lemma ContrastChannelFirstColumns(x: Grid, amount: real, i: int, j: int, k: int)
    requires InBounds(x, i, j, k) && x.d0 <= x.d2
    ensures k < x.d0 ==> At(ContrastStretched(x, amount, false), i, j, k) == Stretch(At(x, i, j, k), PlaneMean(PlaneOf(x, k, false)), amount)
    ensures x.d0 <= k ==> At(ContrastStretched(x, amount, false), i, j, k) == At(x, i, j, k)
  {
  }

  // ---------------------------------------------------------------------------
  // Drop pixel (lines 341-364)

  /** The element [i, j, k] after the drop: v when its mask draw is at most drop_probability. */
  function DroppedAt(x: Grid, dropProbability: real, v: real, d: Draws, i: int, j: int, k: int): real {
    if d.mask(i, j, k) <= dropProbability then v else At(x, i, j, k)
  }

  /** X with every element whose mask draw is at most drop_probability replaced by v. */
  function Dropped(x: Grid, dropProbability: real, v: real, d: Draws): (g: Grid)
    ensures g.dtype == x.dtype && SameShape(g, x)
    ensures forall i, j, k :: InBounds(g, i, j, k) ==> At(g, i, j, k) == DroppedAt(x, dropProbability, v, d, i, j, k)
  {
    Build(x.dtype, x.d0, x.d1, x.d2, (i, j, k) => DroppedAt(x, dropProbability, v, d, i, j, k))
  }

  /**
   * augmentation_drop_pixel as a value: X's own dtype is kept (X.copy()), the element at [i, j, k]
   * takes drop_value, cast to that dtype, exactly when its mask draw is at most drop_probability.
   * Both layouts visit every element with the mask draw at the same index, so the layout does not
   * matter.
   */
  function DropPixelSpec(h: Helpers, x: Grid, y: Option<Grid>, chance: real, dropProbability: real, dropValue: real,
                         d: Draws): (r: Sample)
    ensures r.1 == y
    ensures !Fires(d.gate, chance) ==> r.0 == x
    ensures r.0.dtype == x.dtype && SameShape(r.0, x)
    ensures Fires(d.gate, chance) ==> forall i, j, k :: InBounds(x, i, j, k) ==>
      At(r.0, i, j, k) == if d.mask(i, j, k) <= dropProbability then h.cast(x.dtype, dropValue) else At(x, i, j, k)
  {
    if !Fires(d.gate, chance) then (x, y)
    else (Dropped(x, dropProbability, h.cast(x.dtype, dropValue), d), y)
  }

  /** augmentation_drop_pixel: the masked elements of a copy of X overwritten in place. */
  method DropPixel(h: Helpers, x: Grid, y: Option<Grid>, chance: real, dropProbability: real, dropValue: real,
                   d: Draws) returns (r: Sample)
    ensures r == DropPixelSpec(h, x, y, chance, dropProbability, dropValue, d)
  {
    if !Fires(d.gate, chance) {
      return (x, y);
    }
    var v := h.cast(x.dtype, dropValue);
    var g := DropPixels(x, dropProbability, v, d);
    r := (g, y);
  }

  /** The parallel loop over every element of a copy of X. */
  method DropPixels(x: Grid, dropProbability: real, v: real, d: Draws) returns (g: Grid)
    ensures g == Dropped(x, dropProbability, v, d)
  {
    var buf := ToArray(x);
    UpdateEach(buf, (i, j, k, prior) => if d.mask(i, j, k) <= dropProbability then v else prior);
    DroppedBuffer(buf, x, dropProbability, v, d);
    g := FromArray(buf, x.dtype);
  }

  /** A buffer holding X with the masked elements replaced reads back as Dropped. */
  lemma DroppedBuffer(buf: array3<real>, x: Grid, dropProbability: real, v: real, d: Draws)
    requires buf.Length0 == x.d0 && buf.Length1 == x.d1 && buf.Length2 == x.d2
    requires forall i, j, k :: InArray(buf, i, j, k) ==> buf[i, j, k] == DroppedAt(x, dropProbability, v, d, i, j, k)
    ensures FromArray(buf, x.dtype) == Dropped(x, dropProbability, v, d)
  {
    var s := Dropped(x, dropProbability, v, d);
    forall i, j, k | InArray(buf, i, j, k)
      ensures buf[i, j, k] == At(s, i, j, k)
    {
      assert InBounds(x, i, j, k);
    }
    ReadBack(buf, s);
  }

  /** A drop probability below 0 drops nothing, since every mask draw is at least 0. */
  lemma DropPixelNone(h: Helpers, x: Grid, y: Option<Grid>, chance: real, dropProbability: real, dropValue: real,
                      d: Draws)
    requires d.Valid() && dropProbability < 0.0
    ensures DropPixelSpec(h, x, y, chance, dropProbability, dropValue, d) == (x, y)
  {
    var r := DropPixelSpec(h, x, y, chance, dropProbability, dropValue, d).0;
    forall i, j, k | InBounds(r, i, j, k)
      ensures At(r, i, j, k) == At(x, i, j, k)
    {
      assert Unit(d.mask(i, j, k));
    }
    SameGrid(r, x);
  }

  /** A drop probability of 1 or more drops every element once the gate fires. */
  lemma DropPixelAll(h: Helpers, x: Grid, y: Option<Grid>, chance: real, dropProbability: real, dropValue: real,
                     d: Draws, i: int, j: int, k: int)
    requires d.Valid() && 1.0 <= dropProbability && Fires(d.gate, chance) && InBounds(x, i, j, k)
    ensures At(DropPixelSpec(h, x, y, chance, dropProbability, dropValue, d).0, i, j, k) == h.cast(x.dtype, dropValue)
  {
    assert Unit(d.mask(i, j, k));
  }

  // ---------------------------------------------------------------------------
  // Drop channel (lines 405-429)

  /** Some per-channel trial falls below drop_probability. */
  predicate DropsAChannel(d: Draws, channels: int, dropProbability: real) {
    exists c :: 0 <= c < channels && d.trials(c) < dropProbability
  }

  /** The element [i, j, k] once channel c is filled with v. */
  function FilledAt(x: Grid, c: int, channelLast: bool, v: real, i: int, j: int, k: int): real {
    if ChannelOf(channelLast, i, j, k) == c then v else At(x, i, j, k)
  }

  /** X with channel c filled with v. */
  function Filled(x: Grid, c: int, channelLast: bool, v: real): (g: Grid)
    ensures g.dtype == x.dtype && SameShape(g, x)
    ensures forall i, j, k :: InBounds(g, i, j, k) ==> At(g, i, j, k) == FilledAt(x, c, channelLast, v, i, j, k)
  {
    Build(x.dtype, x.d0, x.d1, x.d2, (i, j, k) => FilledAt(x, c, channelLast, v, i, j, k))
  }

  /**
   * augmentation_drop_channel as a value: when a trial falls below drop_probability, the channel
   * randint(0, channels) of a copy of X is filled with drop_value cast to X's dtype.
   */
  function DropChannelSpec(h: Helpers, x: Grid, y: Option<Grid>, chance: real, dropProbability: real, dropValue: real,
                           channelLast: bool, d: Draws): (r: Sample)
    requires d.Valid()
    ensures r.1 == y
    ensures !Fires(d.gate, chance) || !DropsAChannel(d, Channels(x, channelLast), dropProbability) ==> r.0 == x
    ensures r.0.dtype == x.dtype && SameShape(r.0, x)
  {
    var channels := Channels(x, channelLast);
    if !Fires(d.gate, chance) || !DropsAChannel(d, channels, dropProbability) then (x, y)
    else (Filled(x, RandInt(0, channels, d.pick), channelLast, h.cast(x.dtype, dropValue)), y)
  }

  /**
   * augmentation_drop_channel: one trial per channel until one falls below drop_probability;
   * when none does X is returned as it is, otherwise one channel of a copy is overwritten.
   */
  method DropChannel(h: Helpers, x: Grid, y: Option<Grid>, chance: real, dropProbability: real, dropValue: real,
                     channelLast: bool, d: Draws) returns (r: Sample)
    requires d.Valid()
    ensures r == DropChannelSpec(h, x, y, chance, dropProbability, dropValue, channelLast, d)
  {
    if !Fires(d.gate, chance) {
      return (x, y);
    }
    var channels := Channels(x, channelLast);
    var drop := false;
    var t := 0;
    while t < channels
      invariant 0 <= t <= channels
      invariant !drop ==> forall c :: 0 <= c < t ==> !(d.trials(c) < dropProbability)
      invariant drop ==> DropsAChannel(d, channels, dropProbability)
    {
      if d.trials(t) < dropProbability {
        drop := true;
        break;
      }
      t := t + 1;
    }
    if !drop {
      return (x, y);
    }
    var g := FillChannel(x, RandInt(0, channels, d.pick), channelLast, h.cast(x.dtype, dropValue));
    r := (g, y);
  }

  /** x_dropped[:, :, c] = v (channel-last) or x_dropped[c, :, :] = v on a copy of X. */
  method FillChannel(x: Grid, c: int, channelLast: bool, v: real) returns (g: Grid)
    requires 0 <= c < Channels(x, channelLast)
    ensures g == Filled(x, c, channelLast, v)
  {
    var buf := ToArray(x);
    UpdateChannel(buf, c, channelLast, (row, col, prior) => v);
    var s := Filled(x, c, channelLast, v);
    ReadBack(buf, s);
    g := FromArray(buf, x.dtype);
  }

  /** r is X with channel c, and only channel c, holding v everywhere. */
  ghost predicate OnlyChannelFilled(r: Grid, x: Grid, c: int, channelLast: bool, v: real) {
    && 0 <= c < Channels(x, channelLast)
    && SameShape(r, x)
    && forall i, j, k :: InBounds(x, i, j, k) ==>
         At(r, i, j, k) == if ChannelOf(channelLast, i, j, k) == c then v else At(x, i, j, k)
  }

  /**
   * Drop channel overwrites exactly one channel once the gate fires and a trial falls below
   * drop_probability: some channel c below the channel count holds drop_value everywhere and every
   * other channel equals X. Otherwise X comes back unchanged.
   */
  lemma DropChannelOne(h: Helpers, x: Grid, y: Option<Grid>, chance: real, dropProbability: real, dropValue: real,
                       channelLast: bool, d: Draws)
    requires d.Valid()
    ensures var r := DropChannelSpec(h, x, y, chance, dropProbability, dropValue, channelLast, d).0;
      if Fires(d.gate, chance) && DropsAChannel(d, Channels(x, channelLast), dropProbability) then
        exists c :: OnlyChannelFilled(r, x, c, channelLast, h.cast(x.dtype, dropValue))
      else
        r == x
  {
    var channels := Channels(x, channelLast);
    if Fires(d.gate, chance) && DropsAChannel(d, channels, dropProbability) {
      var c := RandInt(0, channels, d.pick);
      var r := DropChannelSpec(h, x, y, chance, dropProbability, dropValue, channelLast, d).0;
      assert OnlyChannelFilled(r, x, c, channelLast, h.cast(x.dtype, dropValue));
    }
  }

  // ---------------------------------------------------------------------------
  // Blur and sharpen (lines 468-486, 565-583)

  /**
   * The element [i, j, k] once its channel plane is convolved: convolve_array_simple of the
   * element's own channel of X, read at the element's row and column.
   */
  function FilteredAt(h: Helpers, x: Grid, kernel: Kernel, intensity: real, channelLast: bool, i: int, j: int, k: int): real {
    h.convolve(PlaneOf(x, ChannelOf(channelLast, i, j, k), channelLast), kernel, intensity,
               RowOf(channelLast, i, j, k), ColOf(channelLast, i, j, k))
  }

  /** The float32 copy of X with every channel convolved, before the dtype fit. */
  function Filtered(h: Helpers, x: Grid, kernel: Kernel, intensity: real, channelLast: bool): (g: Grid)
    ensures g.dtype == "float32" && SameShape(g, x)
    ensures forall i, j, k :: InBounds(g, i, j, k) ==> At(g, i, j, k) == FilteredAt(h, x, kernel, intensity, channelLast, i, j, k)
  {
    Build("float32", x.d0, x.d1, x.d2, (i, j, k) => FilteredAt(h, x, kernel, intensity, channelLast, i, j, k))
  }

  /**
   * augmentation_blur and augmentation_sharpen as a value, for the gate draw `gate`: every
   * element is the convolution of its own channel at its row and column, fitted to X's dtype;
   * the label is passed through.
   */
  function FilterSpec(h: Helpers, x: Grid, y: Option<Grid>, chance: real, kernel: Kernel, intensity: real,
                      channelLast: bool, gate: real): (r: Sample)
    ensures r.1 == y
    ensures !Fires(gate, chance) ==> r.0 == x
    ensures Fires(gate, chance) ==> r.0.dtype == x.dtype && SameShape(r.0, x)
    ensures Fires(gate, chance) ==> forall i, j, k :: InBounds(x, i, j, k) ==>
      At(r.0, i, j, k) == h.fit(x.dtype, h.convolve(PlaneOf(x, ChannelOf(channelLast, i, j, k), channelLast), kernel,
                                                    intensity, RowOf(channelLast, i, j, k), ColOf(channelLast, i, j, k)))
  {
    if !Fires(gate, chance) then (x, y)
    else (FitGrid(Filtered(h, x, kernel, intensity, channelLast), x.dtype, h.fit), y)
  }

  /** augmentation_blur: every channel of a float32 copy of X convolved with the blur kernel. */
  method Blur(h: Helpers, x: Grid, y: Option<Grid>, chance: real, intensity: real, channelLast: bool, d: Draws)
    returns (r: Sample)
    ensures r == FilterSpec(h, x, y, chance, h.blurKernel, intensity, channelLast, d.gate)
  {
    if !Fires(d.gate, chance) {
      return (x, y);
    }
    var filtered := FilterChannels(h, x, h.blurKernel, intensity, channelLast);
    r := (FitGrid(filtered, x.dtype, h.fit), y);
  }

  /** augmentation_sharpen: as blur, with the unsharp kernel. */
  method Sharpen(h: Helpers, x: Grid, y: Option<Grid>, chance: real, intensity: real, channelLast: bool, d: Draws)
    returns (r: Sample)
    ensures r == FilterSpec(h, x, y, chance, h.unsharpKernel, intensity, channelLast, d.gate)
  {
    if !Fires(d.gate, chance) {
      return (x, y);
    }
    var filtered := FilterChannels(h, x, h.unsharpKernel, intensity, channelLast);
    r := (FitGrid(filtered, x.dtype, h.fit), y);
  }

  /** The (prange) loop over channels: each pass convolves one channel of the buffer in place. */
  method FilterChannels(h: Helpers, x: Grid, kernel: Kernel, intensity: real, channelLast: bool) returns (g: Grid)
    ensures g == Filtered(h, x, kernel, intensity, channelLast)
  {
    var buf := ToArray(x);
    for c := 0 to Channels(x, channelLast)
      invariant FilteredBelow(buf, h, x, kernel, intensity, channelLast, c)
    {
      ConvolveChannel(buf, h, x, kernel, intensity, channelLast, c);
    }
    FilteredBuffer(buf, h, x, kernel, intensity, channelLast);
    g := FromArray(buf, "float32");
  }

  /** The buffer holds X with the channels below c convolved. */
  ghost predicate FilteredBelow(buf: array3<real>, h: Helpers, x: Grid, kernel: Kernel, intensity: real,
                                channelLast: bool, c: int)
    reads buf
  {
    && buf.Length0 == x.d0 && buf.Length1 == x.d1 && buf.Length2 == x.d2
    && forall i, j, k :: InArray(buf, i, j, k) ==>
         buf[i, j, k] == if ChannelOf(channelLast, i, j, k) < c then FilteredAt(h, x, kernel, intensity, channelLast, i, j, k)
                         else At(x, i, j, k)
  }

  /**
   * x[:, :, c] = convolve_array_simple(x[:, :, c], ...) (or x[c] channel-first) on a buffer whose
   * channel c still holds X's values; no other element changes.
   */
  method ConvolveChannel(buf: array3<real>, h: Helpers, x: Grid, kernel: Kernel, intensity: real, channelLast: bool, c: int)
    requires buf.Length0 == x.d0 && buf.Length1 == x.d1 && buf.Length2 == x.d2
    requires 0 <= c < Channels(x, channelLast)
    requires forall i, j, k :: InArray(buf, i, j, k) && ChannelOf(channelLast, i, j, k) == c ==> buf[i, j, k] == At(x, i, j, k)
    modifies buf
    ensures forall i, j, k :: InArray(buf, i, j, k) ==>
      buf[i, j, k] == if ChannelOf(channelLast, i, j, k) == c then FilteredAt(h, x, kernel, intensity, channelLast, i, j, k)
                      else old(buf[i, j, k])
  {
    ArrayPlaneOf(buf, x, c, channelLast);
    var p := ArrayPlane(buf, c, channelLast);
    UpdateChannel(buf, c, channelLast, (row, col, v) => h.convolve(p, kernel, intensity, row, col));
  }

  /** After the last pass the buffer reads back as the filtered grid. */
  lemma FilteredBuffer(buf: array3<real>, h: Helpers, x: Grid, kernel: Kernel, intensity: real, channelLast: bool)
    requires FilteredBelow(buf, h, x, kernel, intensity, channelLast, Channels(x, channelLast))
    ensures FromArray(buf, "float32") == Filtered(h, x, kernel, intensity, channelLast)
  {
    var s := Filtered(h, x, kernel, intensity, channelLast);
    forall i, j, k | InArray(buf, i, j, k)
      ensures buf[i, j, k] == At(s, i, j, k)
    {
      assert InBounds(x, i, j, k);
    }
    ReadBack(buf, s);
  }

  /**
   * Channels are filtered independently: two inputs of one shape that agree on channel c give
   * filtered outputs that agree on channel c, whatever their other channels hold.
   */
  lemma FilterChannelLocal(h: Helpers, x: Grid, x': Grid, kernel: Kernel, intensity: real, channelLast: bool,
                           c: int, i: int, j: int, k: int)
    requires SameShape(x, x') && PlaneOf(x, c, channelLast) == PlaneOf(x', c, channelLast)
    requires InBounds(x, i, j, k) && ChannelOf(channelLast, i, j, k) == c
    ensures At(Filtered(h, x, kernel, intensity, channelLast), i, j, k) == At(Filtered(h, x', kernel, intensity, channelLast), i, j, k)
  {
  }

  // ---------------------------------------------------------------------------
  // Blur and sharpen of both X and y (lines 523-529, 621-627)

  /**
   * augmentation_blur_xy: after its own gate, X and y are each passed to augmentation_blur, which
   * draws its own gate again; so X is blurred only when the outer gate and gateX fire, and y
   * only when the outer gate and gateY fire, each independently of the other.
   */
  function BlurXY(h: Helpers, x: Grid, y: Grid, chance: real, intensity: real, channelLast: bool, d: Draws): (r: (Grid, Grid))
    ensures !Fires(d.gate, chance) || !Fires(d.gateX, chance) ==> r.0 == x
    ensures !Fires(d.gate, chance) || !Fires(d.gateY, chance) ==> r.1 == y
    ensures Fires(d.gate, chance) ==>
      r.0 == FilterSpec(h, x, None, chance, h.blurKernel, intensity, channelLast, d.gateX).0 &&
      r.1 == FilterSpec(h, y, None, chance, h.blurKernel, intensity, channelLast, d.gateY).0
  {
    if !Fires(d.gate, chance) then (x, y)
    else (FilterSpec(h, x, None, chance, h.blurKernel, intensity, channelLast, d.gateX).0,
          FilterSpec(h, y, None, chance, h.blurKernel, intensity, channelLast, d.gateY).0)
  }

  /** augmentation_sharpen_xy: as blur_xy, with augmentation_sharpen. */
  function SharpenXY(h: Helpers, x: Grid, y: Grid, chance: real, intensity: real, channelLast: bool, d: Draws): (r: (Grid, Grid))
    ensures !Fires(d.gate, chance) || !Fires(d.gateX, chance) ==> r.0 == x
    ensures !Fires(d.gate, chance) || !Fires(d.gateY, chance) ==> r.1 == y
    ensures Fires(d.gate, chance) ==>
      r.0 == FilterSpec(h, x, None, chance, h.unsharpKernel, intensity, channelLast, d.gateX).0 &&
      r.1 == FilterSpec(h, y, None, chance, h.unsharpKernel, intensity, channelLast, d.gateY).0
  {
    if !Fires(d.gate, chance) then (x, y)
    else (FilterSpec(h, x, None, chance, h.unsharpKernel, intensity, channelLast, d.gateX).0,
          FilterSpec(h, y, None, chance, h.unsharpKernel, intensity, channelLast, d.gateY).0)
  }

  /**
   * The inner gates can disagree: with the outer gate and gateX firing and gateY closed, blur_xy
   * blurs X and returns y as it came, so X and y are no longer blurred alike.
   */
  lemma BlurXYApart(h: Helpers, x: Grid, y: Grid, chance: real, intensity: real, channelLast: bool, d: Draws)
    requires Fires(d.gate, chance) && Fires(d.gateX, chance) && !Fires(d.gateY, chance)
    ensures BlurXY(h, x, y, chance, intensity, channelLast, d) ==
      (FitGrid(Filtered(h, x, h.blurKernel, intensity, channelLast), x.dtype, h.fit), y)
  {
  }

  // ---------------------------------------------------------------------------
  // Misalign (lines 664-686)

  /** The element [i, j, k] once channel c alone is convolved with the kernel. */
  function ShiftedAt(h: Helpers, x: Grid, kernel: Kernel, c: int, channelLast: bool, i: int, j: int, k: int): real {
    if ChannelOf(channelLast, i, j, k) == c then FilteredAt(h, x, kernel, h.defaultIntensity, channelLast, i, j, k)
    else At(x, i, j, k)
  }

  /** The float32 copy of X with channel c convolved, before the dtype fit. */
  function Shifted(h: Helpers, x: Grid, kernel: Kernel, c: int, channelLast: bool): (g: Grid)
    ensures g.dtype == "float32" && SameShape(g, x)
    ensures forall i, j, k :: InBounds(g, i, j, k) ==> At(g, i, j, k) == ShiftedAt(h, x, kernel, c, channelLast, i, j, k)
  {
    Build("float32", x.d0, x.d1, x.d2, (i, j, k) => ShiftedAt(h, x, kernel, c, channelLast, i, j, k))
  }

  /** The shift kernel of misalign: offsets min(rand(), max_offset) in x and in y. */
  function MisalignKernel(h: Helpers, maxOffset: real, d: Draws): Kernel {
    h.shiftKernel(MinReal(d.offsetX, maxOffset), MinReal(d.offsetY, maxOffset))
  }

  /**
   * augmentation_misalign as a value: one channel randint(0, channels), and no other, is
   * convolved with the shift kernel at the default intensity; X is fitted back to its dtype and a
   * label, when given, is fitted to its own dtype. X without channels makes randint(0, 0) fail.
   */
  function MisalignSpec(h: Helpers, x: Grid, y: Option<Grid>, chance: real, maxOffset: real, channelLast: bool,
                        d: Draws): (r: Result<Sample, Fault>)
    requires d.Valid()
    ensures !Fires(d.gate, chance) ==> r == Success((x, y))
    ensures Fires(d.gate, chance) ==> (r.Failure? <==> Channels(x, channelLast) == 0)
    ensures r.Success? ==> r.value.0.dtype == x.dtype && SameShape(r.value.0, x) && (r.value.1.Some? <==> y.Some?)
    ensures Fires(d.gate, chance) && r.Success? ==>
      && r.value.1 == (if y.None? then None else Some(FitGrid(y.value, y.value.dtype, h.fit)))
      && var c := RandInt(0, Channels(x, channelLast), d.pick);
         forall i, j, k :: InBounds(x, i, j, k) && ChannelOf(channelLast, i, j, k) != c ==>
           At(r.value.0, i, j, k) == h.fit(x.dtype, At(x, i, j, k))
    ensures Fires(d.gate, chance) && r.Success? ==>
      var c := RandInt(0, Channels(x, channelLast), d.pick);
      forall i, j, k :: InBounds(x, i, j, k) && ChannelOf(channelLast, i, j, k) == c ==>
        At(r.value.0, i, j, k) == h.fit(x.dtype, FilteredAt(h, x, MisalignKernel(h, maxOffset, d), h.defaultIntensity, channelLast, i, j, k))
  {
    if !Fires(d.gate, chance) then Success((x, y))
    else
      var channels := Channels(x, channelLast);
      if channels == 0 then Failure(EmptyRange)
      else
        var c := RandInt(0, channels, d.pick);
        var shifted := Shifted(h, x, MisalignKernel(h, maxOffset, d), c, channelLast);
        Success((FitGrid(shifted, x.dtype, h.fit), if y.None? then None else Some(FitGrid(y.value, y.value.dtype, h.fit))))
  }

  /** augmentation_misalign: the chosen channel of a float32 copy of X convolved in place. */
  method Misalign(h: Helpers, x: Grid, y: Option<Grid>, chance: real, maxOffset: real, channelLast: bool, d: Draws)
    returns (r: Result<Sample, Fault>)
    requires d.Valid()
    ensures r == MisalignSpec(h, x, y, chance, maxOffset, channelLast, d)
  {
    if !Fires(d.gate, chance) {
      return Success((x, y));
    }
    var kernel := MisalignKernel(h, maxOffset, d);
    var channels := Channels(x, channelLast);
    if channels == 0 {
      return Failure(EmptyRange);
    }
    var c := RandInt(0, channels, d.pick);
    var buf := ToArray(x);
    ConvolveChannel(buf, h, x, kernel, h.defaultIntensity, channelLast, c);
    ShiftedBuffer(buf, h, x, kernel, c, channelLast);
    var yFitted := if y.None? then None else Some(FitGrid(y.value, y.value.dtype, h.fit));
    r := Success((FitGrid(FromArray(buf, "float32"), x.dtype, h.fit), yFitted));
  }

  /** A buffer holding X with channel c convolved reads back as the shifted grid. */
  lemma ShiftedBuffer(buf: array3<real>, h: Helpers, x: Grid, kernel: Kernel, c: int, channelLast: bool)
    requires buf.Length0 == x.d0 && buf.Length1 == x.d1 && buf.Length2 == x.d2
    requires forall i, j, k :: InArray(buf, i, j, k) ==>
      buf[i, j, k] == if ChannelOf(channelLast, i, j, k) == c then FilteredAt(h, x, kernel, h.defaultIntensity, channelLast, i, j, k)
                      else At(x, i, j, k)
    ensures FromArray(buf, "float32") == Shifted(h, x, kernel, c, channelLast)
  {
    var s := Shifted(h, x, kernel, c, channelLast);
    forall i, j, k | InArray(buf, i, j, k)
      ensures buf[i, j, k] == At(s, i, j, k)
    {
      assert InBounds(x, i, j, k);
    }
    ReadBack(buf, s);
  }

  /** The shift offsets never exceed max_offset, and lie in [0, 1) when max_offset is at least 0. */
  lemma MisalignOffsets(maxOffset: real, d: Draws)
    requires d.Valid()
    ensures MinReal(d.offsetX, maxOffset) <= maxOffset && MinReal(d.offsetY, maxOffset) <= maxOffset
    ensures 0.0 <= maxOffset ==> Unit(MinReal(d.offsetX, maxOffset)) && Unit(MinReal(d.offsetY, maxOffset))
  {
  }

  // ---------------------------------------------------------------------------
  // Cutmix (lines 755-888)

  /** int(n * fraction): a patch side as a fraction of an axis. */
  function Extent(n: nat, fraction: real): (e: int)
    ensures 0.0 <= fraction ==> 0 <= e
  {
    if 0.0 <= fraction then NonNegative(n as real, fraction); Trunc(n as real * fraction)
    else Trunc(n as real * fraction)
  }

  /**
   * One patch side: randint(int(n * min_size), int(n * max_size)); when feathering it is widened
   * by 2 * feather_dist and capped at n.
   */
  function PatchSide(n: nat, minSize: real, maxSize: real, feather: bool, featherDist: int, u: real): (r: Result<int, Fault>)
    requires Unit(u)
    ensures r.Failure? <==> Extent(n, maxSize) <= Extent(n, minSize)
    ensures r.Failure? ==> r.error == EmptyRange
    ensures r.Success? && !feather ==> Extent(n, minSize) <= r.value < Extent(n, maxSize)
    ensures r.Success? && feather ==> r.value <= n
  {
    var lo, hi := Extent(n, minSize), Extent(n, maxSize);
    if hi <= lo then Failure(EmptyRange)
    else
      var side := RandInt(lo, hi, u);
      Success(if feather then MinInt(side + 2 * featherDist, n) else side)
  }

  /** A patch origin: randint(0, n - side), which fails when the side is n or more. */
  function PatchOrigin(n: nat, side: int, u: real): (r: Result<int, Fault>)
    requires Unit(u)
    ensures r.Failure? <==> n <= side
    ensures r.Failure? ==> r.error == EmptyRange
    ensures r.Success? ==> 0 <= r.value && r.value + side < n
  {
    if n - side <= 0 then Failure(EmptyRange) else Success(RandInt(0, n - side, u))
  }

  /**
   * The patch [y0, y1) x [x0, x1) cutmix draws, in the order of its draws: the height, the width,
   * then x0 and y0. The patch ends before the last column and the last row.
   */
  function CutmixPatch(height: nat, width: nat, minSize: real, maxSize: real, feather: bool, featherDist: int,
                       d: Draws): (r: Result<Box, Fault>)
    requires d.Valid()
    ensures r.Failure? ==> r.error == EmptyRange
    ensures r.Success? ==> 0 <= r.value.x0 && r.value.x1 < width && 0 <= r.value.y0 && r.value.y1 < height
    ensures r.Success? && !feather ==>
      && Extent(width, minSize) <= r.value.x1 - r.value.x0 < Extent(width, maxSize)
      && Extent(height, minSize) <= r.value.y1 - r.value.y0 < Extent(height, maxSize)
    ensures r.Success? && feather ==> r.value.x1 - r.value.x0 < width && r.value.y1 - r.value.y0 < height
  {
    var ph := PatchSide(height, minSize, maxSize, feather, featherDist, d.patchHeight);
    if ph.Failure? then Failure(ph.error)
    else
      var pw := PatchSide(width, minSize, maxSize, feather, featherDist, d.patchWidth);
      if pw.Failure? then Failure(pw.error)
      else
        var x0 := PatchOrigin(width, pw.value, d.originX);
        if x0.Failure? then Failure(x0.error)
        else
          var y0 := PatchOrigin(height, ph.value, d.originY);
          if y0.Failure? then Failure(y0.error)
          else Success(Box(x0.value, x0.value + pw.value, y0.value, y0.value + ph.value))
  }

  /** Python's bound for a slice index i over an axis of length n (i < 0 counts from the end). */
  function SliceIndex(i: int, n: nat): (r: nat)
    ensures r <= n
    ensures 0 <= i <= n ==> r == i
    ensures 0 < n && i < n ==> r < n
  {
    if i < 0 then (if i + n < 0 then 0 else i + n) else if i <= n then i else n
  }

  /** The elements selected by the slices [y0:y1, x0:x1]. */
  function SliceBox(patch: Box, height: nat, width: nat): (b: Box)
    ensures BoxWithin(b, height, width)
  {
    Box(SliceIndex(patch.x0, width), SliceIndex(patch.x1, width), SliceIndex(patch.y0, height), SliceIndex(patch.y1, height))
  }

  /**
   * The ranges of the feathered loops: the patch widened by feather_dist, and by one more past
   * its end, clamped below at 0 and above by shape[1] and shape[0], which are the width and the
   * height only in the channel-last layout.
   */
  function FeatherBox(patch: Box, featherDist: int, x: Grid): Box {
    Box(MaxInt(0, patch.x0 - featherDist), MinInt(patch.x1 + 1 + featherDist, x.d1),
        MaxInt(0, patch.y0 - featherDist), MinInt(patch.y1 + 1 + featherDist, x.d0))
  }

  /** t * wt + s * ws: a target value and a donor value under their weights. */
  function Blend(t: real, s: real, wt: real, ws: real): real {
    t * wt + s * ws
  }

  /**
   * The label of one feathered cutmix element by label_mix, for the target value t, the donor
   * value s and their weights: 0 blend, 1 target, 2 donor, 3 max, 4 min, 5 the target when its
   * weight is the larger, 6 the target when its weight is the smaller, 7 the sum; any other code
   * leaves the target.
   */
  function LabelMix(code: int, t: real, s: real, wt: real, ws: real): real {
    if code == 0 then Blend(t, s, wt, ws)
    else if code == 2 then s
    else if code == 3 then MaxReal(t, s)
    else if code == 4 then MinReal(t, s)
    else if code == 5 then (if wt > ws then t else s)
    else if code == 6 then (if wt < ws then t else s)
    else if code == 7 then t + s
    else t
  }

  /** The element [i, j, k] after the slice assignment: the donor's inside the box, the target's elsewhere. */
  function CopiedAt(t: Grid, s: Grid, b: Box, channelLast: bool, i: int, j: int, k: int): real {
    if b.Contains(RowOf(channelLast, i, j, k), ColOf(channelLast, i, j, k)) then At(s, i, j, k) else At(t, i, j, k)
  }

  function Copied(t: Grid, s: Grid, b: Box, channelLast: bool): (g: Grid)
    ensures g.dtype == "float32" && SameShape(g, t)
    ensures forall i, j, k :: InBounds(g, i, j, k) ==> At(g, i, j, k) == CopiedAt(t, s, b, channelLast, i, j, k)
  {
    Build("float32", t.d0, t.d1, t.d2, (i, j, k) => CopiedAt(t, s, b, channelLast, i, j, k))
  }

  /** The image element [i, j, k] after the feathered loops: the blend under the feather weight inside the box. */
  function FeatheredAt(t: Grid, s: Grid, b: Box, w: (int, int) -> real, channelLast: bool, i: int, j: int, k: int): real {
    var row, col := RowOf(channelLast, i, j, k), ColOf(channelLast, i, j, k);
    if b.Contains(row, col) then Blend(At(t, i, j, k), At(s, i, j, k), w(row, col), 1.0 - w(row, col)) else At(t, i, j, k)
  }

  function Feathered(t: Grid, s: Grid, b: Box, w: (int, int) -> real, channelLast: bool): (g: Grid)
    ensures g.dtype == "float32" && SameShape(g, t)
    ensures forall i, j, k :: InBounds(g, i, j, k) ==> At(g, i, j, k) == FeatheredAt(t, s, b, w, channelLast, i, j, k)
  {
    Build("float32", t.d0, t.d1, t.d2, (i, j, k) => FeatheredAt(t, s, b, w, channelLast, i, j, k))
  }

  /** The label element [i, j, k] after the feathered loops: LabelMix under the feather weight inside the box. */
  function LabelFeatheredAt(t: Grid, s: Grid, b: Box, w: (int, int) -> real, code: int, channelLast: bool,
                            i: int, j: int, k: int): real {
    var row, col := RowOf(channelLast, i, j, k), ColOf(channelLast, i, j, k);
    if b.Contains(row, col) then LabelMix(code, At(t, i, j, k), At(s, i, j, k), w(row, col), 1.0 - w(row, col))
    else At(t, i, j, k)
  }

  function LabelFeathered(t: Grid, s: Grid, b: Box, w: (int, int) -> real, code: int, channelLast: bool): (g: Grid)
    ensures g.dtype == "float32" && SameShape(g, t)
    ensures forall i, j, k :: InBounds(g, i, j, k) ==> At(g, i, j, k) == LabelFeatheredAt(t, s, b, w, code, channelLast, i, j, k)
  {
    Build("float32", t.d0, t.d1, t.d2, (i, j, k) => LabelFeatheredAt(t, s, b, w, code, channelLast, i, j, k))
  }

  /**
   * The shapes cutmix can combine: the donor image and label shaped as the target's and, when
   * feathered (the label is indexed over the image's box), the label's height and width those of
   * the image. Unfeathered, the label's slices are clamped by the label's own axes.
   */
  predicate CutmixShapes(xt: Grid, yt: Grid, xs: Grid, ys: Grid, feather: bool, channelLast: bool) {
    && SameShape(xs, xt) && SameShape(ys, yt)
    && (feather ==> Height(yt, channelLast) == Height(xt, channelLast) && Width(yt, channelLast) == Width(xt, channelLast))
  }

  /**
   * augmentation_cutmix as a value. After the gate, the patch is drawn (an empty randint range
   * fails); shapes that cannot be combined fail; without feathering the donor's patch is copied
   * into both X and y; with feathering the widened box is blended by the feather weight of the
   * target, and the label mixed by label_mix. A feathered box past the height or width, which
   * only the channel-first layout can produce, is out of bounds.
   */
  function CutmixSpec(h: Helpers, xt: Grid, yt: Grid, xs: Grid, ys: Grid, chance: real, minSize: real, maxSize: real,
                      labelMix: int, feather: bool, featherDist: int, channelLast: bool, d: Draws): (r: Result<(Grid, Grid), Fault>)
    requires d.Valid()
    ensures !Fires(d.gate, chance) ==> r == Success((xt, yt))
    ensures r.Success? ==>
      r.value.0.dtype == xt.dtype && SameShape(r.value.0, xt) && r.value.1.dtype == yt.dtype && SameShape(r.value.1, yt)
    ensures Fires(d.gate, chance) ==>
      (r.Failure? && r.error == ShapeMismatch <==>
         CutmixPatch(Height(xt, channelLast), Width(xt, channelLast), minSize, maxSize, feather, featherDist, d).Success? &&
         !CutmixShapes(xt, yt, xs, ys, feather, channelLast))
    ensures Fires(d.gate, chance) ==>
      (r.Failure? && r.error == EmptyRange <==>
         CutmixPatch(Height(xt, channelLast), Width(xt, channelLast), minSize, maxSize, feather, featherDist, d).Failure?)
    ensures r.Failure? && r.error == OutOfBounds ==> feather && !channelLast
    ensures (&& Fires(d.gate, chance) && (!feather || channelLast)
             && CutmixPatch(Height(xt, channelLast), Width(xt, channelLast), minSize, maxSize, feather, featherDist, d).Success?
             && CutmixShapes(xt, yt, xs, ys, feather, channelLast)) ==> r.Success?
  {
    if !Fires(d.gate, chance) then Success((xt, yt))
    else
      var patch := CutmixPatch(Height(xt, channelLast), Width(xt, channelLast), minSize, maxSize, feather, featherDist, d);
      if patch.Failure? then Failure(patch.error)
      else if !CutmixShapes(xt, yt, xs, ys, feather, channelLast) then Failure(ShapeMismatch)
      else CutmixPatchApplied(h, xt, yt, xs, ys, patch.value, labelMix, feather, featherDist, channelLast)
  }

  /** Cutmix once the patch is drawn and the shapes agree: the copy, or the feathered blend. */
  function CutmixPatchApplied(h: Helpers, xt: Grid, yt: Grid, xs: Grid, ys: Grid, patch: Box, labelMix: int,
                              feather: bool, featherDist: int, channelLast: bool): (r: Result<(Grid, Grid), Fault>)
    requires CutmixShapes(xt, yt, xs, ys, feather, channelLast)
    ensures r.Success? ==>
      r.value.0.dtype == xt.dtype && SameShape(r.value.0, xt) && r.value.1.dtype == yt.dtype && SameShape(r.value.1, yt)
    ensures r.Failure? ==> r.error == OutOfBounds && feather && !channelLast
  {
    var height, width := Height(xt, channelLast), Width(xt, channelLast);
    if !feather then
      var b, boxY := SliceBox(patch, height, width), SliceBox(patch, Height(yt, channelLast), Width(yt, channelLast));
      Success((FitGrid(Copied(xt, xs, b, channelLast), xt.dtype, h.fit), FitGrid(Copied(yt, ys, boxY, channelLast), yt.dtype, h.fit)))
    else
      var b := FeatherBox(patch, featherDist, xt);
      if !BoxWithin(b, height, width) then Failure(OutOfBounds)
      else
        var w := h.feather(AsFloat32(xt), patch, featherDist);
        Success((FitGrid(Feathered(xt, xs, b, w, channelLast), xt.dtype, h.fit),
                 FitGrid(LabelFeathered(yt, ys, b, w, labelMix, channelLast), yt.dtype, h.fit)))
  }

  /** augmentation_cutmix: float32 copies of the target image and label updated in place over the box. */
  method Cutmix(h: Helpers, xt: Grid, yt: Grid, xs: Grid, ys: Grid, chance: real, minSize: real, maxSize: real,
                labelMix: int, feather: bool, featherDist: int, channelLast: bool, d: Draws) returns (r: Result<(Grid, Grid), Fault>)
    requires d.Valid()
    ensures r == CutmixSpec(h, xt, yt, xs, ys, chance, minSize, maxSize, labelMix, feather, featherDist, channelLast, d)
  {
    if !Fires(d.gate, chance) {
      return Success((xt, yt));
    }
    var height, width := Height(xt, channelLast), Width(xt, channelLast);
    var patch := CutmixPatch(height, width, minSize, maxSize, feather, featherDist, d);
    if patch.Failure? {
      return Failure(patch.error);
    }
    if !CutmixShapes(xt, yt, xs, ys, feather, channelLast) {
      return Failure(ShapeMismatch);
    }
    if !feather {
      var b, boxY := SliceBox(patch.value, height, width), SliceBox(patch.value, Height(yt, channelLast), Width(yt, channelLast));
      var xMixed := CopyPatch(xt, xs, b, channelLast);
      var yMixed := CopyPatch(yt, ys, boxY, channelLast);
      return Success((FitGrid(xMixed, xt.dtype, h.fit), FitGrid(yMixed, yt.dtype, h.fit)));
    }
    var b := FeatherBox(patch.value, featherDist, xt);
    if !BoxWithin(b, height, width) {
      return Failure(OutOfBounds);
    }
    var w := h.feather(AsFloat32(xt), patch.value, featherDist);
    var xMixed := FeatherPatch(xt, xs, b, w, channelLast);
    var yMixed := FeatherLabel(yt, ys, b, w, labelMix, channelLast);
    r := Success((FitGrid(xMixed, xt.dtype, h.fit), FitGrid(yMixed, yt.dtype, h.fit)));
  }

  /** x_mixed[y0:y1, x0:x1, :] = X_source[y0:y1, x0:x1, :] (or [:, y0:y1, x0:x1]) on a float32 copy. */
  method CopyPatch(t: Grid, s: Grid, b: Box, channelLast: bool) returns (g: Grid)
    requires SameShape(s, t) && BoxWithin(b, Height(t, channelLast), Width(t, channelLast))
    ensures g == Copied(t, s, b, channelLast)
  {
    var buf := ToArray(t);
    UpdateBox(buf, b, channelLast, (i, j, k, v) => At(s, i, j, k));
    CopiedBuffer(buf, t, s, b, channelLast);
    g := FromArray(buf, "float32");
  }

  /** A buffer holding the donor inside the box and the target elsewhere reads back as Copied. */
  lemma CopiedBuffer(buf: array3<real>, t: Grid, s: Grid, b: Box, channelLast: bool)
    requires buf.Length0 == t.d0 && buf.Length1 == t.d1 && buf.Length2 == t.d2
    requires forall i, j, k :: InArray(buf, i, j, k) ==> buf[i, j, k] == CopiedAt(t, s, b, channelLast, i, j, k)
    ensures FromArray(buf, "float32") == Copied(t, s, b, channelLast)
  {
    var c := Copied(t, s, b, channelLast);
    forall i, j, k | InArray(buf, i, j, k)
      ensures buf[i, j, k] == At(c, i, j, k)
    {
      assert InBounds(t, i, j, k);
    }
    ReadBack(buf, c);
  }

  /** The feathered loop over the box for the image: each element blended with the donor's in place. */
  method FeatherPatch(t: Grid, s: Grid, b: Box, w: (int, int) -> real, channelLast: bool) returns (g: Grid)
    requires BoxWithin(b, Height(t, channelLast), Width(t, channelLast))
    ensures g == Feathered(t, s, b, w, channelLast)
  {
    var buf := ToArray(t);
    UpdateBox(buf, b, channelLast, (i, j, k, v) =>
      Blend(v, At(s, i, j, k), w(RowOf(channelLast, i, j, k), ColOf(channelLast, i, j, k)),
            1.0 - w(RowOf(channelLast, i, j, k), ColOf(channelLast, i, j, k))));
    FeatheredBuffer(buf, t, s, b, w, channelLast);
    g := FromArray(buf, "float32");
  }

  /** A buffer holding the blend inside the box and the target elsewhere reads back as Feathered. */
  lemma FeatheredBuffer(buf: array3<real>, t: Grid, s: Grid, b: Box, w: (int, int) -> real, channelLast: bool)
    requires buf.Length0 == t.d0 && buf.Length1 == t.d1 && buf.Length2 == t.d2
    requires forall i, j, k :: InArray(buf, i, j, k) ==> buf[i, j, k] == FeatheredAt(t, s, b, w, channelLast, i, j, k)
    ensures FromArray(buf, "float32") == Feathered(t, s, b, w, channelLast)
  {
    var f := Feathered(t, s, b, w, channelLast);
    forall i, j, k | InArray(buf, i, j, k)
      ensures buf[i, j, k] == At(f, i, j, k)
    {
      assert InBounds(t, i, j, k);
    }
    ReadBack(buf, f);
  }

  /** The feathered loop over the box for the label: each element mixed by label_mix in place. */
  method FeatherLabel(t: Grid, s: Grid, b: Box, w: (int, int) -> real, code: int, channelLast: bool) returns (g: Grid)
    requires BoxWithin(b, Height(t, channelLast), Width(t, channelLast))
    ensures g == LabelFeathered(t, s, b, w, code, channelLast)
  {
    var buf := ToArray(t);
    UpdateBox(buf, b, channelLast, (i, j, k, v) =>
      LabelMix(code, v, At(s, i, j, k), w(RowOf(channelLast, i, j, k), ColOf(channelLast, i, j, k)),
               1.0 - w(RowOf(channelLast, i, j, k), ColOf(channelLast, i, j, k))));
    LabelFeatheredBuffer(buf, t, s, b, w, code, channelLast);
    g := FromArray(buf, "float32");
  }

  /** A buffer holding the label mix inside the box and the target elsewhere reads back as LabelFeathered. */
  lemma LabelFeatheredBuffer(buf: array3<real>, t: Grid, s: Grid, b: Box, w: (int, int) -> real, code: int, channelLast: bool)
    requires buf.Length0 == t.d0 && buf.Length1 == t.d1 && buf.Length2 == t.d2
    requires forall i, j, k :: InArray(buf, i, j, k) ==> buf[i, j, k] == LabelFeatheredAt(t, s, b, w, code, channelLast, i, j, k)
    ensures FromArray(buf, "float32") == LabelFeathered(t, s, b, w, code, channelLast)
  {
    var f := LabelFeathered(t, s, b, w, code, channelLast);
    forall i, j, k | InArray(buf, i, j, k)
      ensures buf[i, j, k] == At(f, i, j, k)
    {
      assert InBounds(t, i, j, k);
    }
    ReadBack(buf, f);
  }

  /** Without feathering cutmix never reads label_mix: any two codes give the same result. */
  lemma CutmixIgnoresLabelMix(h: Helpers, xt: Grid, yt: Grid, xs: Grid, ys: Grid, chance: real, minSize: real,
                              maxSize: real, code: int, code': int, featherDist: int, channelLast: bool, d: Draws)
    requires d.Valid()
    ensures CutmixSpec(h, xt, yt, xs, ys, chance, minSize, maxSize, code, false, featherDist, channelLast, d) ==
            CutmixSpec(h, xt, yt, xs, ys, chance, minSize, maxSize, code', false, featherDist, channelLast, d)
  {
  }

  /**
   * Without feathering, inside the sliced patch both X and y take the donor's values, and
   * everywhere else they keep the target's (each then fitted to its own dtype). Each array's
   * slices are clamped by its own height and width.
   */
  lemma CutmixCopiesPatch(h: Helpers, xt: Grid, yt: Grid, xs: Grid, ys: Grid, chance: real, minSize: real,
                          maxSize: real, code: int, featherDist: int, channelLast: bool, d: Draws, i: int, j: int, k: int)
    requires d.Valid() && Fires(d.gate, chance)
    requires CutmixSpec(h, xt, yt, xs, ys, chance, minSize, maxSize, code, false, featherDist, channelLast, d).Success?
    ensures var r := CutmixSpec(h, xt, yt, xs, ys, chance, minSize, maxSize, code, false, featherDist, channelLast, d).value;
      var height, width := Height(xt, channelLast), Width(xt, channelLast);
      var patch := CutmixPatch(height, width, minSize, maxSize, false, featherDist, d).value;
      var b, boxY := SliceBox(patch, height, width), SliceBox(patch, Height(yt, channelLast), Width(yt, channelLast));
      var row, col := RowOf(channelLast, i, j, k), ColOf(channelLast, i, j, k);
      && (InBounds(xt, i, j, k) ==> At(r.0, i, j, k) == h.fit(xt.dtype, if b.Contains(row, col) then At(xs, i, j, k) else At(xt, i, j, k)))
      && (InBounds(yt, i, j, k) ==> At(r.1, i, j, k) == h.fit(yt.dtype, if boxY.Contains(row, col) then At(ys, i, j, k) else At(yt, i, j, k)))
  {
    var patch := CutmixPatch(Height(xt, channelLast), Width(xt, channelLast), minSize, maxSize, false, featherDist, d).value;
    CopiedElement(h, xt, yt, xs, ys, patch, code, featherDist, channelLast, i, j, k);
  }

  /** The element [i, j, k] of X and of y once a patch is copied without feathering. */
  lemma CopiedElement(h: Helpers, xt: Grid, yt: Grid, xs: Grid, ys: Grid, patch: Box, code: int, featherDist: int,
                      channelLast: bool, i: int, j: int, k: int)
    requires CutmixShapes(xt, yt, xs, ys, false, channelLast)
    ensures var r := CutmixPatchApplied(h, xt, yt, xs, ys, patch, code, false, featherDist, channelLast).value;
      var b, boxY := SliceBox(patch, Height(xt, channelLast), Width(xt, channelLast)), SliceBox(patch, Height(yt, channelLast), Width(yt, channelLast));
      var row, col := RowOf(channelLast, i, j, k), ColOf(channelLast, i, j, k);
      && (InBounds(xt, i, j, k) ==> At(r.0, i, j, k) == h.fit(xt.dtype, if b.Contains(row, col) then At(xs, i, j, k) else At(xt, i, j, k)))
      && (InBounds(yt, i, j, k) ==> At(r.1, i, j, k) == h.fit(yt.dtype, if boxY.Contains(row, col) then At(ys, i, j, k) else At(yt, i, j, k)))
  {
  }

  /**
   * With min_size at least 0 the patch needs no slice clamping: the slices select exactly
   * [y0, y0 + patch_height) x [x0, x0 + patch_width).
   */
  lemma CutmixPatchUnclamped(height: nat, width: nat, minSize: real, maxSize: real, featherDist: int, d: Draws)
    requires d.Valid() && 0.0 <= minSize
    requires CutmixPatch(height, width, minSize, maxSize, false, featherDist, d).Success?
    ensures var patch := CutmixPatch(height, width, minSize, maxSize, false, featherDist, d).value;
      SliceBox(patch, height, width) == patch && 0 <= patch.x0 <= patch.x1 < width && 0 <= patch.y0 <= patch.y1 < height
  {
  }

  /**
   * Since x0 < width - patch_width and y0 < height - patch_height, a patch that is not
   * feathered never reaches the last column or the last row: those elements keep the target's.
   */
  lemma CutmixKeepsLastColumnAndRow(h: Helpers, xt: Grid, yt: Grid, xs: Grid, ys: Grid, chance: real, minSize: real,
                                    maxSize: real, code: int, featherDist: int, channelLast: bool, d: Draws,
                                    i: int, j: int, k: int)
    requires d.Valid()
    requires CutmixSpec(h, xt, yt, xs, ys, chance, minSize, maxSize, code, false, featherDist, channelLast, d).Success?
    requires InBounds(xt, i, j, k)
    requires ColOf(channelLast, i, j, k) == Width(xt, channelLast) - 1 || RowOf(channelLast, i, j, k) == Height(xt, channelLast) - 1
    ensures var r := CutmixSpec(h, xt, yt, xs, ys, chance, minSize, maxSize, code, false, featherDist, channelLast, d).value;
      At(r.0, i, j, k) == if Fires(d.gate, chance) then h.fit(xt.dtype, At(xt, i, j, k)) else At(xt, i, j, k)
  {
    if Fires(d.gate, chance) {
      var height, width := Height(xt, channelLast), Width(xt, channelLast);
      var patch := CutmixPatch(height, width, minSize, maxSize, false, featherDist, d).value;
      var b := SliceBox(patch, height, width);
      assert b.x1 < width && b.y1 < height;
      CutmixCopiesPatch(h, xt, yt, xs, ys, chance, minSize, maxSize, code, featherDist, channelLast, d, i, j, k);
    }
  }

  /**
   * Feathered cutmix touches only the widened, clamped box: outside it both X and y keep the
   * target's values (each fitted to its own dtype).
   */
  lemma CutmixFeatherOutside(h: Helpers, xt: Grid, yt: Grid, xs: Grid, ys: Grid, chance: real, minSize: real,
                             maxSize: real, code: int, featherDist: int, channelLast: bool, d: Draws, i: int, j: int, k: int)
    requires d.Valid() && Fires(d.gate, chance)
    requires CutmixSpec(h, xt, yt, xs, ys, chance, minSize, maxSize, code, true, featherDist, channelLast, d).Success?
    requires var patch := CutmixPatch(Height(xt, channelLast), Width(xt, channelLast), minSize, maxSize, true, featherDist, d).value;
      !FeatherBox(patch, featherDist, xt).Contains(RowOf(channelLast, i, j, k), ColOf(channelLast, i, j, k))
    ensures var r := CutmixSpec(h, xt, yt, xs, ys, chance, minSize, maxSize, code, true, featherDist, channelLast, d).value;
      && (InBounds(xt, i, j, k) ==> At(r.0, i, j, k) == h.fit(xt.dtype, At(xt, i, j, k)))
      && (InBounds(yt, i, j, k) ==> At(r.1, i, j, k) == h.fit(yt.dtype, At(yt, i, j, k)))
  {
  }

  /**
   * Inside the widened, clamped box feathered cutmix blends: X is the target and the donor under
   * the feather weight w of the element's row and column and 1 - w, and y is mixed by label_mix
   * under the same weights (each fitted to its own dtype).
   */
  lemma CutmixFeatherInside(h: Helpers, xt: Grid, yt: Grid, xs: Grid, ys: Grid, chance: real, minSize: real,
                            maxSize: real, code: int, featherDist: int, channelLast: bool, d: Draws, i: int, j: int, k: int)
    requires d.Valid() && Fires(d.gate, chance)
    requires CutmixSpec(h, xt, yt, xs, ys, chance, minSize, maxSize, code, true, featherDist, channelLast, d).Success?
    requires var patch := CutmixPatch(Height(xt, channelLast), Width(xt, channelLast), minSize, maxSize, true, featherDist, d).value;
      FeatherBox(patch, featherDist, xt).Contains(RowOf(channelLast, i, j, k), ColOf(channelLast, i, j, k))
    ensures var r := CutmixSpec(h, xt, yt, xs, ys, chance, minSize, maxSize, code, true, featherDist, channelLast, d).value;
      var patch := CutmixPatch(Height(xt, channelLast), Width(xt, channelLast), minSize, maxSize, true, featherDist, d).value;
      var w := h.feather(AsFloat32(xt), patch, featherDist);
      var row, col := RowOf(channelLast, i, j, k), ColOf(channelLast, i, j, k);
      && (InBounds(xt, i, j, k) ==>
            At(r.0, i, j, k) == h.fit(xt.dtype, Blend(At(xt, i, j, k), At(xs, i, j, k), w(row, col), 1.0 - w(row, col))))
      && (InBounds(yt, i, j, k) ==>
            At(r.1, i, j, k) == h.fit(yt.dtype, LabelMix(code, At(yt, i, j, k), At(ys, i, j, k), w(row, col), 1.0 - w(row, col))))
  {
  }

  /**
   * The feathered clamp bounds the rows by shape[0], which in the channel-first layout is the
   * channel count: rows at or past the number of channels are never touched.
   */
  lemma CutmixFeatherChannelFirstRows(h: Helpers, xt: Grid, yt: Grid, xs: Grid, ys: Grid, chance: real, minSize: real,
                                      maxSize: real, code: int, featherDist: int, d: Draws, i: int, j: int, k: int)
    requires d.Valid() && Fires(d.gate, chance)
    requires CutmixSpec(h, xt, yt, xs, ys, chance, minSize, maxSize, code, true, featherDist, false, d).Success?
    requires InBounds(xt, i, j, k) && Channels(xt, false) <= j
    ensures At(CutmixSpec(h, xt, yt, xs, ys, chance, minSize, maxSize, code, true, featherDist, false, d).value.0, i, j, k) ==
            h.fit(xt.dtype, At(xt, i, j, k))
  {
    CutmixFeatherOutside(h, xt, yt, xs, ys, chance, minSize, maxSize, code, featherDist, false, d, i, j, k);
  }

  /**
   * Codes 5 and 6 of cutmix pick opposite sides: with the target weight the larger, 5 keeps the
   * target and 6 takes the donor, and the other way round; equal weights take the donor for both.
   */
  lemma LabelMixWeights(t: real, s: real, wt: real, ws: real)
    ensures wt > ws ==> LabelMix(5, t, s, wt, ws) == t && LabelMix(6, t, s, wt, ws) == s
    ensures wt < ws ==> LabelMix(5, t, s, wt, ws) == s && LabelMix(6, t, s, wt, ws) == t
    ensures wt == ws ==> LabelMix(5, t, s, wt, ws) == s && LabelMix(6, t, s, wt, ws) == s
  {
  }

  /** A blend with weights w and 1 - w, w in [0, 1], lies between the two values. */
  lemma BlendBetween(t: real, s: real, w: real)
    requires 0.0 <= w <= 1.0
    ensures MinReal(t, s) <= Blend(t, s, w, 1.0 - w) <= MaxReal(t, s)
  {
    assert Blend(t, s, w, 1.0 - w) == s + w * (t - s);
    if t >= s {
      NonNegative(w, t - s);
      NonNegative(1.0 - w, t - s);
    } else {
      NonNegative(w, s - t);
      NonNegative(1.0 - w, s - t);
    }
  }

  // ---------------------------------------------------------------------------
  // Mixup (lines 954-989)

  /** The mixup coefficient min(uniform(min_size, max_size + 0.001), 1.0). */
  function MixupCoefficient(minSize: real, maxSize: real, u: real): (l: real)
    requires Unit(u)
    ensures l <= 1.0
    ensures minSize <= maxSize + 0.001 ==> MinReal(minSize, 1.0) <= l
  {
    MinReal(Uniform(minSize, maxSize + 0.001, u), 1.0)
  }

  /**
   * The mixup label of one element by label_mix: as in cutmix, with the coefficient as the target
   * weight, except that codes 5 and 6 both keep the target when the coefficient is at least 0.5.
   */
  function MixupLabel(code: int, t: real, s: real, l: real): real {
    if code == 0 then Blend(t, s, l, 1.0 - l)
    else if code == 2 then s
    else if code == 3 then MaxReal(t, s)
    else if code == 4 then MinReal(t, s)
    else if code == 5 || code == 6 then (if l >= 0.5 then t else s)
    else if code == 7 then t + s
    else t
  }

  /**
   * augmentation_mixup: X' = l * X_target + (1 - l) * X_source element by element, the label by
   * label_mix, each fitted to the target's dtype; the arrays must have one shape. channel_last is
   * accepted and ignored.
   */
  function Mixup(h: Helpers, xt: Grid, yt: Grid, xs: Grid, ys: Grid, minSize: real, maxSize: real, labelMix: int,
                 chance: real, d: Draws): (r: Result<(Grid, Grid), Fault>)
    requires d.Valid()
    ensures !Fires(d.gate, chance) ==> r == Success((xt, yt))
    ensures Fires(d.gate, chance) ==> (r.Failure? <==> !SameShape(xs, xt) || !SameShape(ys, yt))
    ensures r.Success? ==>
      r.value.0.dtype == xt.dtype && SameShape(r.value.0, xt) && r.value.1.dtype == yt.dtype && SameShape(r.value.1, yt)
    ensures Fires(d.gate, chance) && r.Success? ==>
      var l := MixupCoefficient(minSize, maxSize, d.mix);
      && (forall i, j, k :: InBounds(xt, i, j, k) ==>
            At(r.value.0, i, j, k) == h.fit(xt.dtype, Blend(At(xt, i, j, k), At(xs, i, j, k), l, 1.0 - l)))
      && (forall i, j, k :: InBounds(yt, i, j, k) ==>
            At(r.value.1, i, j, k) == h.fit(yt.dtype, MixupLabel(labelMix, At(yt, i, j, k), At(ys, i, j, k), l)))
  {
    if !Fires(d.gate, chance) then Success((xt, yt))
    else if !SameShape(xs, xt) || !SameShape(ys, yt) then Failure(ShapeMismatch)
    else
      var l := MixupCoefficient(minSize, maxSize, d.mix);
      var x := Build("float32", xt.d0, xt.d1, xt.d2, (i, j, k) => Blend(At(xt, i, j, k), At(xs, i, j, k), l, 1.0 - l));
      var y := Build("float32", yt.d0, yt.d1, yt.d2, (i, j, k) => MixupLabel(labelMix, At(yt, i, j, k), At(ys, i, j, k), l));
      Success((FitGrid(x, xt.dtype, h.fit), FitGrid(y, yt.dtype, h.fit)))
  }

  /** Codes 5 and 6 of mixup are the same rule: they give one result. */
  lemma MixupFiveIsSix(h: Helpers, xt: Grid, yt: Grid, xs: Grid, ys: Grid, minSize: real, maxSize: real, chance: real,
                       d: Draws)
    requires d.Valid()
    ensures Mixup(h, xt, yt, xs, ys, minSize, maxSize, 5, chance, d) == Mixup(h, xt, yt, xs, ys, minSize, maxSize, 6, chance, d)
  {
    if Fires(d.gate, chance) && SameShape(xs, xt) && SameShape(ys, yt) {
      var r5 := Mixup(h, xt, yt, xs, ys, minSize, maxSize, 5, chance, d).value;
      var r6 := Mixup(h, xt, yt, xs, ys, minSize, maxSize, 6, chance, d).value;
      SameGrid(r5.0, r6.0);
      forall i, j, k | InBounds(r5.1, i, j, k)
        ensures At(r5.1, i, j, k) == At(r6.1, i, j, k)
      {
        assert InBounds(yt, i, j, k);
      }
      SameGrid(r5.1, r6.1);
    }
  }

  /** A label_mix code outside 0..7 leaves the target label, only refitted. */
  lemma MixupUnknownCode(h: Helpers, xt: Grid, yt: Grid, xs: Grid, ys: Grid, minSize: real, maxSize: real, code: int,
                         chance: real, d: Draws)
    requires d.Valid() && Fires(d.gate, chance) && SameShape(xs, xt) && SameShape(ys, yt)
    requires code < 0 || 7 < code
    ensures Mixup(h, xt, yt, xs, ys, minSize, maxSize, code, chance, d).value.1 == FitGrid(yt, yt.dtype, h.fit)
  {
    var r := Mixup(h, xt, yt, xs, ys, minSize, maxSize, code, chance, d).value.1;
    var f := FitGrid(yt, yt.dtype, h.fit);
    forall i, j, k | InBounds(r, i, j, k)
      ensures At(r, i, j, k) == At(f, i, j, k)
    {
      assert InBounds(yt, i, j, k);
    }
    SameGrid(r, f);
  }

  /**
   * With 0 <= min_size <= max_size + 0.001 every mixed element of X, before the dtype fit, lies
   * between the target's and the donor's values.
   */
  lemma MixupBetween(xt: Grid, xs: Grid, minSize: real, maxSize: real, d: Draws, i: int, j: int, k: int)
    requires d.Valid() && 0.0 <= minSize <= maxSize + 0.001
    ensures var l := MixupCoefficient(minSize, maxSize, d.mix);
      MinReal(At(xt, i, j, k), At(xs, i, j, k)) <= Blend(At(xt, i, j, k), At(xs, i, j, k), l, 1.0 - l) <= MaxReal(At(xt, i, j, k), At(xs, i, j, k))
  {
    BlendBetween(At(xt, i, j, k), At(xs, i, j, k), MixupCoefficient(minSize, maxSize, d.mix));
  }
}
