/**
 * The random draws of the augmentation transforms, passed in as values.
 *
 * Every `np.random.rand()` / `np.random.random()` is a unit draw u with 0 <= u < 1;
 * `np.random.randint(lo, hi)` and `np.random.uniform(lo, hi)` are computed from one unit draw;
 * `np.random.normal` is a standard normal draw z scaled and shifted.
 */
module Randomness {

  /** A draw of `np.random.rand()`: a real in [0, 1). */
  predicate Unit(u: real) {
    0.0 <= u < 1.0
  }

  /**
   * The chance gate every transform opens with: it returns its inputs unchanged when
   * `np.random.rand() > chance`, so a draw equal to chance goes on.
   */
  predicate Fires(gate: real, chance: real) {
    !(gate > chance)
  }

  /** Python's int() of a float: the integer part, truncated toward zero. */
  function Trunc(x: real): (n: int)
    ensures 0.0 <= x ==> n as real <= x < n as real + 1.0
    ensures x < 0.0 ==> n as real - 1.0 < x <= n as real
  {
    if x >= 0.0 then x.Floor else -((-x).Floor)
  }

  /**
   * `np.random.randint(lo, hi)` for the unit draw u: lo + floor((hi - lo) * u). numpy refuses
   * an empty range (lo >= hi); callers model that error themselves.
   */
  function RandInt(lo: int, hi: int, u: real): (r: int)
    requires lo < hi && Unit(u)
    ensures lo <= r < hi
  {
    var span := (hi - lo) as real;
    ScaledBelow(span, u);
    FloorBelow(span * u, hi - lo);
    lo + (span * u).Floor
  }

  lemma FloorBelow(v: real, n: int)
    requires 0.0 <= v < n as real
    ensures 0 <= v.Floor < n
  {
  }

  lemma ScaledBelow(span: real, u: real)
    requires span >= 1.0 && Unit(u)
    ensures 0.0 <= span * u < span
  {
  }

  /** No integer of [lo, hi) is out of reach: randint with some unit draw returns it. */
  lemma RandIntOnto(lo: int, hi: int, n: int)
    requires lo <= n < hi
    ensures exists u :: Unit(u) && RandInt(lo, hi, u) == n
  {
    var span := (hi - lo) as real;
    var u := (n - lo) as real / span;
    assert span * u == (n - lo) as real;
    assert Unit(u);
    assert RandInt(lo, hi, u) == n;
  }

  /** `np.random.uniform(lo, hi)` for the unit draw u. */
  function Uniform(lo: real, hi: real, u: real): (r: real)
    requires Unit(u)
    ensures lo <= hi ==> lo <= r <= hi
    ensures lo < hi ==> r < hi
    ensures hi <= lo ==> hi <= r <= lo
  {
    UniformStep(lo, hi, u);
    lo + (hi - lo) * u
  }

  lemma UniformStep(lo: real, hi: real, u: real)
    requires Unit(u)
    ensures lo <= hi ==> 0.0 <= (hi - lo) * u <= hi - lo
    ensures lo < hi ==> (hi - lo) * u < hi - lo
    ensures hi <= lo ==> hi - lo <= (hi - lo) * u <= 0.0
  {
    var d := hi - lo;
    assert d * u + d * (1.0 - u) == d;
    if d >= 0.0 {
      NonNegative(d, u);
      NonNegative(d, 1.0 - u);
    }
    if d > 0.0 {
      assert 0.0 < d * (1.0 - u);
    }
    if d <= 0.0 {
      NonNegative(-d, u);
      NonNegative(-d, 1.0 - u);
    }
  }

  lemma NonNegative(a: real, b: real)
    requires 0.0 <= a && 0.0 <= b
    ensures 0.0 <= a * b
  {
  }

  /**
   * Everything the transforms draw, one field per call site. Unit fields are `rand()` draws,
   * the functions give one draw per channel or per element, and `normal` holds standard normal
   * draws for the noise transform.
   */
  datatype Draws = Draws(
    gate: real,                           // the chance gate of the transform
    gateX: real,                          // the inner gate of the call on X (blur_xy, sharpen_xy)
    gateY: real,                          // the inner gate of the call on y (blur_xy, sharpen_xy)
    turn: real,                           // randint(1, 4) for rotation and mirror
    amount: real,                         // rand() scaling max_amount
    pick: real,                           // randint(0, channels): the channel to drop or shift
    offsetX: real,                        // rand() for the misalign shift in x
    offsetY: real,                        // rand() for the misalign shift in y
    patchHeight: real,                    // randint for the cutmix patch height
    patchWidth: real,                     // randint for the cutmix patch width
    originX: real,                        // randint for the cutmix patch column
    originY: real,                        // randint for the cutmix patch row
    mix: real,                            // uniform(min_size, max_size + 0.001) for mixup
    donor: real,                          // randint(len(x_train)) choosing the donor sample
    perChannel: int -> real,              // uniform per channel (channel_scale)
    trials: int -> real,                  // rand() per channel (drop_channel)
    mask: (int, int, int) -> real,        // random(size=shape) (drop_pixel)
    normal: (int, int, int) -> real       // standard normal per element (noise)
  )
  {
    /** The unit draws lie in [0, 1). */
    ghost predicate Valid() {
      && Unit(gate) && Unit(gateX) && Unit(gateY) && Unit(turn) && Unit(amount) && Unit(pick)
      && Unit(offsetX) && Unit(offsetY) && Unit(patchHeight) && Unit(patchWidth)
      && Unit(originX) && Unit(originY) && Unit(mix) && Unit(donor)
      && (forall c :: Unit(perChannel(c)))
      && (forall c :: Unit(trials(c)))
      && (forall i, j, k :: Unit(mask(i, j, k)))
    }
  }

  /** A record of draws whose unit draws all lie in [0, 1). */
  type ValidDraws = d: Draws | d.Valid()
    witness Draws(0.0, 0.0, 0.0, 0.0, 0.0, 0.0, 0.0, 0.0, 0.0, 0.0, 0.0, 0.0, 0.0, 0.0,
                  c => 0.0, c => 0.0, (i, j, k) => 0.0, (i, j, k) => 0.0)
}
