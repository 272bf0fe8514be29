/**
 * The augmentation records of `buteo/ai/augmentation.py` and how their entries become the
 * arguments of a transform: the name selects the transform, every other entry is a keyword
 * argument, bound against the transform's signature with its defaults.
 */
module AugmentationArgs {
  import opened Wrappers
  import opened AugmentationFuncs

  /** A Python value held in an augmentation record. */
  datatype Value =
    | Int(i: int)
    | Float(f: real)
    | Bool(b: bool)
    | Str(s: string)
    | NoneValue
    | Other          // any value of another type

  /** One augmentation record: {"name": ..., keyword: value, ...}. */
  type Augmentation = map<string, Value>

  /** The fourteen transforms the pipeline can dispatch to. */
  datatype Transform =
    | RotationT | MirrorT | ChannelScaleT | NoiseT | ContrastT | DropPixelT | DropChannelT
    | BlurT | BlurXYT | SharpenT | SharpenXYT | MisalignT | CutmixT | MixupT

  /** What `__getitem__` can raise. */
  datatype AugError =
    | MissingName                          // KeyError: the record has no "name"
    | Unsupported(name: Value)             // ValueError naming the unrecognised name
    | DuplicateArgument(keys: set<string>) // TypeError: a keyword given twice (channel_last or a positional)
    | UnexpectedKeyword(keys: set<string>) // TypeError: keywords the transform does not take
    | BadArgument(keys: set<string>)       // a keyword whose value the transform cannot take
    | IndexOutOfRange(index: int)          // IndexError on x_train or y_train
    | NoDonor                              // ValueError: the donor randint(len(x_train)) over an empty dataset
    | TransformFailed(fault: Fault)        // raised inside the transform

  /** The name-to-transform mapping of the if/elif chain; every other value is not supported. */
  function TransformOf(name: Value): (t: Option<Transform>)
    ensures t.Some? ==> name.Str? && name == Str(NameOf(t.value))
  {
    if !name.Str? then None
    else match name.s
      case "rotation" => Some(RotationT)
      case "mirror" => Some(MirrorT)
      case "channel_scale" => Some(ChannelScaleT)
      case "noise" => Some(NoiseT)
      case "contrast" => Some(ContrastT)
      case "drop_pixel" => Some(DropPixelT)
      case "drop_channel" => Some(DropChannelT)
      case "blur" => Some(BlurT)
      case "blur_xy" => Some(BlurXYT)
      case "sharpen" => Some(SharpenT)
      case "sharpen_xy" => Some(SharpenXYT)
      case "misalign" => Some(MisalignT)
      case "cutmix" => Some(CutmixT)
      case "mixup" => Some(MixupT)
      case _ => None
  }

  /** The record name of each transform. */
  function NameOf(t: Transform): string {
    match t
    case RotationT => "rotation"
    case MirrorT => "mirror"
    case ChannelScaleT => "channel_scale"
    case NoiseT => "noise"
    case ContrastT => "contrast"
    case DropPixelT => "drop_pixel"
    case DropChannelT => "drop_channel"
    case BlurT => "blur"
    case BlurXYT => "blur_xy"
    case SharpenT => "sharpen"
    case SharpenXYT => "sharpen_xy"
    case MisalignT => "misalign"
    case CutmixT => "cutmix"
    case MixupT => "mixup"
  }

  /** Every transform is found under its own name, so the mapping is one-to-one. */
  lemma TransformOfName(t: Transform)
    ensures TransformOf(Str(NameOf(t))) == Some(t)
  {
  }

  /** Cutmix and mixup take a donor sample; every other transform takes only (x, y). */
  predicate TakesDonor(t: Transform) {
    t == CutmixT || t == MixupT
  }

  /** The names of the positional parameters, which a keyword may not repeat. */
  function Positionals(t: Transform): set<string> {
    if TakesDonor(t) then {"X_target", "y_target", "X_source", "y_source"} else {"X", "y"}
  }

  /** The keyword parameters of each transform, channel_last aside (the pipeline passes it itself). */
  function Keywords(t: Transform): set<string> {
    match t
    case RotationT => {"chance", "k"}
    case MirrorT => {"chance", "k"}
    case ChannelScaleT => {"chance", "max_amount", "additive"}
    case NoiseT => {"chance", "max_amount", "additive"}
    case ContrastT => {"chance", "max_amount"}
    case DropPixelT => {"chance", "drop_probability", "drop_value"}
    case DropChannelT => {"chance", "drop_probability", "drop_value"}
    case BlurT => {"chance", "intensity"}
    case BlurXYT => {"chance", "intensity"}
    case SharpenT => {"chance", "intensity"}
    case SharpenXYT => {"chance", "intensity"}
    case MisalignT => {"chance", "max_offset"}
    case CutmixT => {"chance", "min_size", "max_size", "label_mix", "feather", "feather_dist"}
    case MixupT => {"min_size", "max_size", "label_mix", "chance"}
  }

  /** The declared type of a keyword parameter. */
  datatype Kind = RealKind | IntKind | BoolKind | OptionalIntKind

  function KindOf(key: string): Kind {
    if key == "k" then OptionalIntKind
    else if key == "additive" || key == "feather" then BoolKind
    else if key == "label_mix" || key == "feather_dist" then IntKind
    else RealKind
  }

  /** The values a parameter of a kind accepts: numbers for a float, None or an int for k. */
  predicate Fits(kind: Kind, v: Value) {
    match kind
    case RealKind => v.Int? || v.Float?
    case IntKind => v.Int?
    case BoolKind => v.Bool?
    case OptionalIntKind => v.Int? || v.NoneValue?
  }

  /** The parameter values of one call, after binding. */
  datatype Params = Params(
    chance: real, k: Option<int>, maxAmount: real, additive: bool, dropProbability: real, dropValue: real,
    intensity: real, maxOffset: real, minSize: real, maxSize: real, labelMix: int, feather: bool, featherDist: int)

  /** The default of each keyword parameter in the signature of transform t. */
  function Default(t: Transform, key: string): Value {
    match key
    case "chance" => Float(0.2)
    case "k" => NoneValue
    case "max_amount" => Float(0.1)
    case "additive" => Bool(false)
    case "drop_probability" => if t == DropPixelT then Float(0.01) else Float(0.1)
    case "drop_value" => Float(0.0)
    case "intensity" => Float(1.0)
    case "max_offset" => Float(0.5)
    case "min_size" => Float(0.333)
    case "max_size" => Float(0.666)
    case "label_mix" => Int(0)
    case "feather" => Bool(false)
    case "feather_dist" => Int(3)
    case _ => NoneValue
  }

  /** The argument for key: the record's value when given, otherwise the default. */
  function Arg(t: Transform, kwargs: map<string, Value>, key: string): Value {
    if key in kwargs then kwargs[key] else Default(t, key)
  }

  function AsReal(v: Value): real {
    match v
    case Int(i) => i as real
    case Float(f) => f
    case _ => 0.0
  }

  function AsInt(v: Value): int { if v.Int? then v.i else 0 }

  function AsBool(v: Value): bool { v.Bool? && v.b }

  /** A value as the parameter of its kind receives it (an int given for a float becomes a float). */
  function Coerce(kind: Kind, v: Value): Value {
    match kind
    case RealKind => Float(AsReal(v))
    case IntKind => Int(AsInt(v))
    case BoolKind => Bool(AsBool(v))
    case OptionalIntKind => if v.Int? then v else NoneValue
  }

  /** The value a bound parameter holds, for each keyword. */
  function ParamOf(p: Params, key: string): Value {
    match key
    case "chance" => Float(p.chance)
    case "k" => if p.k.Some? then Int(p.k.value) else NoneValue
    case "max_amount" => Float(p.maxAmount)
    case "additive" => Bool(p.additive)
    case "drop_probability" => Float(p.dropProbability)
    case "drop_value" => Float(p.dropValue)
    case "intensity" => Float(p.intensity)
    case "max_offset" => Float(p.maxOffset)
    case "min_size" => Float(p.minSize)
    case "max_size" => Float(p.maxSize)
    case "label_mix" => Int(p.labelMix)
    case "feather" => Bool(p.feather)
    case "feather_dist" => Int(p.featherDist)
    case _ => NoneValue
  }

  /** The entries whose value the parameter of that name cannot take. */
  function Refused(kwargs: map<string, Value>): (keys: set<string>)
    ensures forall key :: key in keys <==> key in kwargs && !Fits(KindOf(key), kwargs[key])
  {
    set key | key in kwargs && !Fits(KindOf(key), kwargs[key])
  }

  /** Every parameter with its given or default value, as its declared type receives it. */
  function BindParams(t: Transform, kwargs: map<string, Value>): Params {
    Params(
      chance := AsReal(Arg(t, kwargs, "chance")),
      k := if Arg(t, kwargs, "k").Int? then Some(Arg(t, kwargs, "k").i) else None,
      maxAmount := AsReal(Arg(t, kwargs, "max_amount")),
      additive := AsBool(Arg(t, kwargs, "additive")),
      dropProbability := AsReal(Arg(t, kwargs, "drop_probability")),
      dropValue := AsReal(Arg(t, kwargs, "drop_value")),
      intensity := AsReal(Arg(t, kwargs, "intensity")),
      maxOffset := AsReal(Arg(t, kwargs, "max_offset")),
      minSize := AsReal(Arg(t, kwargs, "min_size")),
      maxSize := AsReal(Arg(t, kwargs, "max_size")),
      labelMix := AsInt(Arg(t, kwargs, "label_mix")),
      feather := AsBool(Arg(t, kwargs, "feather")),
      featherDist := AsInt(Arg(t, kwargs, "feather_dist")))
  }

  /**
   * Binding `func(x, y, [xx, yy,] channel_last=..., **kwargs)`: a keyword naming channel_last or a
   * positional parameter is given twice; a keyword the transform lacks is unexpected; a value the
   * parameter cannot take is refused; otherwise every parameter takes its given or default value.
   */
  function Bind(t: Transform, kwargs: map<string, Value>): (r: Result<Params, AugError>)
    ensures r.Success? <==>
      kwargs.Keys <= Keywords(t) && forall key :: key in kwargs ==> Fits(KindOf(key), kwargs[key])
    ensures kwargs.Keys * ({"channel_last"} + Positionals(t)) != {} ==>
      r.Failure? && r.error.DuplicateArgument? && r.error.keys == kwargs.Keys * ({"channel_last"} + Positionals(t))
    ensures r.Success? ==> r.value == BindParams(t, kwargs)
  {
    var twice := kwargs.Keys * ({"channel_last"} + Positionals(t));
    var unknown := kwargs.Keys - Keywords(t);
    if twice != {} then
      KeywordsArePlain(t);
      Failure(DuplicateArgument(twice))
    else if unknown != {} then Failure(UnexpectedKeyword(unknown))
    else if Refused(kwargs) != {} then Failure(BadArgument(Refused(kwargs)))
    else Success(BindParams(t, kwargs))
  }

  /** No keyword parameter is named channel_last or after a positional parameter. */
  lemma KeywordsArePlain(t: Transform)
    ensures Keywords(t) * ({"channel_last"} + Positionals(t)) == {}
  {
  }

  /** The names of all keyword parameters of the fourteen transforms. */
  const ParamNames: set<string> := {
    "chance", "k", "max_amount", "additive", "drop_probability", "drop_value", "intensity",
    "max_offset", "min_size", "max_size", "label_mix", "feather", "feather_dist"}

  lemma KeywordsAreParams(t: Transform)
    ensures Keywords(t) <= ParamNames
  {
  }

  /**
   * A successful binding gives every parameter of the transform exactly the record's value for
   * it, as its declared type receives it, and the signature's default when the record has none.
   */
  lemma BindTakesArguments(t: Transform, kwargs: map<string, Value>, key: string)
    requires Bind(t, kwargs).Success? && key in Keywords(t)
    ensures key in kwargs ==> ParamOf(Bind(t, kwargs).value, key) == Coerce(KindOf(key), kwargs[key])
    ensures key !in kwargs ==> ParamOf(Bind(t, kwargs).value, key) == Coerce(KindOf(key), Default(t, key))
  {
    KeywordsAreParams(t);
    BindParamsTakesArguments(t, kwargs, key);
  }

  lemma BindParamsTakesArguments(t: Transform, kwargs: map<string, Value>, key: string)
    requires key in ParamNames
    ensures ParamOf(BindParams(t, kwargs), key) == Coerce(KindOf(key), Arg(t, kwargs, key))
  {
    var p := BindParams(t, kwargs);
    if key == "chance" {
    } else if key == "k" {
    } else if key == "max_amount" {
    } else if key == "additive" {
    } else if key == "drop_probability" {
    } else if key == "drop_value" {
    } else if key == "intensity" {
    } else if key == "max_offset" {
    } else if key == "min_size" {
    } else if key == "max_size" {
    } else if key == "label_mix" {
    } else if key == "feather" {
    } else {
      assert key == "feather_dist";
    }
  }

  /** The keyword arguments of a record: every entry except "name". */
  function Kwargs(aug: Augmentation): (kwargs: map<string, Value>)
    ensures kwargs.Keys == aug.Keys - {"name"}
    ensures forall key :: key in kwargs ==> kwargs[key] == aug[key]
  {
    aug - {"name"}
  }
}
