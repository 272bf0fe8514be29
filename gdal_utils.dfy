/**
 * The argument checks and small parsers of `buteo/utils/gdal_utils.py`: the default GDAL
 * creation options, band lists, raster sizes given as numbers, the gdalwarp memory limit and
 * the in-memory test for paths. Python's loosely typed arguments are values of `Argument`.
 */
module GdalUtils {
  import opened Wrappers
  import opened Randomness

  /** A Python argument, told apart by the isinstance tests these functions make. */
  datatype Argument =
    | Int(i: int)
    | Float(f: real)
    | Bool(b: bool)             // a subclass of int in Python
    | Str(s: string)
    | List(items: seq<Argument>)
    | Tuple(items: seq<Argument>)
    | Dataset(handle: int)      // an open gdal.Dataset
    | NoneValue
    | Other                     // any value of another type

  /** The exceptions raised: a failed type assertion or TypeError, and the ValueErrors. */
  datatype GdalError =
    | WrongType
    | EmptyBandList
    | InvalidBand(value: Argument)
    | BandTooHigh
    | NotANumber
    | BadLength
    | InvalidTarget
    | MissingTarget
    | CannotOpen
    | InvalidLimit(limit: string)
    | NotAnInteger(text: string)

  // ---------------------------------------------------------------------------------------------
  // Strings

  /** sub occurs in s starting at index i. */
  predicate OccursAt(s: string, sub: string, i: int) {
    0 <= i && i + |sub| <= |s| && s[i..i + |sub|] == sub
  }

  /** Python's `sub in s` on strings. */
  predicate Contains(s: string, sub: string) {
    exists i | 0 <= i <= |s| :: OccursAt(s, sub, i)
  }

  /** Python's `" ".join(items)`. */
  function Join(items: seq<string>): string {
    if |items| == 0 then ""
    else if |items| == 1 then items[0]
    else Join(items[..|items| - 1]) + " " + items[|items| - 1]
  }

  /** What occurs in a string occurs in every string that extends it. */
  lemma ContainsExtended(s: string, t: string, sub: string)
    requires Contains(s, sub)
    ensures Contains(s + t, sub)
  {
    var i :| 0 <= i <= |s| && OccursAt(s, sub, i);
    assert (s + t)[i..i + |sub|] == s[i..i + |sub|];
    assert OccursAt(s + t, sub, i);
  }

  /** What occurs in a string occurs in every string that ends with it. */
  lemma ContainsPrefixed(s: string, t: string, sub: string)
    requires Contains(t, sub)
    ensures Contains(s + t, sub)
  {
    var i :| 0 <= i <= |t| && OccursAt(t, sub, i);
    assert (s + t)[|s| + i..|s| + i + |sub|] == t[i..i + |sub|];
    assert OccursAt(s + t, sub, |s| + i);
  }

  /** What occurs in a piece of s occurs in s. */
  lemma ContainsTransitive(s: string, t: string, sub: string)
    requires Contains(s, t) && Contains(t, sub)
    ensures Contains(s, sub)
  {
    var i :| 0 <= i <= |s| && OccursAt(s, t, i);
    var j :| 0 <= j <= |t| && OccursAt(t, sub, j);
    forall m | 0 <= m < |sub|
      ensures s[i + j..i + j + |sub|][m] == sub[m]
    {
      assert s[i..i + |t|][j + m] == t[j + m];
    }
    assert s[i + j..i + j + |sub|] == sub;
    assert OccursAt(s, sub, i + j);
  }

  /** Joining more items keeps the joined first items as a prefix. */
  lemma {:induction false} JoinExtended(items: seq<string>, more: seq<string>)
    ensures exists rest :: Join(items + more) == Join(items) + rest
    decreases |more|
  {
    if |more| == 0 {
      assert items + more == items;
      assert Join(items + more) == Join(items) + "";
    } else {
      var front := more[..|more| - 1];
      JoinExtended(items, front);
      var rest :| Join(items + front) == Join(items) + rest;
      assert (items + more)[..|items + more| - 1] == items + front;
      if |items + front| == 0 {
        assert Join(items + more) == Join(items) + more[|more| - 1];
      } else {
        assert Join(items + more) == Join(items) + (rest + " " + more[|more| - 1]);
      }
    }
  }

  /** Every item occurs in the joined string. */
  lemma {:induction false} JoinContainsItem(items: seq<string>, k: int)
    requires 0 <= k < |items|
    ensures Contains(Join(items), items[k])
    decreases |items|
  {
    var front := items[..|items| - 1];
    if |items| == 1 {
      assert items[k][0..|items[k]|] == items[k];
      assert OccursAt(Join(items), items[k], 0);
    } else if k == |items| - 1 {
      assert items[k][0..|items[k]|] == items[k];
      assert OccursAt(items[k], items[k], 0);
      ContainsPrefixed(Join(front) + " ", items[k], items[k]);
    } else {
      JoinContainsItem(front, k);
      ContainsExtended(Join(front), " " + items[|items| - 1], items[k]);
      assert Join(front) + (" " + items[|items| - 1]) == Join(items);
    }
  }

  // ---------------------------------------------------------------------------------------------
  // default_creation_options

  /** A default creation option and the key whose presence anywhere in the options suppresses it. */
  datatype CreationDefault = CreationDefault(key: string, option: string)

  const CreationDefaults: seq<CreationDefault> := [
    CreationDefault("TILED", "TILED=YES"),
    CreationDefault("NUM_THREADS", "NUM_THREADS=ALL_CPUS"),
    CreationDefault("BIGTIFF", "BIGTIFF=YES"),
    CreationDefault("COMPRESS", "COMPRESS=LZW")
  ]

  /** The option of one default when its key does not occur in joined. */
  function Added(joined: string, d: CreationDefault): seq<string> {
    if Contains(joined, d.key) then [] else [d.option]
  }

  /** The options of the defaults whose key does not occur in joined, in the order of the defaults. */
  function Missing(joined: string, defaults: seq<CreationDefault>): seq<string> {
    if |defaults| == 0 then [] else Added(joined, defaults[0]) + Missing(joined, defaults[1..])
  }

  /** Missing adds an option exactly for the defaults whose key is absent, and nothing else. */
  lemma {:induction false} MissingOptions(joined: string, defaults: seq<CreationDefault>)
    ensures forall o :: o in Missing(joined, defaults) ==>
              exists d :: d in defaults && d.option == o && !Contains(joined, d.key)
    ensures forall d :: d in defaults && !Contains(joined, d.key) ==> d.option in Missing(joined, defaults)
    ensures |Missing(joined, defaults)| <= |defaults|
    decreases |defaults|
  {
    if |defaults| > 0 {
      MissingOptions(joined, defaults[1..]);
      forall d | d in defaults && !Contains(joined, d.key)
        ensures d.option in Missing(joined, defaults)
      {
        if d != defaults[0] {
          assert d in defaults[1..];
        }
      }
    }
  }

  /** Every key occurring means nothing is added. */
  lemma {:induction false} MissingNothing(joined: string, defaults: seq<CreationDefault>)
    requires forall d :: d in defaults ==> Contains(joined, d.key)
    ensures Missing(joined, defaults) == []
    decreases |defaults|
  {
    if |defaults| > 0 {
      assert defaults[0] in defaults;
      forall d | d in defaults[1..]
        ensures Contains(joined, d.key)
      {
        assert d in defaults;
      }
      MissingNothing(joined, defaults[1..]);
    }
  }

  /** The four defaults, one after another. */
  lemma MissingInTurn(joined: string)
    ensures Missing(joined, CreationDefaults) ==
            Added(joined, CreationDefaults[0]) + Added(joined, CreationDefaults[1]) +
            Added(joined, CreationDefaults[2]) + Added(joined, CreationDefaults[3])
  {
    var ds := CreationDefaults;
    assert Missing(joined, ds[3..]) == Added(joined, ds[3]) + Missing(joined, ds[4..]);
    assert Missing(joined, ds[2..]) == Added(joined, ds[2]) + Missing(joined, ds[2..][1..]);
    assert ds[2..][1..] == ds[3..];
    assert Missing(joined, ds[1..]) == Added(joined, ds[1]) + Missing(joined, ds[1..][1..]);
    assert ds[1..][1..] == ds[2..];
  }

  /** `default_creation_options`: the options, then every default whose key they do not mention. */
  function WithDefaults(options: seq<string>): seq<string> {
    options + Missing(Join(options), CreationDefaults)
  }

  /** The defaults appended one after another, as the source does. */
  lemma DefaultsInTurn(options: seq<string>)
    ensures WithDefaults(options) ==
            options + Added(Join(options), CreationDefaults[0]) + Added(Join(options), CreationDefaults[1]) +
            Added(Join(options), CreationDefaults[2]) + Added(Join(options), CreationDefaults[3])
  {
    MissingInTurn(Join(options));
  }

  /**
   * The result is a copy of the options followed only by defaults; a default is among the added
   * options exactly when its key is not a substring of the space-joined options.
   */
  lemma WithDefaultsAppends(options: seq<string>, d: CreationDefault)
    requires d in CreationDefaults
    ensures WithDefaults(options)[..|options|] == options
    ensures |WithDefaults(options)| <= |options| + 4
    ensures d.option in WithDefaults(options)[|options|..] <==> !Contains(Join(options), d.key)
  {
    var r := WithDefaults(options);
    MissingOptions(Join(options), CreationDefaults);
    assert r[|options|..] == Missing(Join(options), CreationDefaults);
    if d.option in r[|options|..] {
      var e :| e in CreationDefaults && e.option == d.option && !Contains(Join(options), e.key);
      assert e == d;
    }
  }

  /** Every default's key occurs in its option. */
  lemma KeysInOptions(d: CreationDefault)
    requires d in CreationDefaults
    ensures Contains(d.option, d.key)
  {
    assert OccursAt(d.option, d.key, 0);
  }

  /** Applying the defaults twice appends nothing the second time. */
  lemma WithDefaultsIdempotent(options: seq<string>)
    ensures WithDefaults(WithDefaults(options)) == WithDefaults(options)
  {
    var r := WithDefaults(options);
    var added := Missing(Join(options), CreationDefaults);
    MissingOptions(Join(options), CreationDefaults);
    JoinExtended(options, added);
    var rest :| Join(r) == Join(options) + rest;
    forall d | d in CreationDefaults
      ensures Contains(Join(r), d.key)
    {
      if Contains(Join(options), d.key) {
        ContainsExtended(Join(options), rest, d.key);
      } else {
        var k :| 0 <= k < |added| && added[k] == d.option;
        assert r[|options| + k] == d.option;
        JoinContainsItem(r, |options| + k);
        KeysInOptions(d);
        ContainsTransitive(Join(r), d.option, d.key);
      }
    }
    MissingNothing(Join(r), CreationDefaults);
  }

  /** `default_creation_options`: the copied list with each missing default appended in turn. */
  method DefaultCreationOptions(options: seq<string>) returns (internal: seq<string>)
    ensures internal == WithDefaults(options)
  {
    internal := options;
    var joined := Join(options);
    ghost var ds := CreationDefaults;
    if !Contains(joined, "TILED") {
      internal := internal + ["TILED=YES"];
    }
    assert internal == options + Added(joined, ds[0]);
    if !Contains(joined, "NUM_THREADS") {
      internal := internal + ["NUM_THREADS=ALL_CPUS"];
    }
    assert internal == options + Added(joined, ds[0]) + Added(joined, ds[1]);
    if !Contains(joined, "BIGTIFF") {
      internal := internal + ["BIGTIFF=YES"];
    }
    assert internal == options + Added(joined, ds[0]) + Added(joined, ds[1]) + Added(joined, ds[2]);
    if !Contains(joined, "COMPRESS") {
      internal := internal + ["COMPRESS=LZW"];
    }
    DefaultsInTurn(options);
  }

  // ---------------------------------------------------------------------------------------------
  // Numbers

  predicate IsDigit(c: char) {
    '0' <= c <= '9'
  }

  predicate AllDigits(ds: string) {
    forall k :: 0 <= k < |ds| ==> IsDigit(ds[k])
  }

  /** The value of a string of decimal digits. */
  function DigitsValue(ds: string): nat
    requires AllDigits(ds)
  {
    if |ds| == 0 then 0 else DigitsValue(ds[..|ds| - 1]) * 10 + (ds[|ds| - 1] as int - '0' as int)
  }

  /** Python's int() of a string: an optional sign and one or more decimal digits. */
  function ParseInt(s: string): (n: Option<int>) {
    var negative := |s| > 0 && s[0] == '-';
    var digits := if |s| > 0 && (s[0] == '-' || s[0] == '+') then s[1..] else s;
    if |digits| > 0 && AllDigits(digits) then
      Some(if negative then -(DigitsValue(digits) as int) else DigitsValue(digits))
    else None
  }

  /** The decimal digits of n. */
  function Digits(n: nat): (ds: string)
    ensures |ds| > 0 && AllDigits(ds)
  {
    if n < 10 then [('0' as int + n) as char] else Digits(n / 10) + [('0' as int + n % 10) as char]
  }

  /** Python's str() of an int. */
  function Decimal(n: int): string {
    if n < 0 then "-" + Digits(-n) else Digits(n)
  }

  lemma {:induction false} DigitsValueOfDigits(n: nat)
    ensures DigitsValue(Digits(n)) == n
  {
    if n >= 10 {
      DigitsValueOfDigits(n / 10);
      var ds := Digits(n);
      assert ds[..|ds| - 1] == Digits(n / 10);
    }
  }

  /** A digit string, with or without a minus sign in front, parses to its value. */
  lemma ParseDigits(ds: string)
    requires |ds| > 0 && AllDigits(ds)
    ensures ParseInt(ds) == Some(DigitsValue(ds))
    ensures ParseInt("-" + ds) == Some(-(DigitsValue(ds) as int))
  {
    assert IsDigit(ds[0]);
    assert ("-" + ds)[0] == '-' && ("-" + ds)[1..] == ds;
  }

  /** int(str(n)) == n: the parser reads back every integer the printer writes. */
  lemma ParseDecimal(n: int)
    ensures ParseInt(Decimal(n)) == Some(n)
  {
    var m := if n < 0 then -n else n;
    DigitsValueOfDigits(m);
    ParseDigits(Digits(m));
  }

  /** Python's int() of a value, None where it raises. */
  function IntOf(v: Argument): Option<int> {
    match v
    case Int(i) => Some(i)
    case Bool(b) => Some(if b then 1 else 0)
    case Float(f) => Some(Trunc(f))
    case Str(s) => ParseInt(s)
    case _ => None
  }

  /** isinstance(v, (int, float)), which holds for bool as well. */
  predicate IsNumber(v: Argument) {
    v.Int? || v.Float? || v.Bool?
  }

  /** Python's float() of a number. */
  function RealOf(v: Argument): real
    requires IsNumber(v)
  {
    match v
    case Int(i) => i as real
    case Float(f) => f
    case Bool(b) => if b then 1.0 else 0.0
  }

  /** int() and float() of a number agree up to truncation toward zero. */
  lemma IntOfNumber(v: Argument)
    requires IsNumber(v)
    ensures IntOf(v) == Some(Trunc(RealOf(v)))
  {
  }

  // ---------------------------------------------------------------------------------------------
  // to_band_list

  /** The band a list element names, or the error the loop raises at it. */
  function ListedBand(v: Argument, count: int): (r: Result<int, GdalError>)
    ensures r.Success? <==> IntOf(v).Some? && IntOf(v).value <= count - 1
    ensures r.Success? ==> r.value == IntOf(v).value
  {
    match IntOf(v)
    case None => Failure(InvalidBand(v))
    case Some(b) => if b > count - 1 then Failure(BandTooHigh) else Success(b)
  }

  /**
   * The loop over a band list, after its first n elements: each converted in order, the first
   * element that int() refuses or that exceeds band_count - 1 ending it with its error.
   */
  function ListBands(items: seq<Argument>, count: int, n: nat): (r: Result<seq<int>, GdalError>)
    requires n <= |items|
    ensures r.Success? <==> forall k :: 0 <= k < n ==> ListedBand(items[k], count).Success?
    ensures r.Success? ==> |r.value| == n && forall k :: 0 <= k < n ==> r.value[k] == ListedBand(items[k], count).value
    ensures r.Failure? ==> exists k :: 0 <= k < n && ListedBand(items[k], count).Failure? &&
                                       r == Failure(ListedBand(items[k], count).error) &&
                                       forall j :: 0 <= j < k ==> ListedBand(items[j], count).Success?
  {
    if n == 0 then Success([])
    else
      var before := ListBands(items, count, n - 1);
      if before.Failure? then before
      else match ListedBand(items[n - 1], count)
        case Failure(e) => Failure(e)
        case Success(b) => Success(before.value + [b])
  }

  /** [0, 1, ..., count - 1], empty when count is not positive: `range(band_count)`. */
  function Range(count: int): (r: seq<int>)
    ensures |r| == if count < 0 then 0 else count
    ensures forall k :: 0 <= k < |r| ==> r[k] == k
  {
    seq(if count < 0 then 0 else count, k => k)
  }

  /** `to_band_list(band_number, band_count)` as written. */
  function BandList(band: Argument, count: int): (r: Result<seq<int>, GdalError>)
    ensures !IsNumber(band) && !band.List? ==> r == Failure(WrongType)
    ensures band.List? && |band.items| == 0 ==> r == Failure(EmptyBandList)
    ensures band.List? && |band.items| > 0 ==> r == ListBands(band.items, count, |band.items|)
    ensures IsNumber(band) && RealOf(band) == -1.0 ==> r == Success(Range(count))
    ensures IsNumber(band) && RealOf(band) != -1.0 ==>
              (r.Failure? <==> RealOf(band) > (count + 1) as real) &&
              (r.Success? ==> r.value == [Trunc(RealOf(band))])
  {
    match band
    case List(items) => if |items| == 0 then Failure(EmptyBandList) else ListBands(items, count, |items|)
    case Int(_) | Float(_) | Bool(_) =>
      if RealOf(band) == -1.0 then Success(Range(count))
      else if RealOf(band) > (count + 1) as real then Failure(BandTooHigh)
      else Success([IntOf(band).value])
    case _ => Failure(WrongType)
  }

  /** A single band number above band_count - 1 is accepted: 4 with three bands gives [4]. */
  lemma BandListAcceptsMissingBand()
    ensures BandList(Int(4), 3) == Success([4]) && 4 > 3 - 1
    ensures BandList(List([Int(4)]), 3) == Failure(BandTooHigh)
  {
    assert ListedBand(Int(4), 3) == Failure(BandTooHigh);
  }

  /** `to_band_list` with the bound of the list branch, band_count - 1, for a single band as well. */
  function CheckedBandList(band: Argument, count: int): (r: Result<seq<int>, GdalError>)
    ensures !(IsNumber(band) && RealOf(band) != -1.0) ==> r == BandList(band, count)
  {
    match band
    case List(items) => if |items| == 0 then Failure(EmptyBandList) else ListBands(items, count, |items|)
    case Int(_) | Float(_) | Bool(_) =>
      if RealOf(band) == -1.0 then Success(Range(count))
      else if RealOf(band) > (count - 1) as real then Failure(BandTooHigh)
      else Success([IntOf(band).value])
    case _ => Failure(WrongType)
  }

  /** With the corrected bound, every band returned exists: it is at most band_count - 1. */
  lemma CheckedBandsExist(band: Argument, count: int)
    ensures var r := CheckedBandList(band, count);
            r.Success? ==> forall k :: 0 <= k < |r.value| ==> r.value[k] <= count - 1
  {
    var r := CheckedBandList(band, count);
    if r.Success? && IsNumber(band) && RealOf(band) != -1.0 {
      TruncAtMost(RealOf(band), count - 1);
    }
  }

  /** Truncation toward zero does not lift a real above an integer bound it stays under. */
  lemma TruncAtMost(x: real, n: int)
    requires x <= n as real
    ensures Trunc(x) <= n
  {
  }

  /** `to_band_list`: return_list built up by appending, in the list loop or over range(band_count). */
  method ToBandList(band: Argument, count: int) returns (r: Result<seq<int>, GdalError>)
    ensures r == BandList(band, count)
  {
    var bands: seq<int> := [];
    if !(band.Int? || band.Float? || band.Bool? || band.List?) {
      return Failure(WrongType);
    }
    if band.List? {
      if |band.items| == 0 {
        return Failure(EmptyBandList);
      }
      var n := 0;
      while n < |band.items|
        invariant 0 <= n <= |band.items|
        invariant ListBands(band.items, count, n) == Success(bands)
      {
        var value := IntOf(band.items[n]);
        if value.None? {
          return Failure(InvalidBand(band.items[n]));
        }
        if value.value > count - 1 {
          return Failure(BandTooHigh);
        }
        bands := bands + [value.value];
        n := n + 1;
      }
    } else if RealOf(band) == -1.0 {
      var n := 0;
      while n < count
        invariant if count < 0 then n == 0 else 0 <= n <= count
        invariant bands == Range(n)
      {
        bands := bands + [n];
        n := n + 1;
      }
      assert bands == Range(count);
    } else {
      if RealOf(band) > (count + 1) as real {
        return Failure(BandTooHigh);
      }
      bands := [IntOf(band).value];
    }
    return Success(bands);
  }

  // ---------------------------------------------------------------------------------------------
  // parse_raster_size

  /** `(x_res, y_res, x_pixels, y_pixels)`, each possibly None. */
  datatype RasterSize = RasterSize(xRes: Option<real>, yRes: Option<real>, xPixels: Option<int>, yPixels: Option<int>)

  /** A GDAL geotransform: origin, pixel width, rotation, origin, rotation, pixel height. */
  type GeoTransform = t: seq<real> | |t| == 6 witness [0.0, 1.0, 0.0, 0.0, 0.0, -1.0]

  function Abs(x: real): real {
    if x < 0.0 then -x else x
  }

  /**
   * The x and y numbers a size names: a number, or a list or tuple of one number, twice; a list or
   * tuple of two numbers in order; None for a two-element list or tuple holding something else.
   */
  function SizeArguments(target: Argument): (r: Result<Option<(Argument, Argument)>, GdalError>)
    ensures r.Success? && r.value.Some? ==> IsNumber(r.value.value.0) && IsNumber(r.value.value.1)
  {
    if target.List? || target.Tuple? then
      if |target.items| == 1 then
        if IsNumber(target.items[0]) then Success(Some((target.items[0], target.items[0]))) else Failure(NotANumber)
      else if |target.items| == 2 then
        if IsNumber(target.items[0]) && IsNumber(target.items[1]) then Success(Some((target.items[0], target.items[1])))
        else Success(None)
      else Failure(BadLength)
    else if IsNumber(target) then Success(Some((target, target)))
    else Failure(InvalidTarget)
  }

  /**
   * `parse_raster_size(target, target_in_pixels=inPixels)`. A dataset or a path is read through
   * `open`, which stands for gdal.Open and GetGeoTransform and is None when GDAL cannot open it.
   */
  function ParseRasterSize(target: Argument, inPixels: bool, open: Argument -> Option<GeoTransform>)
    : (r: Result<RasterSize, GdalError>)
    ensures target.NoneValue? ==> r == Failure(MissingTarget)
    ensures (target.Dataset? || target.Str?) && r.Success? ==>
              r.value.xPixels.None? && r.value.yPixels.None? && r.value.yRes.Some? && r.value.yRes.value >= 0.0
    ensures !(target.Dataset? || target.Str?) && r.Success? && inPixels ==> r.value.xRes.None? && r.value.yRes.None?
    ensures !(target.Dataset? || target.Str?) && r.Success? && !inPixels ==> r.value.xPixels.None? && r.value.yPixels.None?
    ensures (target.List? || target.Tuple?) && (|target.items| == 0 || |target.items| > 2) ==> r == Failure(BadLength)
    ensures (target.Dataset? || target.Str?) && open(target).None? ==> r == Failure(CannotOpen)
    ensures (target.Dataset? || target.Str?) && open(target).Some? ==>
              var t := open(target).value;
              r == Success(RasterSize(Some(t[1]), Some(Abs(t[5])), None, None))
    ensures IsNumber(target) ==> r.Success? && r.value.xPixels == r.value.yPixels && r.value.xRes == r.value.yRes
    ensures IsNumber(target) && inPixels ==> r.value.xPixels == Some(Trunc(RealOf(target)))
    ensures IsNumber(target) && !inPixels ==> r.value.xRes == Some(RealOf(target))
    ensures (target.List? || target.Tuple?) && |target.items| == 1 && !IsNumber(target.items[0]) ==> r == Failure(NotANumber)
    ensures !(target.List? || target.Tuple? || target.Dataset? || target.Str? || target.NoneValue?) && !IsNumber(target) ==>
              r == Failure(InvalidTarget)
  {
    if target.NoneValue? then Failure(MissingTarget)
    else if target.Dataset? || target.Str? then
      match open(target)
      case None => Failure(CannotOpen)
      case Some(t) => Success(RasterSize(Some(t[1]), Some(Abs(t[5])), None, None))
    else
      match SizeArguments(target)
      case Failure(e) => Failure(e)
      case Success(None) => Success(RasterSize(None, None, None, None))
      case Success(Some((x, y))) =>
        if inPixels then Success(RasterSize(None, None, Some(IntOf(x).value), Some(IntOf(y).value)))
        else Success(RasterSize(Some(RealOf(x)), Some(RealOf(y)), None, None))
  }

  /** A one-element list or tuple of a number gives the same size as the number itself. */
  lemma RasterSizeOfSingleton(v: Argument, inPixels: bool, open: Argument -> Option<GeoTransform>)
    requires IsNumber(v)
    ensures ParseRasterSize(List([v]), inPixels, open) == ParseRasterSize(v, inPixels, open)
    ensures ParseRasterSize(Tuple([v]), inPixels, open) == ParseRasterSize(v, inPixels, open)
  {
  }

  /**
   * Two numbers give x from the first and y from the second, so swapping them swaps the axes;
   * a pair holding anything else silently gives no size at all.
   */
  lemma RasterSizeOfPair(a: Argument, b: Argument, inPixels: bool, open: Argument -> Option<GeoTransform>)
    ensures var r, s := ParseRasterSize(List([a, b]), inPixels, open), ParseRasterSize(List([b, a]), inPixels, open);
            if IsNumber(a) && IsNumber(b) then
              r.Success? && s.Success? &&
              r.value.xRes == s.value.yRes && r.value.yRes == s.value.xRes &&
              r.value.xPixels == s.value.yPixels && r.value.yPixels == s.value.xPixels &&
              (inPixels ==> r.value.xPixels == Some(Trunc(RealOf(a))) && r.value.yPixels == Some(Trunc(RealOf(b)))) &&
              (!inPixels ==> r.value.xRes == Some(RealOf(a)) && r.value.yRes == Some(RealOf(b)))
            else
              r == Success(RasterSize(None, None, None, None))
  {
    if IsNumber(a) && IsNumber(b) {
      IntOfNumber(a);
      IntOfNumber(b);
    }
  }

  // ---------------------------------------------------------------------------------------------
  // get_gdalwarp_ram_limit

  /** The smallest limit handed to gdalwarp, in bytes. */
  const MinRam := 1000000

  /** Bytes in a mebibyte: `1024 ** 2`. */
  const Mebibyte := 1048576

  /** str.lower() on ASCII letters. */
  function Lower(s: string): (r: string)
    ensures |r| == |s|
    ensures forall k :: 0 <= k < |s| ==> r[k] == if 'A' <= s[k] <= 'Z' then (s[k] as int + 32) as char else s[k]
  {
    seq(|s|, k requires 0 <= k < |s| => if 'A' <= s[k] <= 'Z' then (s[k] as int + 32) as char else s[k])
  }

  /** str.replace(c, ""): the string with every c removed. */
  function Without(s: string, c: char): (r: string)
    ensures forall k :: 0 <= k < |r| ==> r[k] != c
    ensures |r| <= |s|
  {
    if |s| == 0 then "" else Without(s[..|s| - 1], c) + (if s[|s| - 1] == c then "" else [s[|s| - 1]])
  }

  /**
   * `get_gdalwarp_ram_limit(limit)` as written: "auto" in any case gives `dynamicLimit`
   * (get_dynamic_memory_limit_bytes()); "p%" gives `percentOfRam(p)` mebibytes
   * (get_percentage_of_total_ram_mb(p)) when that exceeds MinRam bytes, else MinRam; an integer
   * leaves the limit at MinRam.
   */
  function RamLimit(limit: Argument, dynamicLimit: int, percentOfRam: int -> int): (r: Result<int, GdalError>)
    ensures !(limit.Str? || limit.Int? || limit.Bool?) ==> r == Failure(WrongType)
    ensures limit.Int? || limit.Bool? ==> r == Success(MinRam)
    ensures limit.Str? && Lower(limit.s) == "auto" ==> r == Success(dynamicLimit)
    ensures limit.Str? && Lower(limit.s) != "auto" && !Contains(limit.s, "%") ==> r == Failure(InvalidLimit(limit.s))
    ensures limit.Str? && Lower(limit.s) != "auto" && Contains(limit.s, "%") ==>
              var text := Without(limit.s, '%');
              ParseInt(text).None? ==> r == Failure(NotAnInteger(text))
    ensures limit.Str? && Lower(limit.s) != "auto" ==>
              var p := ParseInt(Without(limit.s, '%'));
              p.Some? && (p.value <= 0 || p.value > 100) ==> r == Failure(InvalidLimit(limit.s))
    ensures limit.Str? && Lower(limit.s) != "auto" && Contains(limit.s, "%") ==>
              var p := ParseInt(Without(limit.s, '%'));
              p.Some? && 0 < p.value <= 100 ==>
                var bytes := percentOfRam(p.value) * Mebibyte;
                r.Success? && r.value >= MinRam && r.value >= bytes && (r.value == MinRam || r.value == bytes)
    ensures r.Success? && !(limit.Str? && Lower(limit.s) == "auto") ==> r.value >= MinRam
  {
    match limit
    case Str(s) =>
      if Lower(s) == "auto" then Success(dynamicLimit)
      else if !Contains(s, "%") then Failure(InvalidLimit(s))
      else
        var text := Without(s, '%');
        (match ParseInt(text)
         case None => Failure(NotAnInteger(text))
         case Some(p) =>
           if p <= 0 || p > 100 then Failure(InvalidLimit(s))
           else
             var bytes := percentOfRam(p) * Mebibyte;
             if bytes > MinRam then Success(bytes) else Success(MinRam))
    case Int(_) | Bool(_) =>
      var bytes := MinRam;
      if bytes > MinRam then Success(bytes) else Success(MinRam)
    case _ => Failure(WrongType)
  }

  /** An integer limit is ignored as written: asking for 4096 MB gives 1000000 bytes. */
  lemma RamLimitIgnoresMegabytes(dynamicLimit: int, percentOfRam: int -> int)
    ensures RamLimit(Int(4096), dynamicLimit, percentOfRam) == Success(MinRam)
    ensures 4096 * Mebibyte > MinRam
  {
  }

  /** `get_gdalwarp_ram_limit` with an integer limit (a bool among them) in megabytes converted to bytes. */
  function CheckedRamLimit(limit: Argument, dynamicLimit: int, percentOfRam: int -> int): (r: Result<int, GdalError>)
    ensures !(limit.Int? || limit.Bool?) ==> r == RamLimit(limit, dynamicLimit, percentOfRam)
    ensures limit.Bool? ==> r == Success(if limit.b && Mebibyte > MinRam then Mebibyte else MinRam)
  {
    match limit
    case Int(_) | Bool(_) =>
      var bytes := IntOf(limit).value * Mebibyte; if bytes > MinRam then Success(bytes) else Success(MinRam)
    case _ => RamLimit(limit, dynamicLimit, percentOfRam)
  }

  /**
   * With the conversion, a limit of mb megabytes gives mb * 1024 ** 2 bytes whenever that exceeds
   * the minimum, and never less than the minimum.
   */
  lemma CheckedRamLimitHonoursMegabytes(mb: int, dynamicLimit: int, percentOfRam: int -> int)
    ensures var r := CheckedRamLimit(Int(mb), dynamicLimit, percentOfRam);
            r.Success? && r.value >= MinRam && (mb * Mebibyte > MinRam ==> r.value == mb * Mebibyte)
  {
  }

  // ---------------------------------------------------------------------------------------------
  // is_in_memory

  /** `is_in_memory` of a path: GDAL's in-memory files live under "/vsimem". */
  function InMemory(path: string): (r: bool)
    ensures r <==> OccursAt(path, "/vsimem", 0)
  {
    |path| >= 7 && path[..7] == "/vsimem"
  }

  /** A path under /vsimem/ is in memory, whatever its name, and so is anything a memory path prefixes. */
  lemma InMemoryPaths(name: string, path: string, suffix: string)
    ensures InMemory("/vsimem/" + name)
    ensures InMemory(path) ==> InMemory(path + suffix)
  {
    assert ("/vsimem/" + name)[..7] == "/vsimem";
    if InMemory(path) {
      assert (path + suffix)[..7] == path[..7];
    }
  }
}
