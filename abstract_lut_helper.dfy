/** The abstract LUT helper: the range-type predicate, the choice of number
    format for lines, the 1D/2D and 3D grid samplers, the line functions the
    1D/2D writers hand to a format's hook, and the export message. */
module AbstractLutHelper {
  import opened Wrappers
  import opened Presets

  /** An RGB triplet. */
  datatype Rgb<T> = Rgb(r: T, g: T, b: T)

  /** The colour processor's `applyRGB`: an opaque, pure transform of three
      channel values. */
  type Transform = (real, real, real) -> Rgb<real>

  /** The dimensionality a sampler was asked for. */
  datatype Dimensionality = OneOrTwoD | ThreeD

  /** Preset keys whose absence the samplers can run into. */
  datatype PresetKey = OutBitDepthKey | CubeSizeKey

  /** The exceptions raised along the modelled paths. */
  datatype LutError =
    | PresetMismatch(expected: Dimensionality)  // AbstractLUTException
    | MissingKey(key: PresetKey)                // KeyError on the preset dictionary
    | JsonHelperException(message: string)      // raised by the JSON helper
    | UnpackError(wanted: nat, got: nat)        // ValueError of a tuple assignment
    | MissingAttribute(name: string)            // AttributeError on a class

  // ---------------------------------------------------------------------
  // Range type

  /** `is_int`: a range is integer-typed when both of its bounds are. */
  predicate IsInt(testRange: Range)
  {
    testRange.lo.I? && testRange.hi.I?
  }

  /** `is_intput_int`: the input range of a preset is integer-typed. */
  predicate IsInputInt(p: Preset)
  {
    IsInt(p.inRange)
  }

  /** `is_output_int`: the output range of a preset is integer-typed. */
  predicate IsOutputInt(p: Preset)
  {
    IsInt(p.outRange)
  }

  /** A range is integer-typed exactly when both bounds are Python ints,
      whatever their values: the same bound written as a float (`1.0` for
      `1`) makes the range non-integer. */
  lemma IsIntByTags(testRange: Range)
    ensures IsInt(testRange) <==> exists lo: int, hi: int :: testRange == Range(I(lo), I(hi))
    ensures !IsInt(Range(testRange.lo, F(Value(testRange.hi))))
    ensures !IsInt(Range(F(Value(testRange.lo)), testRange.hi))
  {
    if IsInt(testRange) {
      assert testRange == Range(I(testRange.lo.i), I(testRange.hi.i));
    }
  }

  // ---------------------------------------------------------------------
  // Line patterns

  /** `_get_pattern_1d`: the format string of a one-channel line. */
  function Pattern1D(p: Preset): string
  {
    if IsOutputInt(p) then "{0}\n" else "{0:.6f}\n"
  }

  /** `_get_pattern`: the format string of a three-channel line. */
  function Pattern(p: Preset): string
  {
    if IsOutputInt(p) then "{0} {1} {2}\n" else "{0:.6f} {1:.6f} {2:.6f}\n"
  }

  /** How a replacement field renders its number: as Python's `str`, or
      with six digits after the decimal point. */
  datatype FieldFormat = Bare | SixDecimals

  /** A replacement field `{i}` or `{i:.6f}` of a format string. */
  datatype Placeholder = Placeholder(index: nat, format: FieldFormat)

  predicate SmallIndices(fields: seq<Placeholder>)
  {
    forall i :: 0 <= i < |fields| ==> fields[i].index < 10
  }

  function Digit(d: nat): char
    requires d < 10
  {
    ('0' as int + d) as char
  }

  /** The text of one replacement field. */
  function FieldText(ph: Placeholder): string
    requires ph.index < 10
  {
    if ph.format == Bare then ['{', Digit(ph.index), '}']
    else ['{', Digit(ph.index), ':', '.', '6', 'f', '}']
  }

  /** The text of a line pattern: its fields separated by single spaces,
      ended by a newline. */
  function PatternText(fields: seq<Placeholder>): string
    requires |fields| > 0 && SmallIndices(fields)
  {
    if |fields| == 1 then FieldText(fields[0]) + "\n"
    else FieldText(fields[0]) + " " + PatternText(fields[1..])
  }

  /** Reads one replacement field off the front of a format string. */
  function ReadField(s: string): (r: Option<(Placeholder, string)>)
    ensures r.Some? ==> |r.value.1| < |s|
  {
    if |s| >= 3 && s[0] == '{' && '0' <= s[1] <= '9' && s[2] == '}' then
      Some((Placeholder(s[1] as int - '0' as int, Bare), s[3..]))
    else if |s| >= 7 && s[0] == '{' && '0' <= s[1] <= '9' && s[2..7] == ":.6f}" then
      Some((Placeholder(s[1] as int - '0' as int, SixDecimals), s[7..]))
    else
      None
  }

  /** Reads a whole line pattern back into its replacement fields. */
  function ReadPattern(s: string): Option<seq<Placeholder>>
    decreases |s|
  {
    match ReadField(s)
    case None => None
    case Some((ph, rest)) =>
      if rest == "\n" then Some([ph])
      else if |rest| > 0 && rest[0] == ' ' then
        match ReadPattern(rest[1..])
        case None => None
        case Some(more) => Some([ph] + more)
      else None
  }

  lemma ReadFieldText(ph: Placeholder, rest: string)
    requires ph.index < 10
    ensures ReadField(FieldText(ph) + rest) == Some((ph, rest))
  {
    var s := FieldText(ph) + rest;
    if ph.format == Bare {
      assert s[3..] == rest;
    } else {
      assert s[2..7] == ":.6f}";
      assert s[7..] == rest;
    }
  }

  /** Reading a printed pattern gives back its fields. */
  lemma {:induction false} ReadPatternText(fields: seq<Placeholder>)
    requires |fields| > 0 && SmallIndices(fields)
    ensures ReadPattern(PatternText(fields)) == Some(fields)
  {
    if |fields| == 1 {
      ReadFieldText(fields[0], "\n");
      assert [fields[0]] == fields;
    } else {
      var rest := PatternText(fields[1..]);
      assert FieldText(fields[0]) + " " + rest == FieldText(fields[0]) + (" " + rest);
      ReadFieldText(fields[0], " " + rest);
      ReadPatternText(fields[1..]);
      assert (" " + rest)[1..] == rest;
      assert [fields[0]] + fields[1..] == fields;
    }
  }

  /** The one-channel pattern has a single field, `{0}`, which is bare
      exactly when the output range is integer-typed. */
  lemma Pattern1DFields(p: Preset)
    ensures ReadPattern(Pattern1D(p)) ==
            Some([Placeholder(0, if IsOutputInt(p) then Bare else SixDecimals)])
  {
    var f := if IsOutputInt(p) then Bare else SixDecimals;
    assert Pattern1D(p) == PatternText([Placeholder(0, f)]);
    ReadPatternText([Placeholder(0, f)]);
  }

  /** The three-channel pattern has the fields `{0} {1} {2}`, all bare
      exactly when the output range is integer-typed. */
  lemma PatternFields(p: Preset)
    ensures var f := if IsOutputInt(p) then Bare else SixDecimals;
            ReadPattern(Pattern(p)) ==
            Some([Placeholder(0, f), Placeholder(1, f), Placeholder(2, f)])
  {
    var f := if IsOutputInt(p) then Bare else SixDecimals;
    var fields := [Placeholder(0, f), Placeholder(1, f), Placeholder(2, f)];
    assert Pattern(p) == PatternText(fields) by {
      if IsOutputInt(p) {
        BarePatternText();
      } else {
        SixDecimalsPatternText();
      }
    }
    ReadPatternText(fields);
  }

  lemma BarePatternText()
    ensures "{0} {1} {2}\n" == PatternText([Placeholder(0, Bare), Placeholder(1, Bare), Placeholder(2, Bare)])
  {
  }

  lemma SixDecimalsPatternText()
    ensures "{0:.6f} {1:.6f} {2:.6f}\n" ==
            PatternText([Placeholder(0, SixDecimals), Placeholder(1, SixDecimals), Placeholder(2, SixDecimals)])
  {
    var a, b, c := Placeholder(0, SixDecimals), Placeholder(1, SixDecimals), Placeholder(2, SixDecimals);
    assert PatternText([a, b, c]) == FieldText(a) + " " + PatternText([b, c]) by {
      assert [a, b, c][1..] == [b, c];
    }
    assert FieldText(a) == "{0:.6f}";
    SixDecimalsTailText();
    SixDecimalsSplit();
  }

  lemma SixDecimalsSplit()
    ensures "{0:.6f} {1:.6f} {2:.6f}\n" == "{0:.6f}" + " " + "{1:.6f} {2:.6f}\n"
  {
  }

  lemma SixDecimalsTailText()
    ensures "{1:.6f} {2:.6f}\n" == PatternText([Placeholder(1, SixDecimals), Placeholder(2, SixDecimals)])
  {
    var b, c := Placeholder(1, SixDecimals), Placeholder(2, SixDecimals);
    assert PatternText([c]) == "{2:.6f}\n" by {
      assert FieldText(c) == "{2:.6f}";
    }
    assert FieldText(b) == "{1:.6f}";
    assert [b, c][1..] == [c];
  }

  // ---------------------------------------------------------------------
  // Line functions

  /** A line as `pattern.format(*args)`; the rendering of the numbers as
      text is not modelled. */
  datatype Line = Line(pattern: string, args: seq<Num>)

  /** `_get_r_value_line` and `_get_rgb_value_line`. */
  datatype LineFunction = RValueLine | RgbValueLine

  function ApplyLineFunction(lf: LineFunction, p: Preset, rgb: Rgb<Num>): Line
  {
    match lf
    case RValueLine => Line(Pattern1D(p), [rgb.r])
    case RgbValueLine => Line(Pattern(p), [rgb.r, rgb.g, rgb.b])
  }

  /** Every line a line function builds has one replacement field per
      value, numbered in order, in the format the output range selects. */
  lemma LineFieldsMatchValues(lf: LineFunction, p: Preset, rgb: Rgb<Num>)
    ensures var line := ApplyLineFunction(lf, p, rgb);
            var fields := ReadPattern(line.pattern);
            fields.Some? && |fields.value| == |line.args| &&
            forall i :: 0 <= i < |line.args| ==>
              fields.value[i] == Placeholder(i, if IsOutputInt(p) then Bare else SixDecimals)
  {
    if lf == RValueLine {
      Pattern1DFields(p);
    } else {
      PatternFields(p);
    }
  }

  /** `write_1d_lut`: the line function it passes to the writer hook renders
      the red channel alone with the one-channel pattern. */
  function Write1DLineFunction(): (lf: LineFunction)
    ensures forall p, rgb :: ApplyLineFunction(lf, p, rgb) == Line(Pattern1D(p), [rgb.r])
  {
    RValueLine
  }

  /** `write_2d_lut`: the line function it passes to the writer hook renders
      red, green and blue with the three-channel pattern. */
  function Write2DLineFunction(): (lf: LineFunction)
    ensures forall p, rgb ::
      ApplyLineFunction(lf, p, rgb) == Line(Pattern(p), [rgb.r, rgb.g, rgb.b])
  {
    RgbValueLine
  }

  // ---------------------------------------------------------------------
  // Remapping and quantisation

  /** Python's `int` on a float: truncation toward zero. */
  function Trunc(x: real): (t: int)
    ensures 0.0 <= x ==> 0 <= t && t as real <= x < t as real + 1.0
    ensures x < 0.0 ==> t <= 0 && t as real - 1.0 < x <= t as real
  {
    if x >= 0.0 then x.Floor else -((-x).Floor)
  }

  lemma TruncMonotone(x: real, y: real)
    requires x <= y
    ensures Trunc(x) <= Trunc(y)
  {
  }

  /** One output channel: `x * out_hi + out_lo`, truncated when the output
      range is integer-typed. */
  function RemapChannel(outRange: Range, x: real): Num
  {
    var v := x * Value(outRange.hi) + Value(outRange.lo);
    if IsInt(outRange) then I(Trunc(v)) else F(v)
  }

  function RemapRgb(outRange: Range, c: Rgb<real>): Rgb<Num>
  {
    Rgb(RemapChannel(outRange, c.r), RemapChannel(outRange, c.g), RemapChannel(outRange, c.b))
  }

  /** The samples of a transform at a sequence of input triplets. */
  function Remapped(apply: Transform, outRange: Range, inputs: seq<Rgb<real>>): seq<Rgb<Num>>
  {
    seq(|inputs|, i requires 0 <= i < |inputs| =>
      RemapRgb(outRange, apply(inputs[i].r, inputs[i].g, inputs[i].b)))
  }

  lemma RemappedAppend(apply: Transform, outRange: Range, inputs: seq<Rgb<real>>, x: Rgb<real>)
    ensures Remapped(apply, outRange, inputs + [x]) ==
            Remapped(apply, outRange, inputs) + [RemapRgb(outRange, apply(x.r, x.g, x.b))]
  {
  }

  lemma PrefixWhole<T>(s: seq<T>, t: seq<T>)
    requires |t| == |s| && t == s[..|t|]
    ensures t == s
  {
  }

  lemma PrefixAppend<T>(s: seq<T>, k: nat)
    requires k < |s|
    ensures s[..k] + [s[k]] == s[..k + 1]
  {
  }

  /** The quantisation bound: a channel in `[0, 1]` remapped into a
      non-negative output range `[lo, hi]` lies between `lo` and
      `hi + lo`. With an integer-typed range it is an int, the value
      `x * hi + lo` rounded down, so also between the int bounds; with a
      float range it is a float. */
  lemma RemapChannelBounds(outRange: Range, x: real)
    requires 0.0 <= x <= 1.0
    requires 0.0 <= Value(outRange.lo) && 0.0 <= Value(outRange.hi)
    ensures var n := RemapChannel(outRange, x);
            var v := x * Value(outRange.hi) + Value(outRange.lo);
            Value(outRange.lo) <= Value(n) <= Value(outRange.hi) + Value(outRange.lo) &&
            (n.I? <==> IsInt(outRange)) &&
            (IsInt(outRange) ==>
               outRange.lo.i <= n.i <= outRange.hi.i + outRange.lo.i &&
               n.i as real <= v < n.i as real + 1.0)
  {
    var hi, lo := Value(outRange.hi), Value(outRange.lo);
    var v := x * hi + lo;
    assert lo <= v <= hi + lo by {
      MulNonNegative(x, hi);
      MulNonNegative(1.0 - x, hi);
      assert hi - x * hi == (1.0 - x) * hi;
    }
    if IsInt(outRange) {
      var k := Trunc(v);
      assert k as real <= v < k as real + 1.0;
      assert outRange.lo.i <= k by {
        assert (outRange.lo.i as real) <= v;
      }
      assert k <= outRange.hi.i + outRange.lo.i by {
        assert v <= (outRange.hi.i + outRange.lo.i) as real;
      }
      assert RemapChannel(outRange, x) == I(k);
    } else {
      assert RemapChannel(outRange, x) == F(v);
    }
  }

  lemma MulNonNegative(a: real, b: real)
    requires 0.0 <= a && 0.0 <= b
    ensures 0.0 <= a * b
  {
  }

  /** With a non-negative `out_hi`, remapping keeps the order of values. */
  lemma RemapChannelMonotone(outRange: Range, x: real, y: real)
    requires x <= y && Value(outRange.hi) >= 0.0
    ensures Value(RemapChannel(outRange, x)) <= Value(RemapChannel(outRange, y))
  {
    var hi, lo := Value(outRange.hi), Value(outRange.lo);
    var u, v := x * hi + lo, y * hi + lo;
    assert u <= v by {
      MulNonNegative(y - x, hi);
      assert v - u == (y - x) * hi;
    }
    if IsInt(outRange) {
      TruncMonotone(u, v);
      var tu, tv := Trunc(u), Trunc(v);
      assert tu as real <= tv as real;
      assert RemapChannel(outRange, x) == I(tu);
      assert RemapChannel(outRange, y) == I(tv);
    } else {
      assert RemapChannel(outRange, x) == F(u);
      assert RemapChannel(outRange, y) == F(v);
    }
  }

  // ---------------------------------------------------------------------
  // Grids

  /** `numpy.linspace(lo, hi, n)` over the reals: `n` evenly spaced values
      from `lo` to `hi`, both included; a single value is `lo`. */
  function Linspace(lo: real, hi: real, n: nat): (s: seq<real>)
    ensures |s| == n
    ensures n >= 1 ==> s[0] == lo
    ensures n >= 2 ==> s[n - 1] == hi
  {
    var s := seq(n, k requires 0 <= k < n =>
      if n == 1 then lo else lo + (k as real) * ((hi - lo) / ((n - 1) as real)));
    assert n >= 2 ==> s[n - 1] == hi by {
      if n >= 2 {
        var d := (n - 1) as real;
        assert d * ((hi - lo) / d) == hi - lo;
      }
    }
    s
  }

  /** Consecutive grid values are one step `(hi - lo) / (n - 1)` apart. */
  lemma LinspaceStep(lo: real, hi: real, n: nat, k: nat)
    requires 2 <= n && k + 1 < n
    ensures Linspace(lo, hi, n)[k + 1] - Linspace(lo, hi, n)[k] == (hi - lo) / ((n - 1) as real)
  {
    var step := (hi - lo) / ((n - 1) as real);
    assert ((k + 1) as real) * step == (k as real) * step + step;
  }

  /** The grid is ascending when `lo <= hi`. */
  lemma LinspaceAscending(lo: real, hi: real, n: nat, j: nat, k: nat)
    requires lo <= hi && j <= k < n
    ensures Linspace(lo, hi, n)[j] <= Linspace(lo, hi, n)[k]
  {
    if n >= 2 {
      var step := (hi - lo) / ((n - 1) as real);
      assert step >= 0.0;
      assert (k as real) * step - (j as real) * step == ((k - j) as real) * step;
      assert ((k - j) as real) * step >= 0.0;
    }
  }

  /** `pow(2, e)`. */
  function Pow2(e: nat): (r: nat)
    ensures r >= 1
    ensures e >= 1 ==> r >= 2 && r % 2 == 0
  {
    if e == 0 then 1 else 2 * Pow2(e - 1)
  }

  /** The grey input triplet `[v, v, v]`. */
  function Grey(v: real): Rgb<real>
  {
    Rgb(v, v, v)
  }

  /** The inputs of a 1D/2D LUT: `2^bitDepth` grey triplets along the input
      range, in ascending order of the grid. */
  function Grid1D(inRange: Range, bitDepth: nat): seq<Rgb<real>>
  {
    var computeRange := Linspace(Value(inRange.lo), Value(inRange.hi), Pow2(bitDepth));
    seq(|computeRange|, k requires 0 <= k < |computeRange| => Grey(computeRange[k]))
  }

  /** A 1D/2D grid has `2^bitDepth` entries; entry `k` is the grey triplet
      of grid value `k`, the first is the low end of the input range and,
      from bit depth 1 on, the last is the high end. */
  lemma Grid1DShape(inRange: Range, bitDepth: nat)
    ensures var grid := Grid1D(inRange, bitDepth);
            var cr := Linspace(Value(inRange.lo), Value(inRange.hi), Pow2(bitDepth));
            |grid| == Pow2(bitDepth) &&
            (forall k :: 0 <= k < |grid| ==> grid[k] == Grey(cr[k])) &&
            grid[0] == Grey(Value(inRange.lo)) &&
            (bitDepth >= 1 ==> grid[|grid| - 1] == Grey(Value(inRange.hi)))
  {
  }

  /** A transform that keeps the order of grey inputs in every channel. */
  ghost predicate MonotoneOnGrey(apply: Transform)
  {
    forall u: real, v: real {:trigger apply(u, u, u), apply(v, v, v)} :: u <= v ==>
      apply(u, u, u).r <= apply(v, v, v).r &&
      apply(u, u, u).g <= apply(v, v, v).g &&
      apply(u, u, u).b <= apply(v, v, v).b
  }

  /** With an ascending input range, a non-negative `out_hi` and a transform
      monotone on the grey axis, 1D/2D samples are non-decreasing. */
  lemma Sample1DMonotone(apply: Transform, inRange: Range, outRange: Range, bitDepth: nat, j: nat, k: nat)
    requires Value(inRange.lo) <= Value(inRange.hi) && Value(outRange.hi) >= 0.0
    requires MonotoneOnGrey(apply)
    requires j <= k < Pow2(bitDepth)
    ensures var s := Remapped(apply, outRange, Grid1D(inRange, bitDepth));
            Value(s[j].r) <= Value(s[k].r) &&
            Value(s[j].g) <= Value(s[k].g) &&
            Value(s[j].b) <= Value(s[k].b)
  {
    var cr := Linspace(Value(inRange.lo), Value(inRange.hi), Pow2(bitDepth));
    LinspaceAscending(Value(inRange.lo), Value(inRange.hi), Pow2(bitDepth), j, k);
    var u, v := cr[j], cr[k];
    var cu, cv := apply(u, u, u), apply(v, v, v);
    RemapChannelMonotone(outRange, cu.r, cv.r);
    RemapChannelMonotone(outRange, cu.g, cv.g);
    RemapChannelMonotone(outRange, cu.b, cv.b);
  }

  /** The position of `(red, green, blue)` in a cube of side `n`. */
  function Index3(n: nat, red: nat, green: nat, blue: nat): nat
  {
    red + n * green + n * n * blue
  }

  lemma MulAtLeast(k: int, n: int)
    requires k >= 1 && n > 0
    ensures k * n >= n
  {
  }

  lemma DivModUnique(a: int, n: int, q: int, r: int)
    requires 0 < n && 0 <= r < n && a == q * n + r
    ensures a / n == q && a % n == r
  {
    var q', r' := a / n, a % n;
    assert (q - q') * n == r' - r;
    if q > q' {
      MulAtLeast(q - q', n);
    } else if q < q' {
      MulAtLeast(q' - q, n);
    }
  }

  lemma DivBelow(a: nat, n: nat, m: nat)
    requires 0 < n && a < m * n
    ensures a / n < m
  {
  }

  /** The coordinates `(red, green, blue)` of position `i` in a cube of
      side `n`. */
  function Cell3(n: nat, i: nat): (c: (nat, nat, nat))
    requires i < n * n * n
    ensures c.0 < n && c.1 < n && c.2 < n
  {
    assert 0 < n;
    assert i < (n * n) * n;
    DivBelow(i, n, n * n);
    DivBelow(i / n, n, n);
    (i % n, (i / n) % n, i / n / n)
  }

  lemma MulMonotone(c: nat, a: nat, b: nat)
    requires a <= b
    ensures c * a <= c * b
  {
    assert c * b - c * a == c * (b - a);
  }

  /** Every `(red, green, blue)` with all three below `n` lies in the cube. */
  lemma Index3Bound(n: nat, red: nat, green: nat, blue: nat)
    requires red < n && green < n && blue < n
    ensures Index3(n, red, green, blue) < n * n * n
  {
    MulMonotone(n, green + 1, n);
    assert red + n * green < n * n;
    MulMonotone(n * n, blue + 1, n);
    assert n * n * (blue + 1) == n * n * blue + n * n;
  }

  /** Walking past the last red value of a row moves to the next row, past
      the last row of a plane to the next plane, past the last plane to the
      end of the cube. */
  lemma Index3Carry(n: nat, green: nat, blue: nat)
    ensures Index3(n, n, green, blue) == Index3(n, 0, green + 1, blue)
    ensures Index3(n, 0, n, blue) == Index3(n, 0, 0, blue + 1)
    ensures Index3(n, 0, 0, n) == n * n * n
  {
  }

  lemma Index3Nested(n: nat, red: nat, green: nat, blue: nat)
    ensures Index3(n, red, green, blue) == (green + n * blue) * n + red
  {
    var q := green + n * blue;
    assert q * n == green * n + (n * blue) * n;
    assert (n * blue) * n == n * n * blue;
    assert green * n == n * green;
  }

  /** A plane starts at a multiple of the plane size. */
  lemma Index3Plane(n: nat, blue: nat)
    ensures Index3(n, 0, 0, blue) == n * n * blue
  {
  }

  /** `Index3` and `Cell3` are inverse on the cube. */
  lemma Index3Cell3(n: nat, red: nat, green: nat, blue: nat)
    requires red < n && green < n && blue < n
    ensures Index3(n, red, green, blue) < n * n * n
    ensures Cell3(n, Index3(n, red, green, blue)) == (red, green, blue)
  {
    Index3Bound(n, red, green, blue);
    var i := Index3(n, red, green, blue);
    assert i % n == red && i / n == green + n * blue by {
      Index3Nested(n, red, green, blue);
      DivModUnique(i, n, green + n * blue, red);
    }
    assert (i / n) % n == green && i / n / n == blue by {
      DivModUnique(green + n * blue, n, blue, green);
    }
  }

  /** The inputs of a 3D LUT: the `n^3` points of the cube over the input
      range, position `i` holding the grid values at the coordinates of
      `Cell3(n, i)`. */
  function Grid3D(inRange: Range, n: nat): seq<Rgb<real>>
  {
    var computeRange := Linspace(Value(inRange.lo), Value(inRange.hi), n);
    seq(n * n * n, i requires 0 <= i < n * n * n =>
      var c := Cell3(n, i);
      Rgb(computeRange[c.0], computeRange[c.1], computeRange[c.2]))
  }

  /** A 3D grid has `n^3` entries, and the entry at `red + n*green +
      n*n*blue` is `(cr[red], cr[green], cr[blue])`: red varies fastest,
      blue slowest. */
  lemma Grid3DAt(inRange: Range, n: nat, red: nat, green: nat, blue: nat)
    requires red < n && green < n && blue < n
    ensures var grid := Grid3D(inRange, n);
            var cr := Linspace(Value(inRange.lo), Value(inRange.hi), n);
            |grid| == n * n * n && Index3(n, red, green, blue) < |grid| &&
            grid[Index3(n, red, green, blue)] == Rgb(cr[red], cr[green], cr[blue])
  {
    Index3Cell3(n, red, green, blue);
  }

  /** The identity transform. */
  function Identity(r: real, g: real, b: real): Rgb<real>
  {
    Rgb(r, g, b)
  }

  /** One entry of the two-point identity cube over `[0, 1]`. */
  lemma IdentityCubeEntry(red: nat, green: nat, blue: nat)
    requires red < 2 && green < 2 && blue < 2
    ensures var unit := Range(I(0), I(1));
            var s := Remapped(Identity, unit, Grid3D(unit, 2));
            |s| == 8 && s[Index3(2, red, green, blue)] == Rgb(I(red), I(green), I(blue))
  {
    var unit := Range(I(0), I(1));
    var cr := Linspace(0.0, 1.0, 2);
    assert cr[0] == 0.0 && cr[1] == 1.0;
    assert forall k: nat :: k < 2 ==> cr[k] == k as real;
    Grid3DAt(unit, 2, red, green, blue);
    var point := Grid3D(unit, 2)[Index3(2, red, green, blue)];
    assert point == Rgb(red as real, green as real, blue as real);
    UnitRemap(red);
    UnitRemap(green);
    UnitRemap(blue);
    assert Identity(point.r, point.g, point.b) == point;
    var grid := Grid3D(unit, 2);
    var samples := Remapped(Identity, unit, grid);
    assert |grid| == 8;
    assert |samples| == 8;
    assert samples[Index3(2, red, green, blue)] == RemapRgb(unit, point);
    assert RemapRgb(unit, point) == Rgb(I(red), I(green), I(blue));
  }

  lemma UnitRemap(k: nat)
    ensures RemapChannel(Range(I(0), I(1)), k as real) == I(k)
  {
    assert (k as real) * 1.0 + 0.0 == k as real;
  }

  /** With input and output range `[0, 1]`, cube size 2 and the identity
      transform, the samples are the eight corners, red fastest. */
  lemma IdentityCubeOfSide2()
    ensures var unit := Range(I(0), I(1));
            Remapped(Identity, unit, Grid3D(unit, 2)) ==
            [Rgb(I(0), I(0), I(0)), Rgb(I(1), I(0), I(0)), Rgb(I(0), I(1), I(0)), Rgb(I(1), I(1), I(0)),
             Rgb(I(0), I(0), I(1)), Rgb(I(1), I(0), I(1)), Rgb(I(0), I(1), I(1)), Rgb(I(1), I(1), I(1))]
  {
    var unit := Range(I(0), I(1));
    var s := Remapped(Identity, unit, Grid3D(unit, 2));
    assert s[0] == Rgb(I(0), I(0), I(0)) by { IdentityCubeEntry(0, 0, 0); }
    assert s[1] == Rgb(I(1), I(0), I(0)) by { IdentityCubeEntry(1, 0, 0); }
    assert s[2] == Rgb(I(0), I(1), I(0)) by { IdentityCubeEntry(0, 1, 0); }
    assert s[3] == Rgb(I(1), I(1), I(0)) by { IdentityCubeEntry(1, 1, 0); }
    assert s[4] == Rgb(I(0), I(0), I(1)) by { IdentityCubeEntry(0, 0, 1); }
    assert s[5] == Rgb(I(1), I(0), I(1)) by { IdentityCubeEntry(1, 0, 1); }
    assert s[6] == Rgb(I(0), I(1), I(1)) by { IdentityCubeEntry(0, 1, 1); }
    assert s[7] == Rgb(I(1), I(1), I(1)) by { IdentityCubeEntry(1, 1, 1); }
  }

  // ---------------------------------------------------------------------
  // Samplers

  /** The remapping both samplers apply to a transform result: each channel
      `x` becomes `x * out_hi + out_lo`, truncated when `isInt`. */
  method RemapSample(outputRange: Range, isInt: bool, res: Rgb<real>) returns (sample: Rgb<Num>)
    requires isInt == IsInt(outputRange)
    ensures sample == RemapRgb(outputRange, res)
  {
    var r := res.r * Value(outputRange.hi) + Value(outputRange.lo);
    var g := res.g * Value(outputRange.hi) + Value(outputRange.lo);
    var b := res.b * Value(outputRange.hi) + Value(outputRange.lo);
    if isInt {
      sample := Rgb(I(Trunc(r)), I(Trunc(g)), I(Trunc(b)));
    } else {
      sample := Rgb(F(r), F(g), F(b));
    }
    assert RemapChannel(outputRange, res.r) == sample.r;
    assert RemapChannel(outputRange, res.g) == sample.g;
    assert RemapChannel(outputRange, res.b) == sample.b;
  }

  /** `_get_1d_data`. Besides the samples it returns `inputs`, the triplets
      handed to the transform, in call order. A preset that is not 1D/2D, or
      one without a bit depth, fails before any transform call. */
  method Get1DData(apply: Transform, preset: Preset)
    returns (result: Result<seq<Rgb<Num>>, LutError>, inputs: seq<Rgb<real>>)
    ensures !Is1DOr2DPreset(preset) ==>
              result == Failure(PresetMismatch(OneOrTwoD)) && inputs == []
    ensures Is1DOr2DPreset(preset) && preset.outBitDepth.None? ==>
              result == Failure(MissingKey(OutBitDepthKey)) && inputs == []
    ensures Is1DOr2DPreset(preset) && preset.outBitDepth.Some? ==>
              inputs == Grid1D(preset.inRange, preset.outBitDepth.value) &&
              result == Success(Remapped(apply, preset.outRange, inputs))
  {
    if !Is1DOr2DPreset(preset) {
      return Failure(PresetMismatch(OneOrTwoD)), [];
    }
    var inputRange := preset.inRange;
    var outputRange := preset.outRange;
    if preset.outBitDepth.None? {
      return Failure(MissingKey(OutBitDepthKey)), [];
    }
    var samplesCount := Pow2(preset.outBitDepth.value);
    var isInt := IsOutputInt(preset);
    var computeRange := Linspace(Value(inputRange.lo), Value(inputRange.hi), samplesCount);
    var data: seq<Rgb<Num>> := [];
    inputs := [];
    for k := 0 to |computeRange|
      invariant |inputs| == |data| == k
      invariant forall i :: 0 <= i < k ==> inputs[i] == Grey(computeRange[i])
      invariant forall i :: 0 <= i < k ==>
        data[i] == RemapRgb(outputRange, apply(inputs[i].r, inputs[i].g, inputs[i].b))
    {
      var codeValue := computeRange[k];
      var res := apply(codeValue, codeValue, codeValue);
      var sample := RemapSample(outputRange, isInt, res);
      data := data + [sample];
      inputs := inputs + [Rgb(codeValue, codeValue, codeValue)];
    }
    ghost var grid := Grid1D(inputRange, preset.outBitDepth.value);
    assert |grid| == |inputs|;
    assert forall i :: 0 <= i < |inputs| ==> inputs[i] == grid[i];
    assert inputs == grid;
    ghost var expected := Remapped(apply, outputRange, inputs);
    assert forall i :: 0 <= i < |data| ==> data[i] == expected[i];
    assert data == expected;
    result := Success(data);
  }

  /** One step of the cube walk: the next point of the grid is the one at
      the current coordinates, and its sample extends the samples so far. */
  lemma Grid3DStep(apply: Transform, inRange: Range, outRange: Range, n: nat,
                   red: nat, green: nat, blue: nat, inputs: seq<Rgb<real>>)
    requires red < n && green < n && blue < n
    requires |inputs| == Index3(n, red, green, blue)
    requires |inputs| <= |Grid3D(inRange, n)| && inputs == Grid3D(inRange, n)[..|inputs|]
    ensures var cr := Linspace(Value(inRange.lo), Value(inRange.hi), n);
            var point := Rgb(cr[red], cr[green], cr[blue]);
            |inputs| + 1 <= |Grid3D(inRange, n)| &&
            inputs + [point] == Grid3D(inRange, n)[..|inputs| + 1] &&
            Remapped(apply, outRange, inputs + [point]) ==
              Remapped(apply, outRange, inputs) + [RemapRgb(outRange, apply(point.r, point.g, point.b))]
  {
    var grid := Grid3D(inRange, n);
    var cr := Linspace(Value(inRange.lo), Value(inRange.hi), n);
    var point := Rgb(cr[red], cr[green], cr[blue]);
    Grid3DAt(inRange, n, red, green, blue);
    PrefixAppend(grid, |inputs|);
    RemappedAppend(apply, outRange, inputs, point);
  }

  /** The innermost loop of `_get_3d_data`: the row of red values at one
      green and blue, extending the grid prefix and its samples from the
      start of the row to the start of the next. */
  method SampleRow(apply: Transform, inputRange: Range, outputRange: Range, isInt: bool,
                   n: nat, computeRange: seq<real>, green: nat, blue: nat,
                   inputs0: seq<Rgb<real>>, data0: seq<Rgb<Num>>)
    returns (inputs: seq<Rgb<real>>, data: seq<Rgb<Num>>)
    requires isInt == IsInt(outputRange)
    requires computeRange == Linspace(Value(inputRange.lo), Value(inputRange.hi), n)
    requires green < n && blue < n
    requires |inputs0| == Index3(n, 0, green, blue)
    requires |inputs0| <= |Grid3D(inputRange, n)|
    requires inputs0 == Grid3D(inputRange, n)[..|inputs0|]
    requires data0 == Remapped(apply, outputRange, inputs0)
    ensures |inputs| == Index3(n, 0, green + 1, blue)
    ensures |inputs| <= |Grid3D(inputRange, n)|
    ensures inputs == Grid3D(inputRange, n)[..|inputs|]
    ensures data == Remapped(apply, outputRange, inputs)
  {
    ghost var grid := Grid3D(inputRange, n);
    inputs, data := inputs0, data0;
    for red := 0 to n
      invariant |inputs| == Index3(n, red, green, blue) <= |grid|
      invariant inputs == grid[..|inputs|]
      invariant data == Remapped(apply, outputRange, inputs)
    {
      Grid3DStep(apply, inputRange, outputRange, n, red, green, blue, inputs);
      var res := apply(computeRange[red], computeRange[green], computeRange[blue]);
      var sample := RemapSample(outputRange, isInt, res);
      var point := Rgb(computeRange[red], computeRange[green], computeRange[blue]);
      data := data + [sample];
      inputs := inputs + [point];
    }
    Index3Carry(n, green, blue);
  }

  /** The middle loop of `_get_3d_data`: the plane of rows at one blue,
      extending the grid prefix and its samples from the start of the plane
      to the start of the next. */
  method SamplePlane(apply: Transform, inputRange: Range, outputRange: Range, isInt: bool,
                     n: nat, computeRange: seq<real>, blue: nat,
                     inputs0: seq<Rgb<real>>, data0: seq<Rgb<Num>>)
    returns (inputs: seq<Rgb<real>>, data: seq<Rgb<Num>>)
    requires isInt == IsInt(outputRange)
    requires computeRange == Linspace(Value(inputRange.lo), Value(inputRange.hi), n)
    requires blue < n
    requires |inputs0| == Index3(n, 0, 0, blue)
    requires |inputs0| <= |Grid3D(inputRange, n)|
    requires inputs0 == Grid3D(inputRange, n)[..|inputs0|]
    requires data0 == Remapped(apply, outputRange, inputs0)
    ensures |inputs| == Index3(n, 0, 0, blue + 1)
    ensures |inputs| <= |Grid3D(inputRange, n)|
    ensures inputs == Grid3D(inputRange, n)[..|inputs|]
    ensures data == Remapped(apply, outputRange, inputs)
  {
    ghost var grid := Grid3D(inputRange, n);
    inputs, data := inputs0, data0;
    for green := 0 to n
      invariant |inputs| == Index3(n, 0, green, blue) <= |grid|
      invariant inputs == grid[..|inputs|]
      invariant data == Remapped(apply, outputRange, inputs)
    {
      inputs, data := SampleRow(apply, inputRange, outputRange, isInt, n, computeRange, green, blue, inputs, data);
    }
    Index3Carry(n, n, blue);
  }

  /** The outer loop of `_get_3d_data`: the planes of the cube, blue by
      blue; the transform is called on exactly the cube grid, in order. */
  method SampleCube(apply: Transform, inputRange: Range, outputRange: Range, isInt: bool,
                    n: nat, computeRange: seq<real>)
    returns (inputs: seq<Rgb<real>>, data: seq<Rgb<Num>>)
    requires isInt == IsInt(outputRange)
    requires computeRange == Linspace(Value(inputRange.lo), Value(inputRange.hi), n)
    ensures inputs == Grid3D(inputRange, n)
    ensures data == Remapped(apply, outputRange, inputs)
  {
    ghost var grid := Grid3D(inputRange, n);
    data := [];
    inputs := [];
    for blue := 0 to n
      invariant |inputs| == n * n * blue <= |grid|
      invariant inputs == grid[..|inputs|]
      invariant data == Remapped(apply, outputRange, inputs)
    {
      Index3Plane(n, blue);
      inputs, data := SamplePlane(apply, inputRange, outputRange, isInt, n, computeRange, blue, inputs, data);
      Index3Plane(n, blue + 1);
    }
    PrefixWhole(grid, inputs);
  }

  /** `_get_3d_data`. The cube is walked blue outermost, then green, red
      innermost; `inputs` are the triplets handed to the transform, in call
      order. The integer test on the output range is the local one of the
      source, and the contract states the result with `IsInt`. */
  method Get3DData(apply: Transform, preset: Preset)
    returns (result: Result<seq<Rgb<Num>>, LutError>, inputs: seq<Rgb<real>>)
    ensures !Is3DPreset(preset) ==>
              result == Failure(PresetMismatch(ThreeD)) && inputs == []
    ensures Is3DPreset(preset) && preset.cubeSize.None? ==>
              result == Failure(MissingKey(CubeSizeKey)) && inputs == []
    ensures Is3DPreset(preset) && preset.cubeSize.Some? ==>
              inputs == Grid3D(preset.inRange, preset.cubeSize.value) &&
              result == Success(Remapped(apply, preset.outRange, inputs))
  {
    if !Is3DPreset(preset) {
      return Failure(PresetMismatch(ThreeD)), [];
    }
    if preset.cubeSize.None? {
      return Failure(MissingKey(CubeSizeKey)), [];
    }
    var cubeSize := preset.cubeSize.value;
    var inputRange := preset.inRange;
    var outputRange := preset.outRange;
    var isInt := false;
    if outputRange.lo.I? && outputRange.hi.I? {
      isInt := true;
    }
    var computeRange := Linspace(Value(inputRange.lo), Value(inputRange.hi), cubeSize);
    var data;
    inputs, data := SampleCube(apply, inputRange, outputRange, isInt, cubeSize, computeRange);
    result := Success(data);
  }

  // ---------------------------------------------------------------------
  // Export message

  const ExportPrefix := "a new LUT was written in "

  /** `get_export_message`: the file's short name is computed by the source
      but never used, so only the path appears. */
  function ExportMessage(filePath: string): string
  {
    ExportPrefix + filePath
  }

  /** The path an export message names, if it is one. */
  function ExportedPath(message: string): Option<string>
  {
    if |message| >= |ExportPrefix| && message[..|ExportPrefix|] == ExportPrefix
    then Some(message[|ExportPrefix|..])
    else None
  }

  /** An export message names exactly the path it was built from. */
  lemma ExportMessageNamesPath(filePath: string)
    ensures ExportedPath(ExportMessage(filePath)) == Some(filePath)
  {
    var m := ExportMessage(filePath);
    assert m[..|ExportPrefix|] == ExportPrefix;
    assert m[|ExportPrefix|..] == filePath;
  }
}
