/** The JSON LUT helper: a 3D-only writer. Its 1D/2D hook always raises,
    its 3D writer splits the samples into three parallel channel arrays and
    lists the input colours normalised by the cube size, and its preset
    validation forces the type to 3D or raises, depending on the mode. File
    output is modelled by the record of the file that would be written. */
module JsonHelper {
  import opened Wrappers
  import opened Presets
  import opened AbstractLutHelper

  /** The helper module's version string. */
  const Version := "0.1"

  /** `get_default_preset`. */
  function DefaultPreset(): Preset
  {
    Preset(
      lutType := Some("3D"),
      ext := ".json",
      inRange := Range(I(0), F(1.0)),
      outRange := Range(I(0), F(1.0)),
      outBitDepth := None,
      cubeSize := Some(17),
      title := "json LUT",
      comment := "Generated by ColorPipe-tools, json_helper " + Version,
      version := "1")
  }

  /** The default preset is a 17-point cube with float ranges `[0, 1.0]`:
      the 3D sampler accepts it, it samples 4913 points, its numbers are
      written with six decimals, and validation in either mode keeps its
      type. */
  lemma DefaultPresetShape()
    ensures var p := DefaultPreset();
            Is3DPreset(p) && !Is1DOr2DPreset(p) &&
            p.ext == ".json" && p.cubeSize == Some(17) &&
            Value(p.inRange.lo) == 0.0 && Value(p.inRange.hi) == 1.0 &&
            Value(p.outRange.lo) == 0.0 && Value(p.outRange.hi) == 1.0 &&
            !IsInputInt(p) && !IsOutputInt(p) &&
            |Grid3D(p.inRange, 17)| == 4913 &&
            Pattern(p) == "{0:.6f} {1:.6f} {2:.6f}\n" &&
            TypeFix(p.lutType, RaiseMode) == Success(p.lutType) &&
            TypeFix(p.lutType, DefaultMode) == Success(p.lutType)
  {
  }

  // ---------------------------------------------------------------------
  // The written file

  /** The dictionary `json.dump` writes. */
  datatype JsonLut = JsonLut(
    cubesize: nat,
    redValues: seq<Num>,
    greenValues: seq<Num>,
    blueValues: seq<Num>,
    inputColors: seq<seq<real>>)

  /** A file the helper writes: its path and its content. */
  datatype JsonFile = JsonFile(path: string, content: JsonLut)

  /** `red`, `green` and `blue` are the channels of `data`, parallel and in
      the same order. */
  ghost predicate IsChannelSplit(data: seq<Rgb<Num>>, red: seq<Num>, green: seq<Num>, blue: seq<Num>)
  {
    |red| == |data| && |green| == |data| && |blue| == |data| &&
    forall i :: 0 <= i < |data| ==>
      red[i] == data[i].r && green[i] == data[i].g && blue[i] == data[i].b
  }

  /** Three parallel channel arrays put back together as triplets. */
  function Zip3(red: seq<Num>, green: seq<Num>, blue: seq<Num>): seq<Rgb<Num>>
    requires |red| == |green| == |blue|
  {
    seq(|red|, i requires 0 <= i < |red| => Rgb(red[i], green[i], blue[i]))
  }

  /** The channel split loses nothing: zipping the arrays gives the samples
      back. */
  lemma ChannelSplitZips(data: seq<Rgb<Num>>, red: seq<Num>, green: seq<Num>, blue: seq<Num>)
    requires IsChannelSplit(data, red, green, blue)
    ensures Zip3(red, green, blue) == data
  {
    assert forall i :: 0 <= i < |data| ==> Zip3(red, green, blue)[i] == data[i];
  }

  /** `colors` lists each input triplet as `[r, g, b]` divided by the cube
      size. */
  ghost predicate IsNormalised(inData: seq<Rgb<real>>, cubeSize: nat, colors: seq<seq<real>>)
  {
    |colors| == |inData| &&
    forall i :: 0 <= i < |inData| ==>
      cubeSize > 0 &&
      colors[i] == [inData[i].r / cubeSize as real, inData[i].g / cubeSize as real, inData[i].b / cubeSize as real]
  }

  /** Scaling the normalised colours back by the cube size gives the input
      coordinates back. */
  lemma NormalisedScalesBack(inData: seq<Rgb<real>>, cubeSize: nat, colors: seq<seq<real>>, i: nat)
    requires IsNormalised(inData, cubeSize, colors) && i < |inData|
    ensures |colors[i]| == 3
    ensures colors[i][0] * cubeSize as real == inData[i].r
    ensures colors[i][1] * cubeSize as real == inData[i].g
    ensures colors[i][2] * cubeSize as real == inData[i].b
  {
  }

  // ---------------------------------------------------------------------
  // 1D / 2D

  const UnsupportedMessage := "1D/2D  LUT is not supported in json format"

  /** `_write_1d_2d_lut`: JSON has no 1D/2D form, so it raises before any
      sampling and writes nothing. `received` is the line function the hook
      was handed. */
  method Write1D2DLut(apply: Transform, filePath: string, preset: Preset, lineFunction: LineFunction)
    returns (result: Result<string, LutError>, file: Option<JsonFile>, inputs: seq<Rgb<real>>,
             received: LineFunction)
    ensures result == Failure(JsonHelperException(UnsupportedMessage))
    ensures file == None && inputs == []
    ensures received == lineFunction
  {
    result, file, inputs := Failure(JsonHelperException(UnsupportedMessage)), None, [];
    received := lineFunction;
  }

  /** `write_1d_lut` on the JSON helper: the hook receives the one-channel
      line function and raises. */
  method Write1DLut(apply: Transform, filePath: string, preset: Preset)
    returns (result: Result<string, LutError>, file: Option<JsonFile>, inputs: seq<Rgb<real>>,
             received: LineFunction)
    ensures result == Failure(JsonHelperException(UnsupportedMessage))
    ensures file == None && inputs == []
    ensures received == RValueLine
    ensures forall p, rgb :: ApplyLineFunction(received, p, rgb) == Line(Pattern1D(p), [rgb.r])
  {
    result, file, inputs, received := Write1D2DLut(apply, filePath, preset, Write1DLineFunction());
  }

  /** `write_2d_lut` on the JSON helper: the hook receives the three-channel
      line function and raises. */
  method Write2DLut(apply: Transform, filePath: string, preset: Preset)
    returns (result: Result<string, LutError>, file: Option<JsonFile>, inputs: seq<Rgb<real>>,
             received: LineFunction)
    ensures result == Failure(JsonHelperException(UnsupportedMessage))
    ensures file == None && inputs == []
    ensures received == RgbValueLine
    ensures forall p, rgb :: ApplyLineFunction(received, p, rgb) == Line(Pattern(p), [rgb.r, rgb.g, rgb.b])
  {
    result, file, inputs, received := Write1D2DLut(apply, filePath, preset, Write2DLineFunction());
  }

  // ---------------------------------------------------------------------
  // 3D

  /** `write_3d_lut` with the sampler also yielding the input grid: the
      input coordinates `in_data` are the triplets handed to the transform,
      in the same enumeration order as the samples. On success it writes
      one file at `filePath` and returns the export message; a preset the
      3D sampler rejects fails before any transform call or write. */
  method Write3DLut(apply: Transform, filePath: string, preset: Preset)
    returns (result: Result<string, LutError>, file: Option<JsonFile>, inputs: seq<Rgb<real>>)
    ensures !Is3DPreset(preset) ==>
              result == Failure(PresetMismatch(ThreeD)) && file == None && inputs == []
    ensures Is3DPreset(preset) && preset.cubeSize.None? ==>
              result == Failure(MissingKey(CubeSizeKey)) && file == None && inputs == []
    ensures Is3DPreset(preset) && preset.cubeSize.Some? ==>
              var n := preset.cubeSize.value;
              inputs == Grid3D(preset.inRange, n) &&
              result == Success(ExportMessage(filePath)) &&
              file.Some? && file.value.path == filePath &&
              file.value.content.cubesize == n &&
              IsChannelSplit(Remapped(apply, preset.outRange, inputs),
                             file.value.content.redValues,
                             file.value.content.greenValues,
                             file.value.content.blueValues) &&
              IsNormalised(inputs, n, file.value.content.inputColors)
  {
    var sampled, inData := Get3DData(apply, preset);
    inputs := inData;
    if sampled.Failure? {
      return Failure(sampled.error), None, inputs;
    }
    var data := sampled.value;
    var cubeSize := preset.cubeSize.value;
    assert |inData| == cubeSize * cubeSize * cubeSize;
    var inputColors: seq<seq<real>> := [];
    for k := 0 to |inData|
      invariant |inputColors| == k
      invariant forall i :: 0 <= i < k ==>
        cubeSize > 0 &&
        inputColors[i] == [inData[i].r / cubeSize as real, inData[i].g / cubeSize as real, inData[i].b / cubeSize as real]
    {
      var rgb := inData[k];
      inputColors := inputColors + [[rgb.r / cubeSize as real, rgb.g / cubeSize as real, rgb.b / cubeSize as real]];
    }
    var redValues: seq<Num> := [];
    var greenValues: seq<Num> := [];
    var blueValues: seq<Num> := [];
    for k := 0 to |data|
      invariant |redValues| == |greenValues| == |blueValues| == k
      invariant forall i :: 0 <= i < k ==>
        redValues[i] == data[i].r && greenValues[i] == data[i].g && blueValues[i] == data[i].b
    {
      var rgb := data[k];
      redValues := redValues + [rgb.r];
      greenValues := greenValues + [rgb.g];
      blueValues := blueValues + [rgb.b];
    }
    var jsonData := JsonLut(cubeSize, redValues, greenValues, blueValues, inputColors);
    file := Some(JsonFile(filePath, jsonData));
    result := Success(ExportMessage(filePath));
  }

  /** Python's `a, b = xs` on a list. */
  function Unpack2<T>(xs: seq<T>): (r: Result<(T, T), LutError>)
    ensures r.Success? <==> |xs| == 2
    ensures r.Success? ==> xs == [r.value.0, r.value.1]
    ensures r.Failure? ==> r.error == UnpackError(2, |xs|)
  {
    if |xs| == 2 then Success((xs[0], xs[1])) else Failure(UnpackError(2, |xs|))
  }

  /** No cube has exactly two points. */
  lemma {:induction false} CubeNeverTwo(n: nat)
    ensures n * n * n != 2
  {
    if n >= 2 {
      MulMonotone(n, 2, n);
      MulMonotone(n * n, 2, n);
    }
  }

  /** `write_3d_lut` as written: it assigns the single list the 3D sampler
      returns to the pair `in_data, data`. A cube never has two points, so
      the assignment always raises, after the whole cube has been sampled,
      and no file is written. */
  method Write3DLutAsWritten(apply: Transform, filePath: string, preset: Preset)
    returns (result: Result<string, LutError>, file: Option<JsonFile>, inputs: seq<Rgb<real>>)
    ensures result.Failure? && file == None
    ensures !Is3DPreset(preset) ==> result == Failure(PresetMismatch(ThreeD)) && inputs == []
    ensures Is3DPreset(preset) && preset.cubeSize.None? ==>
              result == Failure(MissingKey(CubeSizeKey)) && inputs == []
    ensures Is3DPreset(preset) && preset.cubeSize.Some? ==>
              var n := preset.cubeSize.value;
              inputs == Grid3D(preset.inRange, n) &&
              result == Failure(UnpackError(2, n * n * n))
  {
    var sampled;
    sampled, inputs := Get3DData(apply, preset);
    if sampled.Failure? {
      return Failure(sampled.error), None, inputs;
    }
    var unpacked := Unpack2(sampled.value);
    CubeNeverTwo(preset.cubeSize.value);
    assert unpacked.Failure?;
    result, file := Failure(unpacked.error), None;
  }

  // ---------------------------------------------------------------------
  // Preset validation

  function InvalidTypeMessage(t: string): string
  {
    "'" + t + "' is not a valid type for son LUT. Choose '3D'"
  }

  /** The type step of `_validate_preset` on the type field: a present type
      other than "3D" raises in raise mode and is replaced by the default
      preset's type otherwise; an absent type or "3D" stays as it is. */
  function TypeFix(t: Option<string>, mode: Mode): Result<Option<string>, LutError>
  {
    if t.Some? && t.value != "3D" then
      if mode == RaiseMode then Failure(JsonHelperException(InvalidTypeMessage(t.value)))
      else Success(DefaultPreset().lutType)
    else Success(t)
  }

  /** The type step raises exactly in raise mode on a present type other
      than "3D"; when it does not raise, the type afterwards is absent or
      "3D", and it is unchanged exactly when it was absent or "3D". */
  lemma TypeFixOutcome(t: Option<string>, mode: Mode)
    ensures TypeFix(t, mode).Failure? <==> mode == RaiseMode && t.Some? && t.value != "3D"
    ensures TypeFix(t, mode).Failure? ==>
              TypeFix(t, mode).error == JsonHelperException(InvalidTypeMessage(t.value))
    ensures TypeFix(t, mode).Success? ==>
              (TypeFix(t, mode).value == None || TypeFix(t, mode).value == Some("3D")) &&
              (TypeFix(t, mode).value == t <==> t == None || t == Some("3D"))
  {
  }

  /** Validating a validated type again changes nothing. */
  lemma TypeFixIdempotent(t: Option<string>, mode: Mode, mode': Mode)
    requires TypeFix(t, mode).Success?
    ensures TypeFix(TypeFix(t, mode).value, mode') == TypeFix(t, mode)
  {
  }

  /** The type step of `_validate_preset` applied to the shared preset
      dictionary in place: on a raise the dictionary is left as it was,
      otherwise its type becomes the step's outcome. */
  method ApplyTypeFix(preset: PresetDict, mode: Mode) returns (r: Result<Option<string>, LutError>)
    modifies preset
    ensures r == TypeFix(old(preset.value.lutType), mode)
    ensures r.Failure? ==> preset.value == old(preset.value)
    ensures r.Success? ==> preset.value == old(preset.value).(lutType := r.value)
  {
    var p := preset.value;
    if p.lutType.Some? && p.lutType.value != "3D" {
      if mode == RaiseMode {
        return Failure(JsonHelperException(InvalidTypeMessage(p.lutType.value)));
      }
      preset.value := p.(lutType := DefaultPreset().lutType);
    }
    r := Success(preset.value.lutType);
  }

  /** `_validate_preset`: applies the type step to the shared preset
      dictionary in place and, unless it raised, hands the dictionary, the
      mode and the default preset on to the base validation `base`, whose
      result it returns. The base validation is not part of this model. */
  method ValidatePreset<R>(preset: PresetDict, mode: Mode, base: (Preset, Mode, Preset) -> R)
    returns (result: Result<R, LutError>)
    modifies preset
    ensures match TypeFix(old(preset.value.lutType), mode)
            case Failure(e) => result == Failure(e) && preset.value == old(preset.value)
            case Success(t) =>
              preset.value == old(preset.value).(lutType := t) &&
              result == Success(base(preset.value, mode, DefaultPreset()))
  {
    var fixed := ApplyTypeFix(preset, mode);
    if fixed.Failure? {
      return Failure(fixed.error);
    }
    result := Success(base(preset.value, mode, DefaultPreset()));
  }

  /** `_validate_preset` as written: the class it delegates to defines no
      `_validate_preset`, so every call that gets past the type step raises
      `AttributeError`, after the type step has already updated the
      dictionary in place. */
  method ValidatePresetAsWritten(preset: PresetDict, mode: Mode)
    returns (result: Result<(), LutError>)
    modifies preset
    ensures match TypeFix(old(preset.value.lutType), mode)
            case Failure(e) => result == Failure(e) && preset.value == old(preset.value)
            case Success(t) =>
              preset.value == old(preset.value).(lutType := t) &&
              result == Failure(MissingAttribute("_validate_preset"))
  {
    var fixed := ApplyTypeFix(preset, mode);
    if fixed.Failure? {
      return Failure(fixed.error);
    }
    result := Failure(MissingAttribute("_validate_preset"));
  }
}
