/** The LUT preset: the dictionary of generic and sampling settings that
    every helper reads. The preset module of the repository (its key names,
    check_preset and the dimensionality checks) is not part of this model;
    the two dimensionality checks are modelled here as tests on the type
    field, and a preset that passed check_preset is modelled by the typed
    record below. */
module Presets {
  import opened Wrappers

  /** A number as Python holds it in a preset or a sample: an `int` or a
      `float`. The tag is what `isinstance(x, int)` observes. */
  datatype Num = I(i: int) | F(x: real)

  /** The numeric value of a number, whatever its tag. */
  function Value(n: Num): real
  {
    match n
    case I(i) => i as real
    case F(x) => x
  }

  /** A two-element range `[lo, hi]`. */
  datatype Range = Range(lo: Num, hi: Num)

  /** The preset dictionary. `lutType` is absent when the dictionary has no
      type key; the bit depth (1D/2D only) and the cube size (3D only) are
      absent when the dictionary lacks them. */
  datatype Preset = Preset(
    lutType: Option<string>,
    ext: string,
    inRange: Range,
    outRange: Range,
    outBitDepth: Option<nat>,
    cubeSize: Option<nat>,
    title: string,
    comment: string,
    version: string)

  /** Validation mode: raise on a bad preset, or substitute defaults. */
  datatype Mode = RaiseMode | DefaultMode

  /** The preset helper's 1D/2D check, on the type field. */
  predicate Is1DOr2DPreset(p: Preset)
  {
    p.lutType == Some("1D") || p.lutType == Some("2D")
  }

  /** The preset helper's 3D check, on the type field. */
  predicate Is3DPreset(p: Preset)
  {
    p.lutType == Some("3D")
  }

  /** A preset dictionary that callers share and helpers update in place. */
  class PresetDict {
    var value: Preset

    constructor (p: Preset)
      ensures value == p
    {
      value := p;
    }
  }
}
