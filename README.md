# LUT sampling engine and JSON LUT writer

This is a Dafny model of the ColorPipe-tools LUT helpers. It covers the
abstract helper that samples a colour transform into an ordered grid:

- 2^bitdepth grey points for a 1D/2D LUT;
- an N×N×N cube for a 3D LUT, walked blue outermost and red innermost.

Each sample is remapped into the output range and truncated when that range
is integer-typed.

It also covers the JSON helper built on it. The JSON helper has a fixed
default preset, rejects 1D/2D LUTs, validates the preset type in raise or
default mode, and writes a 3D LUT as three parallel channel arrays plus the
input colours normalised by the cube size.

Files:

- `wrappers.dfy` holds `Option` and `Result`.
- `presets.dfy` holds the preset record:
  - numbers tagged as Python `int` or `float`, and ranges;
  - the two dimensionality checks on the type field;
  - the preset dictionary that validation updates in place, a class.
- `abstract_lut_helper.dfy` holds `AbstractLUTHelper`:
  - the range-type predicates;
  - the line patterns, with a reader that parses them back into their fields;
  - the line functions;
  - the remap;
  - the grids;
  - the two samplers, as methods with loops;
  - the export message.
- `json_helper.dfy` holds `JsonLutHelper`.

The colour transform (`processor.applyRGB`) is a function parameter.

Both samplers and the JSON writers return an extra out-parameter
`inputs`: the triplets handed to the transform, in call
order. "No transform call was made" is stated as `inputs == []`.

`numpy.linspace(lo, hi, n)` is the closed form `lo + k*(hi-lo)/(n-1)` over
the reals. Python's `int()` on a float is truncation toward zero
(`Trunc`). The cube position of `(red, green, blue)` is
`red + n*green + n*n*blue` (`Index3`).

`_get_3d_data` returns a single list (utils/abstract_lut_helper.py:163).
`write_3d_lut` unpacks it as `in_data, data` (utils/json_helper.py:46). The
corrected writer `JsonHelper.Write3DLut` takes `in_data` to be the input
grid, that is the triplets handed to the transform, in the same enumeration
order as `data`. This is an assumption about what was intended. The code
as written is modelled by `JsonHelper.Write3DLutAsWritten` (see Findings).

`_validate_preset` delegates to `AbstractLUTHelper._validate_preset`
(utils/json_helper.py:87), which `AbstractLUTHelper` does not define. The
corrected `JsonHelper.ValidatePreset` takes the base validation as a
function parameter; `JsonHelper.ValidatePresetAsWritten` models the call
failing with `AttributeError` (see Findings).

## Model

| member | source | states |
|---|---|---|
| AbstractLutHelper.IsIntByTags | utils/abstract_lut_helper.py:233-248 | a range is integer-typed exactly when both bounds are ints, whatever their values; writing either bound as a float of the same value makes it non-integer |
| AbstractLutHelper.ReadPatternText | utils/abstract_lut_helper.py:41-46 | reading a printed line pattern back gives its replacement fields: printing and reading patterns are inverse |
| AbstractLutHelper.Pattern1DFields | utils/abstract_lut_helper.py:30-46 | the one-channel pattern has exactly one field, number 0, bare when the output range is integer-typed and with six decimals otherwise |
| AbstractLutHelper.PatternFields | utils/abstract_lut_helper.py:48-64 | the three-channel pattern has exactly fields 0, 1, 2 in order, all bare when the output range is integer-typed and all with six decimals otherwise |
| AbstractLutHelper.LineFieldsMatchValues | utils/abstract_lut_helper.py:66-91 | a line built by either line function has one field per value it formats, numbered in order, in the format the output range selects |
| AbstractLutHelper.Write1DLineFunction | utils/abstract_lut_helper.py:192-201 | `write_1d_lut` hands the hook the line function that formats the red channel alone with the one-channel pattern |
| AbstractLutHelper.Write2DLineFunction | utils/abstract_lut_helper.py:181-190 | `write_2d_lut` hands the hook the line function that formats red, green and blue with the three-channel pattern |
| AbstractLutHelper.Trunc | utils/abstract_lut_helper.py:122 | Python `int()` on a float: the integer toward zero, within one of the value, on both sides of zero |
| AbstractLutHelper.TruncMonotone | utils/abstract_lut_helper.py:122 | truncation keeps the order of values |
| AbstractLutHelper.RemapChannelBounds | utils/abstract_lut_helper.py:120-122 | the quantisation bound: a channel in `[0, 1]` remapped into a non-negative output range `[lo, hi]` lies between `lo` and `hi + lo`; it is an int exactly when the range is integer-typed, and then lies between the int bounds and is `x*out_hi + out_lo` rounded down |
| AbstractLutHelper.RemapChannelMonotone | utils/abstract_lut_helper.py:120-122 | with a non-negative `out_hi` the remap, truncated or not, keeps the order of values |
| AbstractLutHelper.RemapSample | utils/abstract_lut_helper.py:158-161 | the per-sample remap loop computes, for each channel, the remap of the transform result |
| AbstractLutHelper.Linspace | utils/abstract_lut_helper.py:114-116 | `n` grid values from `lo` to `hi`: the first is `lo` and, from two values on, the last is `hi` |
| AbstractLutHelper.LinspaceStep | utils/abstract_lut_helper.py:114-116 | consecutive grid values are one step `(hi-lo)/(n-1)` apart |
| AbstractLutHelper.LinspaceAscending | utils/abstract_lut_helper.py:114-116 | with `lo <= hi` the grid is ascending |
| AbstractLutHelper.Pow2 | utils/abstract_lut_helper.py:112 | `pow(2, bitdepth)` is at least one, and from bit depth 1 on it is even and at least two, so the grid has both ends |
| AbstractLutHelper.Grid1DShape | utils/abstract_lut_helper.py:112-118 | the 1D/2D inputs are `2^bitdepth` grey triplets, entry k being grid value k, from the low end of the input range to the high end |
| AbstractLutHelper.Sample1DMonotone | utils/abstract_lut_helper.py:112-124 | with an ascending input range, non-negative `out_hi` and a transform monotone on the grey axis, the 1D/2D samples are non-decreasing in every channel |
| AbstractLutHelper.Get1DData | utils/abstract_lut_helper.py:93-124 | a preset that is not 1D/2D fails and one without bit depth fails, both before any transform call; otherwise the transform is called exactly on the 1D/2D grid in ascending order and the result is the remapped samples, one per grid entry |
| AbstractLutHelper.Cell3 | utils/abstract_lut_helper.py:153-155 | every cube position has three coordinates inside the cube |
| AbstractLutHelper.Index3Bound | utils/abstract_lut_helper.py:153-155 | the position `r + N*g + N*N*b` of a point of the cube is below `N^3` |
| AbstractLutHelper.Index3Carry | utils/abstract_lut_helper.py:153-155 | finishing a red row starts the next green row, finishing a green plane starts the next blue plane, and the last plane ends at `N^3` |
| AbstractLutHelper.Index3Cell3 | utils/abstract_lut_helper.py:153-155 | position and coordinates are inverse on the cube |
| AbstractLutHelper.Grid3DAt | utils/abstract_lut_helper.py:150-157 | the cube inputs are `N^3` triplets and the one at `r + N*g + N*N*b` is `(cr[r], cr[g], cr[b])`: red varies fastest, blue slowest |
| AbstractLutHelper.Grid3DStep | utils/abstract_lut_helper.py:153-163 | each innermost step appends the next grid point and its sample, extending the grid prefix and its samples by one |
| AbstractLutHelper.SampleRow | utils/abstract_lut_helper.py:156-162 | the red loop: from the start of a row of the cube grid, it calls the transform on the row's points in order and extends the grid prefix and its remapped samples to the start of the next row |
| AbstractLutHelper.SamplePlane | utils/abstract_lut_helper.py:155-162 | the green loop: from the start of a blue plane, it extends the grid prefix and its remapped samples to the start of the next plane |
| AbstractLutHelper.SampleCube | utils/abstract_lut_helper.py:153-163 | the blue loop: starting from no samples, it calls the transform on exactly the cube grid, in order, and returns its remapped samples |
| AbstractLutHelper.Get3DData | utils/abstract_lut_helper.py:126-163 | a preset that is not 3D fails and one without cube size fails, both before any transform call; otherwise the transform is called exactly on the cube grid in blue/green/red order and the result is its remapped samples; the local int check of lines 146-149 gives the same remap as `is_int` |
| AbstractLutHelper.IdentityCubeEntry | utils/abstract_lut_helper.py:126-163 | over `[0, 1]` with cube size 2 and the identity transform, the sample at the position of a corner is that corner, as ints |
| AbstractLutHelper.IdentityCubeOfSide2 | utils/abstract_lut_helper.py:126-163 | over `[0, 1]` with cube size 2 and the identity transform, the samples are the eight corners with red fastest |
| AbstractLutHelper.ExportMessageNamesPath | utils/abstract_lut_helper.py:221-231 | the export message is the fixed prefix followed by the path, and the path can be read back from it; the short name plays no part |
| JsonHelper.DefaultPresetShape | utils/json_helper.py:26-38 | the default preset is a 3D `.json` preset of cube size 17 with ranges `[0, 1.0]` (float, so six-decimal patterns), 4913 sampling points, and a type that validation keeps in either mode |
| JsonHelper.Write1D2DLut | utils/json_helper.py:40-43 | the 1D/2D hook always raises the unsupported-format error, before any sampling and without writing, whatever line function it is handed |
| JsonHelper.Write1DLut | utils/abstract_lut_helper.py:192-201 | on the JSON helper, writing a 1D LUT hands the hook the red-only line function (`RValueLine`, one-channel pattern) and raises, with no transform call and no file |
| JsonHelper.Write2DLut | utils/abstract_lut_helper.py:181-190 | on the JSON helper, writing a 2D LUT hands the hook the red-green-blue line function (`RgbValueLine`, three-channel pattern) and raises, with no transform call and no file |
| JsonHelper.ChannelSplitZips | utils/json_helper.py:55-61 | the three channel arrays put back together give the samples: the split loses nothing |
| JsonHelper.NormalisedScalesBack | utils/json_helper.py:48-53 | each normalised input colour has three components that, multiplied by the cube size, give the input triplet back |
| JsonHelper.Write3DLut | utils/json_helper.py:45-74 | the 3D sampler's failures pass through with no file and no transform call; otherwise it writes one file at the path with `cubesize` = the preset's cube size, red/green/blue arrays parallel to the samples, input colours = the input grid divided by the cube size, and returns the export message |
| JsonHelper.Unpack2 | utils/json_helper.py:46 | a two-name assignment succeeds exactly on a two-element list, giving back its two elements in order, and otherwise raises the unpacking error with the list's length |
| JsonHelper.CubeNeverTwo | utils/json_helper.py:46 | no cube has exactly two points |
| JsonHelper.Write3DLutAsWritten | utils/json_helper.py:45-47 | as written: a preset the 3D sampler rejects (not 3D, or no cube size) fails with the sampler's own error and no transform call; otherwise the two-name unpacking of the sampler's list always raises, after the whole cube has been sampled; no file is written in any case |
| JsonHelper.TypeFixOutcome | utils/json_helper.py:80-85 | the type check raises exactly in raise mode on a present type other than "3D"; when it does not raise the type is absent or "3D", and it is unchanged exactly when it was absent or "3D" |
| JsonHelper.TypeFixIdempotent | utils/json_helper.py:80-85 | validating an already validated type again, in any mode, changes nothing |
| JsonHelper.ApplyTypeFix | utils/json_helper.py:80-85 | the type step applied to the dictionary in place: its outcome is `TypeFix` of the old type; on a raise the dictionary is unchanged, otherwise only its type field becomes that outcome |
| JsonHelper.ValidatePresetAsWritten | utils/json_helper.py:76-88 | as written: on a raise at the type step the dictionary is unchanged; otherwise the type step updates the dictionary in place and then the delegation fails with `AttributeError`, since the base class has no `_validate_preset` |
| JsonHelper.ValidatePreset | utils/json_helper.py:76-88 | on a raise, the dictionary is unchanged and the error is returned; otherwise only the type field is updated in place and the base validation's result on the updated dictionary, the mode and the default preset is returned |

## Left out

- utils/colorspaces.py is not part of this model. Its transfer functions use floating-point powers and logarithms, and its primaries are bare constants.
- `processor.applyRGB` is an OpenColorIO call. It is a total function parameter `(real, real, real) -> Rgb<real>`, so its failure modes are not modelled.
- NaN and infinite channel values are left out because real numbers cannot express them. On such a value `int(x)` raises at utils/abstract_lut_helper.py:122 and 161, and the model has no such error.
- "No transform call" means that the recorded `inputs` are empty. The methods keep that record themselves, and the transform is a pure function parameter, so Dafny does not tie the record to the calls actually made. That the record lists exactly the calls rests on reading the code: each method appends to `inputs` at the one place where it applies the transform.
- `numpy.linspace` is the exact real closed form. Floating-point rounding of the grid, the remap and the normalisation is not modelled.
- The text rendering of `{0:.6f}` and of Python `str` is not modelled. A line is the pattern together with the values it formats.
- File I/O and JSON serialisation in `write_3d_lut` (`open`, `json.dump`, `close`) are not modelled. The written file is a record of its path and its dictionary.
- The preset module `utils.lut_presets` is not part of this model. That covers `check_preset`, the key names, `is_1d_or_2d_preset` and `is_3d_preset`.
  - The dimensionality checks are tests on the type field.
  - A checked preset is the typed `Preset` record, with natural-number sizes.
  - A missing bit depth or cube size is modelled as the `KeyError` the dictionary lookup raises (`MissingKey`).
- The utility module `utils.lut_utils` (imported at utils/abstract_lut_helper.py:10) is not part of this model. Its only use here is `get_file_shortname`, which `get_export_message` computes and never puts into the message.
- JsonHelper.ValidatePreset: the delegation at utils/json_helper.py:87 targets a method `AbstractLUTHelper` does not define (its methods are at utils/abstract_lut_helper.py:31-269). The corrected member assumes a base validation that is a pure function `base` of the updated dictionary, the mode and the default preset, returns its result, and does not itself change the dictionary. The code as written is `JsonHelper.ValidatePresetAsWritten` (see Findings).
- `get_generated_title` is left out because it depends on Python's `str` of lists.
- Exception messages of the samplers ("Preset isn't valid for … LUT: {preset}") are left out because they print the whole dictionary. The samplers' errors are the constructors `PresetMismatch` and `MissingKey`. The JSON helper's two messages are modelled as exact strings.
- The `ValueError` message of the two-name assignment in `write_3d_lut` (utils/json_helper.py:46) is left out because it is Python's own text. It is the constructor `UnpackError` with the expected and actual lengths.
- Several predicates and functions have no contract of their own. The members in the table state their properties:
  - `AbstractLutHelper.IsInt`, `IsInputInt` and `IsOutputInt`: `IsIntByTags`, `Pattern1DFields` and `PatternFields`.
  - `AbstractLutHelper.Pattern1D` and `Pattern`: `Pattern1DFields` and `PatternFields`.
  - `AbstractLutHelper.ApplyLineFunction`: `LineFieldsMatchValues`, `Write1DLineFunction` and `Write2DLineFunction`.
  - `AbstractLutHelper.RemapChannel` and `RemapRgb`: `RemapChannelBounds`, `RemapChannelMonotone` and `RemapSample`.
  - `AbstractLutHelper.Remapped`, `Grid1D` and `Grid3D`: `Get1DData`, `Get3DData`, `Grid1DShape`, `Grid3DAt`, `Sample1DMonotone` and `IdentityCubeOfSide2`.
  - `AbstractLutHelper.ExportMessage`: `ExportMessageNamesPath`.
  - `JsonHelper.DefaultPreset`: `DefaultPresetShape`.
  - `JsonHelper.TypeFix`: `TypeFixOutcome`, `TypeFixIdempotent`, `ValidatePreset` and `ValidatePresetAsWritten`.

## Findings

| source | as written | input that shows it | evidently intended | confidence | as-written member | corrected member |
|---|---|---|---|---|---|---|
| utils/json_helper.py:46 | `in_data, data = self._get_3d_data(...)` unpacks the single list of samples returned at utils/abstract_lut_helper.py:163 | the default preset: cube size 17 gives 4913 samples, so the unpacking raises `ValueError` after all 4913 transform calls, and no file is written; no cube size gives exactly two samples | `_get_3d_data` also returning the input grid, in the same order as the samples, as `in_data` | high; not executed | JsonHelper.Write3DLutAsWritten | JsonHelper.Write3DLut |
| utils/json_helper.py:87 | `AbstractLUTHelper._validate_preset(self, preset, mode, default_preset)` calls a method that `AbstractLUTHelper` (utils/abstract_lut_helper.py:24-275) does not define | any preset whose type is absent or "3D", or any preset in default mode: the call raises `AttributeError`; in default mode with type "1D" the dictionary's type has already been changed to "3D" at line 85 | delegating to a base validation of the generic preset fields and returning its result | high; not executed | JsonHelper.ValidatePresetAsWritten | JsonHelper.ValidatePreset |
