# buteo augmentation engine and raster-argument parsers, in Dafny

This project models three parts of the buteo geospatial/AI toolbox.

- **The sample-augmentation transforms** of `buteo/ai/augmentation_funcs.py` (module `AugmentationFuncs`).
  These are the fourteen `augmentation_*` functions: rotation, mirror, noise, channel scale, contrast,
  drop pixel, drop channel, blur, sharpen, blur_xy, sharpen_xy, misalign, cutmix and mixup. Each works on a
  3-axis array (channel-first or channel-last) and its label array. A transform first tests its chance gate
  and then changes selected elements. It then fits the result back to the input's dtype. Arrays are values
  of type `Grid` (module `Grids`). The transforms that copy an array and update it in place work on an
  `array3<real>` buffer and are proved equal to a specification function. Every `np.random` draw is an
  explicit parameter (a `Draws` record, module `Randomness`). The helpers the transforms call are
  uninterpreted functions in a `Helpers` record. These include `rotate_arr`, `mirror_arr`,
  `_fit_data_to_dtype`, the kernel builders, `convolve_array_simple` and `_feather_box_2d`.
- **The dataset pipeline** of `buteo/ai/augmentation.py` (modules `AugmentationArgs`, `AugmentationStep`,
  `Pipeline`, `Augmentation`). `AugmentationDataset` stores the samples channel-first. On each access it
  runs its list of augmentation records over one sample, in list order. A record names a transform and
  carries its keyword arguments. Unknown names are rejected. Only cutmix and mixup get a donor sample
  drawn from the dataset. The callback and the output conversion follow the run. `Dataset` is the same
  dataset without augmentations.
- **Argument validators and parsers** of `buteo/utils/gdal_utils.py` (module `GdalUtils`). These are
  `default_creation_options`, `to_band_list`, `parse_raster_size`, `get_gdalwarp_ram_limit` and the
  string branch of `is_in_memory`. Python's dynamically typed arguments are an `Argument` datatype, and
  raised exceptions are `Failure` values.

`Wrappers` holds the `Option` and `Result` datatypes.

## Model

| member | source | states |
|---|---|---|
| Randomness.Trunc | buteo/ai/augmentation_funcs.py:768-769 | `int()` of a float drops the fraction toward zero: for x ≥ 0 the result is the largest integer ≤ x, and for x < 0 the smallest integer ≥ x |
| Randomness.RandInt | buteo/ai/augmentation_funcs.py:65 | `randint(lo, hi)` from a unit draw always lies in [lo, hi) |
| Randomness.RandIntOnto | buteo/ai/augmentation_funcs.py:422 | every integer of [lo, hi) is produced by some unit draw, so modelling draws as parameters loses no outcome |
| Randomness.Uniform | buteo/ai/augmentation_funcs.py:224-235 | `uniform(lo, hi)` lies between its two bounds in either order, and below hi when lo < hi |
| AugmentationFuncs.Turns | buteo/ai/augmentation_funcs.py:65 | the rotation count is k when given, else a draw in 1..3 |
| AugmentationFuncs.Rotation | buteo/ai/augmentation_funcs.py:62-73 | a gate draw above chance, or k = 0, returns (X, y) unchanged (a draw equal to chance proceeds); otherwise X and y are both rotated with the same k; a missing label stays missing |
| AugmentationFuncs.Mirror | buteo/ai/augmentation_funcs.py:112-120 | as rotation: gate or k = 0 returns the input; otherwise X and y are mirrored with the same k; a missing label stays missing |
| AugmentationFuncs.Amount | buteo/ai/augmentation_funcs.py:165 | the drawn amount lies in [0, max_amount] |
| AugmentationFuncs.Noise | buteo/ai/augmentation_funcs.py:162-172 | the label is returned untouched; a failed gate returns X; otherwise each element gets its own normal draw scaled by the amount, added or multiplied, and the array keeps X's dtype and shape |
| AugmentationFuncs.NoiseWithoutAmount | buteo/ai/augmentation_funcs.py:165-172 | with max_amount 0 the noise transform only refits X to its dtype |
| AugmentationFuncs.ChannelFactor | buteo/ai/augmentation_funcs.py:224-235 | an additive factor lies in [-a, a], a multiplicative one in [1-a, 1+a] |
| AugmentationFuncs.ChannelScaleSpec | buteo/ai/augmentation_funcs.py:213-238 | the label is untouched; a failed gate returns X; otherwise every element is fit(X's element scaled by the one factor drawn for its channel), in X's dtype and shape |
| AugmentationFuncs.ChannelScale | buteo/ai/augmentation_funcs.py:213-238 | the copy-and-scale loop over channels yields exactly ChannelScaleSpec |
| AugmentationFuncs.ChannelScaleBounds | buteo/ai/augmentation_funcs.py:219-236 | each element is its channel's one factor applied to X's element; that factor lies in [-a, a] or [1-a, 1+a], and a ≤ max_amount |
| AugmentationFuncs.ContrastSpec | buteo/ai/augmentation_funcs.py:275-297 | the label is untouched; a failed gate returns the input; on success every element is fit(X's element stretched by 1 + amount about the mean of the channel its last index names; elements past the channel count are kept); channel-last always succeeds; channel-first, the model's own fail-fast rule refuses the input exactly when it has more channels than the last axis has entries, where the source's `[:, :, i]` would read past the end |
| AugmentationFuncs.Contrast | buteo/ai/augmentation_funcs.py:275-297 | the loop computing channel means and stretching each slice yields exactly ContrastSpec |
| AugmentationFuncs.ContrastKeepsMean | buteo/ai/augmentation_funcs.py:286-295 | channel-last, before the dtype fit, the stretch keeps every channel's mean |
| AugmentationFuncs.ContrastChannelFirstColumns | buteo/ai/augmentation_funcs.py:286-295 | channel-first, column k is stretched about the mean of channel k, and columns past the channel count are unchanged |
| AugmentationFuncs.DropPixelSpec | buteo/ai/augmentation_funcs.py:341-364 | the label is untouched and the shape and dtype are kept; a failed gate returns X; otherwise an element becomes drop_value exactly when its mask draw is ≤ drop_probability, else it equals X |
| AugmentationFuncs.DropPixel | buteo/ai/augmentation_funcs.py:341-364 | the copy-and-mask update yields exactly DropPixelSpec |
| AugmentationFuncs.DropPixelNone | buteo/ai/augmentation_funcs.py:347-354 | a negative drop probability drops nothing |
| AugmentationFuncs.DropPixelAll | buteo/ai/augmentation_funcs.py:347-354 | a drop probability of at least 1 drops every element |
| AugmentationFuncs.DropChannelSpec | buteo/ai/augmentation_funcs.py:405-429 | the label is untouched and dtype and shape are kept; when the gate fails or no per-channel trial is < drop_probability, X is returned |
| AugmentationFuncs.DropChannel | buteo/ai/augmentation_funcs.py:405-429 | the trial loop and channel fill yield exactly DropChannelSpec |
| AugmentationFuncs.DropChannelOne | buteo/ai/augmentation_funcs.py:411-429 | once the gate fires and some trial is < drop_probability, exactly one channel c in [0, channels) holds drop_value and every other element equals X; otherwise X is returned |
| AugmentationFuncs.FilterSpec | buteo/ai/augmentation_funcs.py:468-486 | the label is untouched; a failed gate returns X; otherwise every element is its channel's convolution, refit to X's dtype |
| AugmentationFuncs.Blur | buteo/ai/augmentation_funcs.py:468-486 | the per-channel convolution loop with the blur kernel yields exactly FilterSpec |
| AugmentationFuncs.Sharpen | buteo/ai/augmentation_funcs.py:565-583 | the per-channel convolution loop with the unsharp kernel yields exactly FilterSpec |
| AugmentationFuncs.FilterChannelLocal | buteo/ai/augmentation_funcs.py:477-482 | an element of the filtered array depends only on the plane of its own channel |
| AugmentationFuncs.BlurXY | buteo/ai/augmentation_funcs.py:523-529 | X changes only when the outer gate and X's own re-drawn gate both fire, and likewise for y; when they fire each is blurred |
| AugmentationFuncs.SharpenXY | buteo/ai/augmentation_funcs.py:621-627 | as blur_xy with sharpening: outer gate, then an independent re-drawn gate per array |
| AugmentationFuncs.BlurXYApart | buteo/ai/augmentation_funcs.py:526-527 | the inner gates are independent: X can be blurred while y is left as it was |
| AugmentationFuncs.MisalignSpec | buteo/ai/augmentation_funcs.py:664-686 | a failed gate returns the input; otherwise it fails exactly when there are no channels (empty randint); on success the drawn channel is fit(its convolution with the shift kernel of offsets min(rand(), max_offset), at the default intensity), every other element is X's element refit to its dtype, and the label is refit to its dtype |
| AugmentationFuncs.Misalign | buteo/ai/augmentation_funcs.py:664-686 | the copy-and-shift of one channel yields exactly MisalignSpec |
| AugmentationFuncs.MisalignOffsets | buteo/ai/augmentation_funcs.py:670-673 | both offsets are at most max_offset, and lie in [0, 1) when max_offset ≥ 0 |
| AugmentationFuncs.PatchSide | buteo/ai/augmentation_funcs.py:768-776 | the side fails exactly when int(n·max_size) ≤ int(n·min_size); otherwise it lies in that range (unfeathered) or is at most n (feathered) |
| AugmentationFuncs.PatchOrigin | buteo/ai/augmentation_funcs.py:778-779 | the origin fails exactly when n ≤ side; otherwise origin ≥ 0 and origin + side < n |
| AugmentationFuncs.CutmixPatch | buteo/ai/augmentation_funcs.py:768-781 | a drawn patch has 0 ≤ x0, x1 < width, 0 ≤ y0 and y1 < height, with sides in the drawn ranges |
| AugmentationFuncs.CutmixSpec | buteo/ai/augmentation_funcs.py:755-888 | a failed gate returns the target; a result keeps the target's shapes and dtypes; once the gate fires it fails with EmptyRange exactly when the patch draw's `randint` range is empty; once a patch is drawn, the model's own fail-fast rule refuses a donor image or label shaped unlike the target's, and, when feathered, a label whose height or width differs from the image's (ShapeMismatch); only feathered channel-first cutmix can index out of bounds; a fired call with a drawn patch and accepted shapes that is unfeathered or channel-last succeeds |
| AugmentationFuncs.Cutmix | buteo/ai/augmentation_funcs.py:755-888 | the slice copy, or the feathered element loops, yield exactly CutmixSpec |
| AugmentationFuncs.CutmixIgnoresLabelMix | buteo/ai/augmentation_funcs.py:876-883 | non-feathered cutmix gives the same result whatever label_mix is |
| AugmentationFuncs.CutmixCopiesPatch | buteo/ai/augmentation_funcs.py:876-883 | non-feathered: inside the slices [y0:y1, x0:x1], each clamped by that array's own height and width, X and y hold the donor's values, elsewhere the target's |
| AugmentationFuncs.CutmixPatchUnclamped | buteo/ai/augmentation_funcs.py:778-781 | the slice box equals the drawn patch, which lies within the array |
| AugmentationFuncs.CutmixKeepsLastColumnAndRow | buteo/ai/augmentation_funcs.py:778-781 | non-feathered cutmix never overwrites the last column or the last row |
| AugmentationFuncs.CutmixFeatherOutside | buteo/ai/augmentation_funcs.py:788-833 | feathered: an element outside the clamped, expanded box keeps the target's value in X and y |
| AugmentationFuncs.CutmixFeatherInside | buteo/ai/augmentation_funcs.py:794-833 | feathered: inside the clamped, expanded box X is fit(target · w + donor · (1 - w)) under the feather weight w of the element's row and column, and y is fit(label_mix of target and donor label under w and 1 - w) |
| AugmentationFuncs.CutmixFeatherChannelFirstRows | buteo/ai/augmentation_funcs.py:789-791 | channel-first, the clamp uses `shape[1]` and `shape[0]`, so rows at or past the channel count keep the target's value |
| AugmentationFuncs.LabelMixWeights | buteo/ai/augmentation_funcs.py:820-829 | code 5 takes the target iff w_t > w_s and code 6 iff w_t < w_s; on a tie both take the donor |
| AugmentationFuncs.BlendBetween | buteo/ai/augmentation_funcs.py:803-806 | a blend with weights w and 1-w, for w in [0, 1], lies between target and donor |
| AugmentationFuncs.MixupCoefficient | buteo/ai/augmentation_funcs.py:963-965 | λ ≤ 1, and λ ≥ min(min_size, 1) when min_size ≤ max_size + 0.001 |
| AugmentationFuncs.Mixup | buteo/ai/augmentation_funcs.py:954-989 | a failed gate returns the target; the model's own fail-fast rule refuses a donor image or label shaped unlike the target's (ShapeMismatch); otherwise X' = fit(λ·X_t + (1-λ)·X_s) elementwise and the label follows label_mix, each keeping the target's dtype and shape |
| AugmentationFuncs.MixupFiveIsSix | buteo/ai/augmentation_funcs.py:979-982 | label_mix 5 and 6 give the same result |
| AugmentationFuncs.MixupUnknownCode | buteo/ai/augmentation_funcs.py:969-986 | a code outside 0..7 leaves the target label, only refit to its dtype |
| AugmentationFuncs.MixupBetween | buteo/ai/augmentation_funcs.py:963-967 | with min_size ≥ 0 each blended element (before the dtype fit) lies between target and donor |
| AugmentationArgs.TransformOf | buteo/ai/augmentation.py:136-166 | a name is accepted only as one of the fourteen transform names, and then maps to the transform of that name |
| AugmentationArgs.TransformOfName | buteo/ai/augmentation.py:136-163 | each of the fourteen names maps back to its transform |
| AugmentationArgs.Kwargs | buteo/ai/augmentation.py:169 | the forwarded keyword arguments are exactly the record's entries other than "name", with the same values |
| AugmentationArgs.Bind | buteo/ai/augmentation.py:168-179 | binding succeeds iff every keyword is a parameter of the transform with a value of a fitting type; a keyword naming channel_last or a positional argument fails as a duplicate |
| AugmentationArgs.KeywordsArePlain | buteo/ai/augmentation.py:168-179 | no keyword parameter of a transform is channel_last or one of its positional arguments |
| AugmentationArgs.BindTakesArguments | buteo/ai/augmentation.py:169-179 | each keyword parameter receives the given value, else the transform's default |
| AugmentationStep.Step | buteo/ai/augmentation.py:132-179 | a record without "name" fails with MissingName; an unknown name fails with Unsupported naming that value |
| AugmentationStep.Donor | buteo/ai/augmentation.py:172-175 | the donor of cutmix and mixup is the pair at one index of the dataset |
| AugmentationStep.StepIgnoresDataset | buteo/ai/augmentation.py:172-179 | transforms other than cutmix and mixup do not depend on the dataset |
| AugmentationStep.ApplyStep | buteo/ai/augmentation.py:132-179 | the dispatch method computes exactly the step function |
| AugmentationStep.ApplyTransform | buteo/ai/augmentation.py:168-179 | the transform is applied with channel_last False |
| Pipeline.Run | buteo/ai/augmentation.py:131-179 | running no records returns the sample unchanged |
| Pipeline.RunNext | buteo/ai/augmentation.py:131-179 | record n receives the pair produced by records 0..n-1 |
| Pipeline.RunStopsAtFailure | buteo/ai/augmentation.py:131-179 | once a record fails, later records do not change the outcome |
| Pipeline.RunFailsAt | buteo/ai/augmentation.py:131-179 | a record failing on the pair it received ends every longer run with its error |
| Pipeline.RunSplit | buteo/ai/augmentation.py:131-179 | running a list is running a prefix and then the rest on its result, in list order |
| Augmentation.RunAll | buteo/ai/augmentation.py:130-179 | the loop rebinding (x, y) computes exactly the fold Run over the whole list |
| Augmentation.RunRejectsName | buteo/ai/augmentation.py:132-166 | a record with a missing or unknown name ends the whole run with the error naming that value |
| Augmentation.Wrap | buteo/ai/augmentation.py:127-128 | a Python index is accepted iff -n ≤ index < n, negative ones counting from the end |
| Augmentation.Item | buteo/ai/augmentation.py:126-190 | an index out of range of the samples or labels fails; otherwise the first failing augmentation's error is returned, or, when all succeed, the callback applied to the final pair and then the channel-last conversion only when output_is_channel_last is set |
| Augmentation.Finish | buteo/ai/augmentation.py:182-190 | the callback, when set, runs on the final pair; the result is then converted to channel-last when output_is_channel_last is set and returned as is otherwise |
| Augmentation.PlainItem | buteo/ai/augmentation.py:244-257 | the plain dataset fails exactly on an index out of range; otherwise it returns the indexed pair after the callback and the optional channel-last conversion |
| Augmentation.NoAugmentationsIsPlain | buteo/ai/augmentation.py:126-190 | with no augmentations the augmentation dataset yields exactly what the plain dataset yields |
| Augmentation.Stored | buteo/ai/augmentation.py:110-115 | the stored samples are the inputs, each converted to channel-first when the input is channel-last |
| Augmentation.AugmentationDataset.constructor | buteo/ai/augmentation.py:100-121 | stores the converted samples, the augmentations (none when absent), the callback and the output flag, and sets channel_last to False |
| Augmentation.AugmentationDataset.Len | buteo/ai/augmentation.py:123-124 | the length is the number of stored samples |
| Augmentation.AugmentationDataset.GetItem | buteo/ai/augmentation.py:126-190 | the method computes exactly Item: index, the augmentations in order, then the callback and the output conversion |
| Augmentation.Dataset.constructor | buteo/ai/augmentation.py:222-239 | stores the converted samples, the callback and the output flag |
| Augmentation.Dataset.Len | buteo/ai/augmentation.py:241-242 | the length is the number of stored samples |
| Augmentation.Dataset.GetItem | buteo/ai/augmentation.py:244-257 | the method computes exactly PlainItem |
| GdalUtils.WithDefaultsAppends | buteo/utils/gdal_utils.py:46-61 | the result starts with the input list unchanged; at most four options follow; each default option follows iff its key is not a substring of the space-joined input |
| GdalUtils.WithDefaultsIdempotent | buteo/utils/gdal_utils.py:48-59 | applying the defaults to their own output appends nothing |
| GdalUtils.DefaultCreationOptions | buteo/utils/gdal_utils.py:43-61 | the copy-then-append method computes exactly WithDefaults |
| GdalUtils.ParseDecimal | buteo/utils/gdal_utils.py:714 | `int()` of the decimal text of n gives back n |
| GdalUtils.ListBands | buteo/utils/gdal_utils.py:781-794 | a band list succeeds iff every element converts to an integer ≤ band_count - 1, and then holds those integers in input order; otherwise it fails on the first offending element |
| GdalUtils.BandList | buteo/utils/gdal_utils.py:776-804 | a non-number non-list fails with a type error; an empty list fails; a list follows ListBands; -1 gives 0..band_count-1; another scalar fails iff it exceeds band_count + 1, else gives [int(band)] |
| GdalUtils.ToBandList | buteo/utils/gdal_utils.py:776-804 | the appending loops compute exactly BandList |
| GdalUtils.BandListAcceptsMissingBand | buteo/utils/gdal_utils.py:791-802 | as written, band 4 of a 3-band raster is accepted as a scalar but rejected in a list |
| GdalUtils.CheckedBandList | buteo/utils/gdal_utils.py:795-802 | the corrected function agrees with BandList on every argument except a scalar other than -1 |
| GdalUtils.CheckedBandsExist | buteo/utils/gdal_utils.py:776-804 | with the corrected bound every returned band is at most band_count - 1 |
| GdalUtils.ParseRasterSize | buteo/utils/gdal_utils.py:588-661 | None fails; a path or dataset target, in either mode, gives x_res = transform[1] and y_res = abs(transform[5]) with no pixel counts, and fails when it cannot be opened; for a number, list or tuple target: in pixel mode the resolutions are None and in resolution mode the pixel counts are None; a list of length 0 or above 2 fails; a one-element list of a non-number fails; any other non-number fails; a number n gives x = y = int(n) pixels or float(n) resolution |
| GdalUtils.RasterSizeOfSingleton | buteo/utils/gdal_utils.py:614-661 | a one-element numeric list gives what the number alone gives |
| GdalUtils.RasterSizeOfPair | buteo/utils/gdal_utils.py:614-661 | two numbers give x from the first and y from the second; a pair holding a non-number gives all None |
| GdalUtils.RamLimit | buteo/utils/gdal_utils.py:701-727 | a non-string non-integer fails; "auto" in any case gives the dynamic limit; a string without "%" fails; a percentage that is not an integer fails; a percentage ≤ 0 or > 100 fails; a valid percentage p gives max(percent_of_ram(p) · 2^20, 1000000); an integer gives 1000000; every other result is at least 1000000 |
| GdalUtils.RamLimitIgnoresMegabytes | buteo/utils/gdal_utils.py:724-727 | as written, an integer limit of 4096 MB gives 1000000 bytes |
| GdalUtils.CheckedRamLimit | buteo/utils/gdal_utils.py:703-727 | the corrected function agrees with RamLimit on every argument that is neither an integer nor a bool; a bool, being an int in Python, is converted too, so True gives max(2^20, 1000000) |
| GdalUtils.CheckedRamLimitHonoursMegabytes | buteo/utils/gdal_utils.py:724-727 | with the correction an integer limit of mb MB succeeds with at least 1000000, and with exactly mb · 2^20 bytes when that exceeds 1000000 |
| GdalUtils.InMemory | buteo/utils/gdal_utils.py:205-209 | a path is in memory iff it starts with "/vsimem" |
| GdalUtils.InMemoryPaths | buteo/utils/gdal_utils.py:205-209 | every "/vsimem/" path is in memory, and extending an in-memory path keeps it in memory |

## Left out

- Randomness: the distributions of `np.random` (uniformity, normal noise) are not modelled. Every draw is a parameter, constrained only to its range.
- Floating point: float32 rounding, numba `fastmath` and the magnitude of noise, blur and sharpen. Values are `real`, and NaN and infinity are not representable.
- `rotate_arr`, `mirror_arr`, `_fit_data_to_dtype`, the numpy cast on assignment, `convolve_array_simple`, the kernel builders and `_feather_box_2d` are uninterpreted functions. Only their shape-keeping is assumed, through their result types.
- Parallelism: numba `prange` loops are modelled as sequential loops, or as `forall` updates of independent elements.
- numba's typing of keyword arguments is approximated by a per-parameter kind check (`Fits`). A value of the wrong kind is refused rather than coerced or failing inside numba.
- AugmentationDataset.constructor: `channel_last_to_first` is applied to each sample rather than to the whole batch array; the converters and the callback are uninterpreted functions.
- CutmixSpec: a donor image or label shaped unlike the target's is refused with ShapeMismatch, and so is, when feathered, a target label whose height or width differs from the image's (the feathered loops index the label over the image's box; unfeathered, a 1×4×4 image with a 1×2×2 label is accepted and the label's slices are clamped by its own axes, as numpy does). The source instead copies same-sized slices, so a 1×5×5 donor into a 1×4×4 target succeeds there, or fails inside numpy or numba; the model does not capture those runs. Feathered channel-first cutmix whose clamped box reaches past an axis is refused with OutOfBounds, where numba would read or write out of bounds unchecked.
- Mixup: donor images or labels shaped unlike the target's are refused with ShapeMismatch. In the source, label_mix 1, 2, an unknown code, or 5/6 choosing the target never combine the two labels, so a 1×3×3 donor label with a 1×2×2 target label succeeds there; the model does not capture those runs.
- ContrastSpec: channel-first input with more channels than the last axis has entries is refused with OutOfBounds. numba does no bounds checking, so the source reads past the end instead; the model does not say what that read returns.
- The order in which the draws are consumed across records is abstracted: each record gets its own draws from a function of its position.
- `is_in_memory` on a GDAL or OGR dataset (the driver-name branch) is not modelled.
- ParseRasterSize: reading the geotransform of a raster dataset or path (gdal.Open and GetGeoTransform) is a parameter `open`; a path GDAL cannot open, which fails with an AttributeError on None in the source, is the CannotOpen failure.
- `core_utils.is_number` is taken to accept Python int, float and bool.
- `int()` of a string accepts only an optional sign followed by ASCII digits; whitespace, underscores and non-ASCII digits are not modelled. `str.lower()` is limited to ASCII letters.
- RamLimit: `get_dynamic_memory_limit_bytes` and `get_percentage_of_total_ram_mb` are parameters and return integers.
- DefaultCreationOptions: takes a list of strings; the `None` argument and the broken `isinstance(options, (list, None))` guard are not modelled.
- The GDAL-dependent functions of `buteo/utils/gdal_utils.py` (`is_raster`, `is_vector`, `delete_*`, `to_path_list`, `to_array_list`, driver lookups and the rest) are not part of this model. Nor are `buteo/raster/resample.py`, `buteo/raster/proximity.py`, `buteo/machine_learning/tensorflow_utils.py`, `lib/local_statistics.py` and `setup.py`, which are wrappers over GDAL, TensorFlow or raster I/O.

## Findings

| source | as written | input that shows it | evidently intended | confidence | as-written member | corrected member |
|---|---|---|---|---|---|---|
| buteo/utils/gdal_utils.py:724-727 | an integer limit sets nothing, so `limit` stays 1000000 and the function returns 1000000 | `get_gdalwarp_ram_limit(4096)` returns 1000000 | the limit in MB converted to bytes, 4096 · 2^20 | not executed | GdalUtils.RamLimitIgnoresMegabytes | GdalUtils.CheckedRamLimitHonoursMegabytes |
| buteo/utils/gdal_utils.py:799 | a scalar band is rejected only above `band_count + 1` | `to_band_list(4, 3)` returns [4] for a 3-band raster, while `to_band_list([4], 3)` raises | the list branch's bound `band_count - 1` | not executed | GdalUtils.BandListAcceptsMissingBand | GdalUtils.CheckedBandsExist |
