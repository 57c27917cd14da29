# VolumeLighting core, modelled in Dafny

VolumeLighting is a Qt/OpenGL volume renderer. It loads a voxel dataset, maps
intensities to colours through an editable transfer function, and raymarches
the volume. A shadow volume is refined progressively, one scattering step per
frame. This project models the CPU-side bookkeeping of that renderer and proves
properties of it:

- `Volume` (volumedata.dfy): `VolumeData`.
  - Loading checks the file, derives the byte count, and scans the samples for
    their minimum and maximum.
  - Each sample's bytes are reversed in place in an `array<bv8>`.
  - It computes the aspect-correct normalise scale.
  - The histogram is memoised on its bucket count.
  - `createTexture` picks the texel type.
- `TransFunc` (transferfunction.dfy): `TransferFunction`, a table of RGBA
  entries. It has bounds-checked get/set, with a finer "alpha changed" signal,
  masked presets, smoothing, `toData`, and save/load.
- `TfCanvas` (transfunccanvas.dfy): `TransFuncCanvas`. Its channel mask and the
  `changeTf` stroke paint a clamped linear ramp over a range of entries.
- `RenderProps` (volumerenderprops.dfy): `VolumeRenderProps`.
  - Affine normalised setters and getters.
  - The split of setters between the two change signals.
  - The transfer-function slots.
  - Fixed-order save and load.
- `Shadow` (shadowrenderer.dfy): `ShadowRenderer`. It covers the progressive
  (theta, phi) sweep, the texture-size memo, the per-layer pass loop and the
  order of the passes.
- `Renderer` (volumerenderer.dfy): `VolumeRenderer`. It covers the per-frame
  protocol: at most one shadow step per frame, run before the entry/exit and
  volume passes. It also covers the transfer-function texture's dirty flag and
  the single-shot update timer.
- `Cameras` (camera.dfy): `Camera`. It covers zoom clamping, which mutators
  touch which fields and dirty flags, lazily recomputed matrices, and the
  orthographic extents.
- `Scenes` (scene.dfy): `Scene`. It covers project save/open, including how the
  stored dataset path is resolved against a fixed list of directories.
- Shared modules:
  - `CNum`: C++ truncating division and float-to-int conversion.
  - `Geometry`: vectors and quaternions.
  - `Colors`: 8-bit channels, channel masks, and `setXF` rounding.
  - `DataStream`: QDataStream as a sequence of typed items, whose readers yield
    a default past the end.

Modelling conventions:

- C++ `float` becomes `real`, so arithmetic is exact.
- `int` is unbounded.
- Qt signals, GL passes and texture uploads are appended to ghost logs, so
  their order and number can be stated.
- GL texture names, the file system and `sin` are parameters of the model.
- A QTimer is a boolean.

The model keeps these behaviours of the code, although a reader of the
renderer's interface might expect otherwise:

- The setters do not clamp their arguments. For example, `setStepSize(2)`
  stores a value above STEP_SIZE_MAX.
- `setShadowDimin` emits only "shadow properties changed".
- `defaultTf(0)` gives the last entry an alpha of `(size-1)*255/size`, which is
  below 255.

The model departs from the code in two places:

- Histogram bucketing uses the corrected bucket index (see Findings and the
  `Volume.VolumeData.CreateHistogram` line under "Left out").
- `TransferFunction::get(float)` on an empty table reads out of bounds; the
  model excludes that call by a precondition.

## Model

| member | source | states |
|---|---|---|
| CNum.CDiv | src/volumedata.cpp:53 | C++ integer division: the remainder is smaller than the divisor, takes the dividend's sign, and the quotient is the floor quotient on non-negative operands |
| CNum.Trunc | src/transferfunction.cpp:48 | a float-to-int conversion truncates toward zero |
| CNum.TruncAtMost | src/transferfunction.cpp:48 | truncating a real in [0, m] gives an integer in [0, m], which keeps the intensity index inside the table |
| CNum.TruncFraction | src/transferfunction.cpp:48 | truncating a fraction t in [0, 1] of m gives an integer in [0, m] |
| CNum.ClampReal | src/transfunccanvas.cpp:108-111 | the clamp of a value to [lo, hi] lies in [lo, hi] and keeps a value already inside |
| CNum.MulLe | src/volumedata.cpp:53 | multiplying by a non-negative integer keeps the order; it bounds the voxel count and the sample offsets |
| CNum.MulAtLeast | src/shadowrenderer.cpp:161-163 | k*b >= b for k >= 1, so a dimension divided by dimin never exceeds the dimension |
| CNum.DivMonotone | src/transferfunction.cpp:97 | integer division by a positive divisor is monotone, so the ramp `i*255/size` never decreases |
| CNum.DivLe | src/volumedata.cpp:93-94 | dividing by a positive real keeps the order, strictly for strictly ordered values |
| CNum.SelfDiv | src/volumedata.cpp:247 | a positive real divided by itself is 1, the scaled position of the largest sample |
| CNum.MulDivCancel | src/transferfunction.cpp:151-160 | multiplying by the weight total and dividing by it again gives the value back |
| CNum.ScaleBelow | src/volumerenderprops.cpp:262-263 | a fraction below 1 of a positive scale stays below the scale |
| CNum.FractionOf | src/transferfunction.cpp:48 | a fraction in [0, 1] of a non-negative real lies between 0 and that real |
| Colors.ChannelF | src/transferfunction.cpp:29-32 | a channel read as a real (`redF()` and its siblings) lies in [0, 1] |
| Colors.FromF | src/transferfunction.cpp:154-160 | a channel set from a real (`setRedF()` and its siblings) is that real times 255, rounded to nearest, for a real in [0, 1]; below 0 it is 0 and above 1 it is 255, as Qt clamps |
| Colors.FromFChannelF | src/transferfunction.cpp:152-160 | setting a channel to its own real value keeps the channel |
| Colors.Overwrite | src/transferfunction.cpp:101-108 | exactly the channels the mask selects come from the new colour; the others keep the old colour's value |
| Geometry.RotatedByIdentity | src/camera.cpp:59-62 | rotating a vector by the identity quaternion gives the vector back |
| Geometry.RotatedOrigin | src/camera.cpp:23-35 | rotating the zero vector gives the zero vector, so a zero translation keeps the point of view |
| DataStream.ReadInt | src/transferfunction.cpp:187 | reading an int consumes one item; a missing or mistyped item reads as 0 |
| DataStream.ReadReal | src/volumerenderprops.cpp:57 | reading a float consumes one item; a missing or mistyped item reads as 0 |
| DataStream.ReadBool | src/volumerenderprops.cpp:62 | reading a bool consumes one item; it is true only for a stored true |
| DataStream.ReadStr | src/scene.cpp:55 | reading a string consumes one item; a missing or mistyped item reads as the empty string |
| DataStream.ReadColor | src/transferfunction.cpp:190 | reading a colour consumes one item; a missing or mistyped item reads as a colour whose four channels are zero, alpha included |
| DataStream.ReadVec | src/volumerenderprops.cpp:60 | reading a vector consumes one item; a missing or mistyped item reads as the origin |
| Volume.ValueBEBound | src/volumedata.cpp:69-76 | an n-byte sample assembled first-byte-most-significant is below 256^n, the `domain` of the scan |
| Volume.ValueLEReverse | src/volumedata.cpp:75-76 | reading a sample's reversed bytes last-byte-most-significant (the histogram's order) gives the value the load scan read |
| Volume.SwapBytesInvolution | src/volumedata.cpp:84-90 | reversing every sample twice restores the payload |
| Volume.SamplesLESwap | src/volumedata.cpp:75-76 | the samples the histogram reads from the reversed buffer are the samples the load scan read before reversal, in order |
| Volume.SwapBytesAppend | src/volumedata.cpp:72-90 | reversing a payload sample by sample is reversing its prefix, then reversing the next sample |
| Volume.SamplesBEAppend | src/volumedata.cpp:72-76 | the scan's samples of a payload extended by one sample end with that sample's value |
| Volume.SamplesLEAppend | src/volumedata.cpp:240-244 | the histogram's samples of a payload extended by one sample end with that sample's value |
| Volume.SamplesBEBound | src/volumedata.cpp:69-76 | every sample of `byteCount` bytes lies below `domain` = 256^byteCount |
| Volume.ChunkFits | src/volumedata.cpp:72 | when the payload is a whole number of samples, a sample starting below the end ends within the payload |
| Volume.FoldBounds | src/volumedata.cpp:70-82 | the running minimum and maximum bound every sample and are the initial value or a sample |
| Volume.FoldStep | src/volumedata.cpp:78-81 | one more sample replaces the running maximum exactly when it is larger, the minimum exactly when smaller |
| Volume.FoldExtremes | src/volumedata.cpp:70-82 | over a non-empty payload the scan's minV and maxV are samples and minV <= maxV < domain |
| Volume.NormalizedRange | src/volumedata.cpp:69-94 | for a non-empty payload 0 <= minValue <= maxValue < 1, where minValue and maxValue are the extreme samples divided by 256^byteCount |
| Volume.FractionRange | src/volumedata.cpp:93-94 | dividing lo <= hi < d by d gives 0 <= lo/d <= hi/d < 1 |
| Volume.ByteCountOf | src/volumedata.cpp:53 | the byte count is the payload size divided (truncating) by the voxel count, so byteCount samples per voxel fit in the payload |
| Volume.NormalizeScale | src/volumedata.cpp:108-124 | each scale factor is extent/max in (0, 1], the largest extent's factor is 1, and the factors keep the extents' ratios |
| Volume.ScaleFactor | src/volumedata.cpp:124 | an extent divided by the maximum extent lies in (0, 1] and is 1 for the maximum itself |
| Volume.CrossRatio | src/volumedata.cpp:124 | dividing every extent by the same maximum keeps their ratios |
| Volume.ExtentsPositive | src/volumedata.cpp:108-110 | a well-formed header gives three positive real extents, so the division by `max` is defined |
| Volume.PositiveProduct | src/volumedata.cpp:108-110 | a resolution of at least 1 times a positive aspect is positive |
| Volume.BucketIndex | src/volumedata.cpp:247-248 | the corrected bucket index is always a valid slot of the histogram |
| Volume.BucketIndexAsWritten | src/volumedata.cpp:247 | the source's index: for a sample in [minValue, maxValue] over a non-empty range it lies in [0, buckets], `buckets` included |
| Volume.AsWrittenBounds | src/volumedata.cpp:247 | for x in [lo, hi] with lo < hi, the truncated (x - lo) / (hi - lo) * buckets lies in [0, buckets], so the index as written can reach buckets itself |
| Volume.MaxSampleIndexIsBuckets | src/volumedata.cpp:247-248 | as written, a sample equal to the maximum value lands in slot `buckets`, one past the histogram's end |
| Volume.ScaledIndexInRange | src/volumedata.cpp:247 | a position in [0, w) scaled to `buckets` and truncated is a bucket index |
| Volume.BucketIndexAgrees | src/volumedata.cpp:247 | below the maximum value the source's index is in range and the corrected index equals it |
| Volume.PayloadMaxOverflows | src/volumedata.cpp:240-248 | every payload with at least two distinct values holds a sample whose as-written index is `buckets` |
| Volume.ConstantPayloadHasEmptyRange | src/volumedata.cpp:93-94 | a payload whose samples are all equal gives minValue == maxValue, so the bucket formula divides by zero |
| Volume.Histogram | src/volumedata.cpp:234-248 | the counts table always has `buckets` entries |
| Volume.SumZeros | src/volumedata.cpp:234-236 | a freshly zeroed table counts nothing |
| Volume.SumIncrement | src/volumedata.cpp:248 | one increment of one bucket adds one to the total count |
| Volume.HistogramCountsAll | src/volumedata.cpp:240-248 | every sample is counted in exactly one bucket: the counts sum to the number of samples |
| Volume.ScanAndSwap | src/volumedata.cpp:68-91 | in place, the payload becomes its per-sample byte reversal, and minV/maxV are the scan's fold over the samples read before reversal |
| Volume.CountSamples | src/volumedata.cpp:240-253 | returns the bucket counts of the samples read last-byte-most-significant, using the corrected index |
| Volume.LoadStep | src/volumedata.cpp:72-90 | one iteration of the load loop extends the reversed prefix and the sample sequence by one sample |
| Volume.HistogramStep | src/volumedata.cpp:240-248 | one iteration of the histogram loop adds one to exactly the bucket of the next sample |
| Volume.ReadSampleBE | src/volumedata.cpp:74-76 | the shift-and-or loop assembles the sample first byte most significant |
| Volume.ReadSampleLE | src/volumedata.cpp:242-244 | the downward shift-and-or loop assembles the sample last byte most significant |
| Volume.ReverseSample | src/volumedata.cpp:84-90 | swapping bytes i+n and i+byteCount-1-n for n below (byteCount+1)/2 reverses that sample and leaves every other byte alone |
| Volume.ZeroCounts | src/volumedata.cpp:234-236 | a fresh table of `buckets` zero counts |
| Volume.Pow256 | src/volumedata.cpp:69 | 256^n is at least 1, so the normalisation divides by a positive domain |
| Volume.SwapBytes | src/volumedata.cpp:84-90 | reversing the payload sample by sample keeps its length |
| Volume.ScanStep | src/volumedata.cpp:72-90 | one iteration of the load loop, in place: the next sample's bytes are reversed and the running minV/maxV take in its value |
| Volume.CountStep | src/volumedata.cpp:240-248 | one iteration of the histogram loop, in place: the table becomes the histogram of one more sample |
| Volume.Bump | src/volumedata.cpp:248 | `histogram[b]++` adds one to slot b and leaves every other slot alone |
| Volume.VolumeData.constructor | src/volumedata.cpp:14-20 | a new dataset is not ready, has no histogram and has lastBuckets == -1 |
| Volume.VolumeData.LoadFrom | src/volumedata.cpp:22-127 | a missing or unopenable file changes nothing; otherwise the path, byte count, properties, reversed payload, min/max, the 256-bucket histogram and the normalise scale are set, ready is true and dataChanged is emitted once |
| Volume.VolumeData.UpdateScale | src/volumedata.cpp:107-124 | the normalise scale becomes the scale of the current real extents |
| Volume.VolumeData.LoadPayload | src/volumedata.cpp:38-102 | stores the path, the byte count and the header properties; the payload is reversed sample by sample, minValue/maxValue are the extreme samples over 256^byteCount, and the dataset becomes ready |
| Volume.VolumeData.CreateHistogram | src/volumedata.cpp:221-267 | with the same bucket count and an existing histogram, returns the cached table untouched; otherwise a fresh table of the bucket counts, recorded with lastBuckets |
| Volume.VolumeData.CreateTexture | src/volumedata.cpp:141-203 | not ready: GL_INVALID_VALUE and nothing changes; ready: exactly one upload appended, named genName, of the dataset's size and bytes, whose texel type matches byteCount 1/2/4, any other byteCount falling back to bytes and setting byteCount to 1 |
| Volume.TexelOf | src/volumedata.cpp:141-203 | the texel type of a byte count has that many bytes for 1, 2 and 4, and one byte otherwise |
| TransFunc.EditSignals | src/transferfunction.cpp:79-81 | an edit always emits transFuncChanged first, and emits transFuncChangedAlpha iff the opacity changed |
| TransFunc.IntensityIndex | src/transferfunction.cpp:48 | for an intensity in [0, 1] and a non-empty table, `(int)(intensity*(size-1))` is a valid index |
| TransFunc.Ramp | src/transferfunction.cpp:91-97 | the preset ramp value `i*255/size` never reaches 255 |
| TransFunc.RampBound | src/transferfunction.cpp:97 | 0 <= i*255/size < 255 for every entry i |
| TransFunc.DefaultColors | src/transferfunction.cpp:88-110 | the preset keeps the table's size |
| TransFunc.DefaultRamp | src/transferfunction.cpp:91-97 | the default preset's opacity is 0 at entry 0, never decreases along the table and stays below 255; so does the hue preset's |
| TransFunc.WeightedSumBounds | src/transferfunction.cpp:141-149 | with positive weights, a weighted sum of channel values lies between 0 and the sum of the weights |
| TransFunc.AddWeighted | src/transferfunction.cpp:143-148 | adding a value in [0, 1] times a positive weight keeps the sum within the weights' total |
| TransFunc.SmoothedF | src/transferfunction.cpp:151-160 | the weighted mean `r/wSum` lies in [0, 1], so setting a channel from it never reaches Qt's clamp |
| TransFunc.WeightSumPositive | src/transferfunction.cpp:148 | wSum is at least the last weight, hence positive: the normalisation never divides by zero |
| TransFunc.SmoothedColors | src/transferfunction.cpp:123-161 | smoothing keeps the table's size |
| TransFunc.WeightedSumConstant | src/transferfunction.cpp:141-149 | when a channel equals c in every entry, its weighted sum is c times wSum |
| TransFunc.SmoothKeepsConstantChannel | src/transferfunction.cpp:134-160 | smoothing leaves a channel that is constant over the table unchanged |
| TransFunc.SmoothedFConstant | src/transferfunction.cpp:134-160 | the weighted mean of a channel that has the same value in every entry is that value |
| TransFunc.TfTokens | src/transferfunction.cpp:176-181 | a saved table is one item for the size followed by one per colour |
| TransFunc.TfRoundTrip | src/transferfunction.cpp:176-194 | loading what was saved reads back the size and every colour in index order, whatever surrounds it in the stream |
| TransFunc.WeighStep | src/transferfunction.cpp:142-148 | one inner iteration adds each channel times the weight to its running sum |
| TransFunc.WeighAll | src/transferfunction.cpp:136-149 | the inner loop computes the four weighted channel sums and wSum over all entries |
| TransFunc.TransferFunction.constructor | src/transferfunction.cpp:9-14 | the default table has 256 entries holding the default preset on every channel, and emits both edit signals |
| TransFunc.TransferFunction.Sized | src/transferfunction.cpp:16-20 | a table of the given size holding the default preset on every channel |
| TransFunc.TransferFunction.Get | src/transferfunction.cpp:51-58 | an index in range returns that entry; any other returns an invalid colour and reads nothing |
| TransFunc.TransferFunction.GetF | src/transferfunction.cpp:42-49 | an intensity outside [0, 1] returns an invalid colour; otherwise the entry at `(int)(intensity*(size-1))` |
| TransFunc.TransferFunction.Set | src/transferfunction.cpp:70-82 | an index out of range changes nothing and emits nothing; otherwise only that entry changes, transFuncChanged is emitted, and transFuncChangedAlpha iff the opacity differs |
| TransFunc.TransferFunction.SetF | src/transferfunction.cpp:60-68 | an intensity outside [0, 1] changes nothing; otherwise it sets the entry at `(int)(intensity*(size-1))` as Set does |
| TransFunc.TransferFunction.DefaultTf | src/transferfunction.cpp:84-115 | the table becomes the preset on exactly the channels the mask selects; transFuncChanged is emitted, and transFuncChangedAlpha iff opacity is selected |
| TransFunc.TransferFunction.Smooth | src/transferfunction.cpp:120-169 | the table is replaced by its smoothed copy: each selected channel is the weighted mean of that channel, the others are kept; signals as in DefaultTf |
| TransFunc.TransferFunction.SmoothEntry | src/transferfunction.cpp:134-161 | one outer iteration computes entry i of the smoothed table |
| TransFunc.TransferFunction.ToData | src/transferfunction.cpp:26-35 | the result has 4*size reals, and slot 4k+c holds channel c of entry k |
| TransFunc.TransferFunction.SaveTo | src/transferfunction.cpp:176-181 | appends the size and then every colour in index order |
| TransFunc.TransferFunction.LoadFrom | src/transferfunction.cpp:183-194 | the table becomes the size and colours read from the stream, and transFuncChangedAlpha then transFuncChanged are emitted |
| RenderProps.NormDenorm | src/volumerenderprops.cpp:78-79 | the normalised getter inverts the affine setter and back; 0 maps to the minimum, 1 to the maximum, and values outside [0, 1] go outside the range unclamped |
| RenderProps.DenormOutside | src/volumerenderprops.cpp:78-79 | the setters do not clamp: a slider value below 0 stores less than the minimum, one above 1 more than the maximum |
| RenderProps.ProductPositive | src/volumerenderprops.cpp:78-79 | a product of two positive reals is positive; it places an unclamped slider value outside its scale |
| RenderProps.LightCoordRoundTrip | src/volumerenderprops.cpp:215-231 | the normalised light-position getter inverts its setter, and 0.5 is the origin |
| RenderProps.StepCountOf | src/volumerenderprops.cpp:262-263 | the stored scattering step count is truncated to an int: 2..5 below a slider value of 1, and 6 at 1 |
| RenderProps.StepCountN | src/volumerenderprops.cpp:195-197 | the normalised step count uses integer division: 0 for counts 2..5, 1 for count 6 |
| RenderProps.StepCountSliderCoarse | src/volumerenderprops.cpp:262-263 | reading back the step count after setting it from the slider gives 0 below the top and 1 at the top |
| RenderProps.SettingsTokens | src/volumerenderprops.cpp:40-52 | the settings are saved as twelve items |
| RenderProps.ReadSettings | src/volumerenderprops.cpp:56-68 | loading the settings consumes twelve items |
| RenderProps.SettingsRoundTrip | src/volumerenderprops.cpp:40-68 | loading reads back every setting that saving wrote, whatever surrounds it in the stream |
| RenderProps.ProjectRoundTrip | src/volumerenderprops.cpp:40-69 | loading reads back the settings and then the transfer function that saving wrote |
| RenderProps.DefaultSliders | src/volumerenderprops.cpp:17-31 | the default step size, segment length and opacity step sit at the middle of their sliders, the light starts at the top of z, and the scattering sliders start at 0 |
| RenderProps.VolumeRenderProps.constructor | src/volumerenderprops.cpp:17-38 | the defaults, a fresh 256-entry transfer function connected to both slots, then shadowPropsChanged and volumePropsChanged |
| RenderProps.VolumeRenderProps.StepSizeN | src/volumerenderprops.cpp:163-165 | the step-size slider position, which the setter's scale maps back to the stored step size |
| RenderProps.VolumeRenderProps.LightPosXN | src/volumerenderprops.cpp:167-169 | the light-x slider position, which the light scale maps back to the stored x |
| RenderProps.VolumeRenderProps.LightPosYN | src/volumerenderprops.cpp:171-173 | the light-y slider position, which the light scale maps back to the stored y |
| RenderProps.VolumeRenderProps.LightPosZN | src/volumerenderprops.cpp:175-177 | the light-z slider position, which the light scale maps back to the stored z |
| RenderProps.VolumeRenderProps.LightIntensityN | src/volumerenderprops.cpp:179-181 | the intensity as a fraction of the maximum, which times the maximum gives the stored intensity |
| RenderProps.VolumeRenderProps.LightBaseIntensityN | src/volumerenderprops.cpp:183-185 | the base intensity as a fraction of its maximum, which times the maximum gives the stored value |
| RenderProps.VolumeRenderProps.LightSegmentLengthN | src/volumerenderprops.cpp:187-189 | the segment-length slider position, which the setter's scale maps back to the stored length |
| RenderProps.VolumeRenderProps.LightOpacityBaseStepN | src/volumerenderprops.cpp:191-193 | the opacity-step slider position, which the setter's scale maps back to the stored value |
| RenderProps.VolumeRenderProps.ScatteringStepCountN | src/volumerenderprops.cpp:195-197 | the step-count slider in integer division: 0 for counts 2 to 5, 1 for 6 |
| RenderProps.VolumeRenderProps.ScatteringRadiusN | src/volumerenderprops.cpp:199-201 | the radius slider position, which the setter's scale maps back to the stored radius |
| RenderProps.VolumeRenderProps.SetStepSize | src/volumerenderprops.cpp:78-81 | stores the unclamped affine value whose normalised reading is the argument; volumePropsChanged only |
| RenderProps.VolumeRenderProps.SetShadowDimin | src/volumerenderprops.cpp:83-86 | stores the value; shadowPropsChanged only |
| RenderProps.VolumeRenderProps.SetMode | src/volumerenderprops.cpp:100-103 | stores the mode; volumePropsChanged only |
| RenderProps.VolumeRenderProps.SetLightingMode | src/volumerenderprops.cpp:105-108 | stores the lighting mode; volumePropsChanged only |
| RenderProps.VolumeRenderProps.SetTransFunc | src/volumerenderprops.cpp:110-118 | the new function is stored but disconnected, like the old one, from the change slot; both signals |
| RenderProps.VolumeRenderProps.SetLightPos | src/volumerenderprops.cpp:128-132 | stores the position; both signals |
| RenderProps.VolumeRenderProps.SetLightPosX | src/volumerenderprops.cpp:215-219 | changes only the x coordinate, which then reads back normalised as the argument; both signals |
| RenderProps.VolumeRenderProps.SetLightPosY | src/volumerenderprops.cpp:221-225 | changes only the y coordinate, which then reads back normalised as the argument; both signals |
| RenderProps.VolumeRenderProps.SetLightPosZ | src/volumerenderprops.cpp:227-231 | changes only the z coordinate, which then reads back normalised as the argument; both signals |
| RenderProps.VolumeRenderProps.SetLightIntensity | src/volumerenderprops.cpp:233-237 | stores v times the maximum, read back normalised as v; both signals |
| RenderProps.VolumeRenderProps.SetLightBaseIntensity | src/volumerenderprops.cpp:239-242 | stores v times the maximum, read back normalised as v; volumePropsChanged only |
| RenderProps.VolumeRenderProps.SetLightSegmentLength | src/volumerenderprops.cpp:244-248 | stores the affine value read back normalised as v; both signals |
| RenderProps.VolumeRenderProps.SetLightDirectional | src/volumerenderprops.cpp:250-254 | stores the flag; both signals |
| RenderProps.VolumeRenderProps.SetLightOpacityBaseStep | src/volumerenderprops.cpp:256-260 | stores the affine value read back normalised as v; both signals |
| RenderProps.VolumeRenderProps.SetScatteringStepCount | src/volumerenderprops.cpp:262-266 | stores the truncated step count; both signals |
| RenderProps.VolumeRenderProps.SetScatteringRadius | src/volumerenderprops.cpp:268-272 | stores the affine value read back normalised as v; both signals |
| RenderProps.VolumeRenderProps.TransFuncChangedSlot | src/volumerenderprops.cpp:206-208 | any transfer-function edit emits volumePropsChanged |
| RenderProps.VolumeRenderProps.TransFuncChangedAlphaSlot | src/volumerenderprops.cpp:210-212 | an opacity edit emits shadowPropsChanged |
| RenderProps.VolumeRenderProps.Deliver | src/volumerenderprops.cpp:32-34 | a transfer-function signal reaches its slot only over a live connection |
| RenderProps.Reaction | src/volumerenderprops.cpp:206-212 | volumePropsChanged iff an edit arrives over the change connection, shadowPropsChanged iff an opacity edit arrives over the alpha connection, never both |
| RenderProps.VolumeRenderProps.SaveTo | src/volumerenderprops.cpp:40-54 | appends the twelve settings in their fixed order, then the transfer function |
| RenderProps.VolumeRenderProps.Assign | src/volumerenderprops.cpp:57-68 | every setting takes the read value |
| RenderProps.VolumeRenderProps.LoadFrom | src/volumerenderprops.cpp:56-72 | the settings and the transfer function become what the stream holds; the signals are the slots' reactions to the function's transFuncChangedAlpha and transFuncChanged over the live connections, then shadowPropsChanged and volumePropsChanged |
| RenderProps.VolumeRenderProps.AfterLoad | src/volumerenderprops.cpp:69-71 | the signals that follow loading: the reactions to the function's transFuncChangedAlpha and transFuncChanged over the live connections, then shadowPropsChanged and volumePropsChanged |
| RenderProps.LoadSignals | src/volumerenderprops.cpp:69-71 | loading emits the relayed reactions to the function's transFuncChangedAlpha and transFuncChanged, then shadowPropsChanged and volumePropsChanged; with both connections live that is shadow, volume, shadow, volume |
| Shadow.LayerPassesOrder | src/shadowrenderer.cpp:229-233 | a texture pass renders every layer 0..depth-1 exactly once, in increasing order, with one program and one blending mode; nothing when depth <= 0 |
| Shadow.AdvanceInRange | src/shadowrenderer.cpp:133-145 | after an advance, theta stays in [0, PI] and phi below 2*PI; a completed sweep restarts at (0, 0); otherwise theta never decreases and phi stays non-negative |
| Shadow.DivByAtMostOne | src/shadowrenderer.cpp:133 | dividing a positive step by the stretch factor 0.1 + 0.9*sin(theta) <= 1 never shrinks it |
| Shadow.PhiStep | src/shadowrenderer.cpp:133 | each phi step is at least PI/stepCount |
| Shadow.CoveredRange | src/shadowrenderer.cpp:133-137 | a phi below 2*PI has covered between 0 and 2n-1 whole steps of PI/n |
| Shadow.CoveredGrows | src/shadowrenderer.cpp:133 | a phi step of at least PI/n covers at least one more whole step |
| Shadow.ThetaAtBound | src/shadowrenderer.cpp:136-140 | theta after j+1 steps of PI/n is still at most PI exactly when j+1 <= n |
| Shadow.AdvanceProgress | src/shadowrenderer.cpp:133-145 | every call that does not complete the sweep strictly lowers the number of steps left |
| Shadow.AdvanceNextRow | src/shadowrenderer.cpp:134-137 | a call that completes phi's circle resets phi and moves theta on by one step, lowering the steps left |
| Shadow.AdvanceSameRow | src/shadowrenderer.cpp:133 | a call that stays within phi's circle keeps theta and lowers the steps left |
| Shadow.SweepCalls | src/shadowrenderer.cpp:129-145 | the number of calls a sweep still takes is at least 1 and bounded by the steps left |
| Shadow.SweepBounded | src/shadowrenderer.cpp:129-145 | with stepCount >= 1 and sin in [0, 1], a sweep started at (0, 0) reports completion after at most (n+1)(2n+1)+2n calls |
| Shadow.ShadowRenderer.constructor | src/shadowrenderer.cpp:12-102 | theta = phi = 0, the texture size is -1 in every dimension, nothing is rendered or allocated |
| Shadow.ShadowRenderer.ShadowPropsChanged | src/shadowrenderer.cpp:104-108 | aborts the sweep: theta = phi = 0 |
| Shadow.ShadowRenderer.UpdateBaseTextures | src/shadowrenderer.cpp:150-206 | a dataset that is not ready changes nothing; otherwise the size becomes the dataset's dimensions divided by dimin, and textures are allocated only when that size changed |
| Shadow.ShadowRenderer.Process3DTexture | src/shadowrenderer.cpp:209-243 | appends one plane pass per layer, blended only when asked |
| Shadow.ShadowRenderer.UpdateShadowVolume | src/shadowrenderer.cpp:116-148 | the textures resized and allocated as by UpdateBaseTextures; the local opacity, global opacity and shadow passes run, in that order, iff theta == phi == 0 at entry; with radius > 0 one blended scattering pass runs and the direction advances by Advance, whose flag is the result; otherwise it returns true with theta and phi unchanged; together these are Stepped |
| Shadow.ShadowRenderer.Stepped | src/shadowrenderer.cpp:116-148 | the state change of one shadow step returning `done`, as UpdateShadowVolume ensures, stated once for the renderer's contracts |
| Shadow.ShadowRenderer.StartSweep | src/shadowrenderer.cpp:124-127 | the base passes run iff the sweep is at (0, 0) |
| Shadow.ShadowRenderer.AdvanceSweep | src/shadowrenderer.cpp:132-145 | phi grows by PI/stepCount/(0.1+0.9 sin theta); a full circle resets phi and adds PI/stepCount to theta; past PI both reset and the result is true |
| Shadow.TargetSize | src/shadowrenderer.cpp:160-163 | the texture size is each dimension divided (truncating) by dimin: never larger than the dataset, and the dataset's own size when dimin is 1 |
| Shadow.QuotientBelow | src/shadowrenderer.cpp:161-163 | a non-negative dimension divided by dimin >= 1 lies between 0 and the dimension |
| Shadow.FirstResizeAllocates | src/shadowrenderer.cpp:83 | the first call with a ready dataset always allocates, because no computed size equals the initial -1 |
| Renderer.FrameAppend | src/volumerenderer.cpp:123-158 | the steps a frame appends one by one form the frame's step sequence |
| Renderer.CountAppend | src/volumerenderer.cpp:123-158 | occurrences in a concatenation add up |
| Renderer.CountAbsent | src/volumerenderer.cpp:123-158 | a step that does not occur is counted zero times |
| Renderer.CountSingle | src/volumerenderer.cpp:123-158 | a one-step sequence holds a step once if it is that step, otherwise not at all |
| Renderer.FrameCounts | src/volumerenderer.cpp:138-154 | a frame over a ready dataset runs exactly one shadow step if the shadow volume was incomplete and none otherwise, and exactly one entry/exit pass and one volume pass |
| Renderer.FrameCount | src/volumerenderer.cpp:138-154 | the count of each of the three passes in one frame |
| Renderer.CountFour | src/volumerenderer.cpp:123-158 | occurrences in four concatenated parts add up |
| Renderer.OutsideCount | src/volumerenderer.cpp:126-157 | the clear, the texture upload and the timer restart contain none of the three passes |
| Renderer.PassesCount | src/volumerenderer.cpp:150-154 | the entry/exit pass and the volume pass each run once |
| Renderer.ShadowCount | src/volumerenderer.cpp:138-142 | the shadow part runs one shadow step iff the shadow volume was incomplete |
| Renderer.FrameOrder | src/volumerenderer.cpp:138-157 | the shadow step comes directly before the entry/exit pass, which comes directly before the volume pass; the frame ends with a timer restart of SHADOW_UPDATE_DELAY = 400 exactly when the shadow volume is still incomplete |
| Renderer.VolumeRenderer.constructor | src/volumerenderer.cpp:10-54 | no transfer function or texture yet and the texture dirty, the timer stopped, and the dataset handled as by datasetChanged: a ready dataset gets one texture upload named genName with the texel type of its byteCount (falling back to bytes and byteCount 1) and an incomplete shadow volume; a dataset that is not ready is unchanged |
| Renderer.VolumeRenderer.UpdateTransFuncFrom | src/volumerenderer.cpp:76-121 | another function marks the texture dirty; a dirty texture is uploaded (obtaining a name first if there is none) and becomes clean; a failed name leaves it dirty and uploads nothing |
| Renderer.TfTextureFollows | src/volumerenderer.cpp:76-119 | the texture is uploaded iff it was dirty or the function switched and a name is available; a nameless texture takes the handed-out name; otherwise it stays dirty |
| Renderer.TfTextureClean | src/volumerenderer.cpp:76-119 | after the update a named texture is clean, nothing is uploaded when nothing changed, and at most one upload happens |
| Renderer.VolumeRenderer.Render | src/volumerenderer.cpp:123-158 | without a ready dataset the frame only clears; otherwise the frame is clear, the upload, the shadow part, the two passes and the timer part; the texture follows the current function as TfTextureFollows says (clean whenever it has a name); a ready shadow volume stays ready without touching the shadow renderer, and an incomplete one takes one shadow step (Stepped) whose result becomes shadowVolumeReady |
| Renderer.VolumeRenderer.DrawFrame | src/volumerenderer.cpp:134-157 | the part of a frame after the check for a ready dataset: the texture update as TfTextureFollows says, the shadow step as Stepped says when the volume was incomplete, and the timer running afterwards iff the shadow volume is still incomplete |
| Renderer.VolumeRenderer.StepShadow | src/volumerenderer.cpp:137-142 | an incomplete shadow volume stops a running timer and takes one shadow step (Stepped: resize, base passes at the start of a sweep, a scattering pass and an Advance with a positive radius, complete at once without) whose result becomes shadowVolumeReady; a complete one changes nothing |
| Renderer.VolumeRenderer.DatasetChanged | src/volumerenderer.cpp:295-310 | a dataset that is not ready changes nothing; otherwise the old texture is deleted if there was one, the dataset gets one upload named genName with the texel type of its byteCount (falling back to bytes and byteCount 1), and the shadow volume becomes incomplete |
| Renderer.VolumeRenderer.ShadowPropsChanged | src/volumerenderer.cpp:312-316 | the sweep restarts at (0, 0) and the timer is started only if it was not running |
| Renderer.VolumeRenderer.ActualShadowUpdate | src/volumerenderer.cpp:318-321 | the shadow volume becomes incomplete and a repaint is requested |
| Renderer.VolumeRenderer.TimerTimeout | src/volumerenderer.cpp:48-50 | the single-shot timer fires once, stops, and runs actualShadowUpdate |
| Renderer.VolumeRenderer.TransFuncChanged | src/volumerenderer.cpp:323-325 | marks the transfer-function texture dirty and changes nothing else |
| Renderer.VolumeRenderer.ResizeCanvas | src/volumerenderer.cpp:64-66 | stores the new canvas size |
| TfCanvas.Level | src/transfunccanvas.cpp:95-99 | a pointer row inside the widget stands for a value in [0, 1], and 1 only at the top row |
| TfCanvas.SpanOf | src/transfunccanvas.cpp:86-100 | the stroke runs from the left column to the right one; a leftward drag swaps the end values with the columns, so each end keeps its own pointer's level |
| TfCanvas.SpanSymmetric | src/transfunccanvas.cpp:90-100 | between two different columns, dragging either way paints the same span |
| TfCanvas.InterpAtStart | src/transfunccanvas.cpp:107 | the first entry of the span gets exactly the left level |
| TfCanvas.InterpBetween | src/transfunccanvas.cpp:102-107 | every interpolated value lies between the two end levels; the width end-start+1 is at least 1, so there is no division by zero |
| TfCanvas.InterpAtEnd | src/transfunccanvas.cpp:102-107 | the last entry of the span gets vR + (vL - vR)/w, one step short of the right level |
| TfCanvas.FractionInUnit | src/transfunccanvas.cpp:107 | the ramp fraction (i - start)/w lies in [0, 1] |
| TfCanvas.LerpForm | src/transfunccanvas.cpp:107 | the source's weighting is the usual linear interpolation from vL towards vR |
| TfCanvas.LerpBetween | src/transfunccanvas.cpp:107 | a linear interpolation with a fraction in [0, 1] lies between its ends |
| TfCanvas.LerpEnd | src/transfunccanvas.cpp:107 | the interpolation at fraction (w-1)/w is vR + (vL - vR)/w |
| TfCanvas.InterpMonotone | src/transfunccanvas.cpp:103-107 | along a rising stroke the painted ramp never decreases |
| TfCanvas.StrokeEntries | src/transfunccanvas.cpp:103-123 | entries outside the span are unchanged; inside, the affected channels hold the rounded ramp value clamped to [0, 1] and between the clamped end levels, and the other channels keep their values |
| TfCanvas.StrokeIdempotent | src/transfunccanvas.cpp:103-123 | repeating the same stroke changes nothing more |
| TfCanvas.PaintedUpTo | src/transfunccanvas.cpp:103-124 | the table part-way through the loop keeps its size |
| TfCanvas.StrokeSignalsAlpha | src/transfunccanvas.cpp:123 | the stroke emits transFuncChangedAlpha exactly when some entry it covers inside the table changed its opacity |
| TfCanvas.SignalsStep | src/transfunccanvas.cpp:123 | one more `set` in the stroke appends its edit's signals to those of the entries before it |
| TfCanvas.TransFuncCanvas.constructor | src/transfunccanvas.cpp:9-15 | no channel is affected, there is no transfer function, and the previous pointer is at (0, 0) |
| TfCanvas.TransFuncCanvas.SetAffected | src/transfunccanvas.cpp:17-22 | the affected channels become exactly the four flags |
| TfCanvas.TransFuncCanvas.PaintTf | src/transfunccanvas.cpp:79-83 | stores the transfer function and the dataset |
| TfCanvas.TransFuncCanvas.ChangeTf | src/transfunccanvas.cpp:85-127 | the table becomes the stroke from the previous pointer to (x, y) over the affected channels, out-of-range indices skipped, with one set per entry inside the table and its signals in index order; the previous pointer becomes (x, y) |
| TfCanvas.TransFuncCanvas.PaintStep | src/transfunccanvas.cpp:103-124 | one loop iteration paints entry i if it is inside the table and skips it otherwise |
| TfCanvas.TransFuncCanvas.PaintEntry | src/transfunccanvas.cpp:107-123 | entry i gets the clamped ramp value on the affected channels through one set, with that set's signals |
| Cameras.ZoomedBy | src/camera.cpp:40-47 | the new zoom always lies in [MIN_ZOOM, MAX_ZOOM] = [0.8, 20]: the sum itself when inside, otherwise the bound it crossed |
| Cameras.ZoomByZero | src/camera.cpp:40-47 | a zero delta keeps a zoom that is already in range |
| Cameras.TranslateIgnoresZ | src/camera.cpp:23-26 | the z component of a translation delta has no effect |
| Cameras.RotateByIdentity | src/camera.cpp:59-62 | rotating by the identity quaternion keeps the rotation |
| Cameras.EyePosition | src/camera.cpp:96-98 | the eye is the rotated (0, 0, zoom) added to the point of view, so with zoom 0 it is the point of view itself |
| Cameras.EyeUnrotated | src/camera.cpp:96-98 | without rotation the eye sits `zoom` above the point of view on the z axis |
| Cameras.ShiftUp | src/camera.cpp:97 | adding (0, 0, zoom) to the point of view raises only its z coordinate |
| Cameras.OrthoShape | src/camera.cpp:133-137 | the orthographic box is centred and has the frame's aspect ratio; with aspect < 1 its width is 2*zoom, otherwise its height; near is divided by zoom and far multiplied |
| Cameras.PerspectiveIgnoresZoom | src/camera.cpp:128-130 | in perspective mode the projection does not depend on the zoom |
| Cameras.Camera.constructor | src/camera.cpp:5-12 | zoom 2 at the origin with no rotation, aspect 1, orthographic with near 0.01, far 10 and fov 45, both matrices dirty |
| Cameras.Camera.Translate | src/camera.cpp:23-35 | the point of view moves against the rotated, flattened delta, scaled by zoom/2 when zoom > 1; only pov and the view flag change |
| Cameras.Camera.ZoomDelta | src/camera.cpp:40-54 | the zoom is clamped as ZoomedBy says; the view is always marked dirty and the projection only in orthographic mode |
| Cameras.Camera.Rotate | src/camera.cpp:59-62 | only the rotation and the view flag change |
| Cameras.Camera.ResizeFrame | src/camera.cpp:67-70 | aspect = width/height and the projection is marked dirty |
| Cameras.Camera.SetProjection | src/camera.cpp:75-83 | stores the mode and the planes, keeps the old fov unless the new one is positive, and marks the projection dirty |
| Cameras.Camera.ResetPosition | src/camera.cpp:85-90 | zoom 2, pov at the origin, identity rotation, both flags dirty |
| Cameras.Camera.GetViewMatrix | src/camera.cpp:112-121 | returns the view of the current eye, point of view and up vector; recomputes only when dirty and then clears the flag |
| Cameras.Camera.GetProjectionMatrix | src/camera.cpp:123-143 | returns the projection of the current settings; recomputes only when dirty and then clears the flag |
| Cameras.ViewReadsAgree | src/camera.cpp:112-121 | two reads of the view matrix with no mutator in between give the same matrix |
| Scenes.LastSlash | src/scene.cpp:62 | the index of the last '/' in the path, or -1 when there is none |
| Scenes.SplitPath | src/scene.cpp:62 | a path is its directory part followed by its file name; the name holds no '/' and the directory part is empty or ends in '/' |
| Scenes.ResolutionUnique | src/scene.cpp:59-73 | the resolved dataset path is determined by the file system, the stored path and the project path |
| Scenes.ResolutionKeepsName | src/scene.cpp:62-71 | when the stored path is gone, the resolved path ends in the stored path's file name |
| Scenes.ResolveVolumePath | src/scene.cpp:55-73 | an existing stored path is used unchanged; otherwise its file name in the first of the five VolumeData directories that holds it, or else next to the project file |
| Scenes.ProjectTokens | src/scene.cpp:33-35 | a project file is the dataset path, the twelve settings, the table size and the colours |
| Scenes.ProjectFileRoundTrip | src/scene.cpp:33-35 | opening reads back, in the same order, the dataset path, the settings and the transfer function that saving wrote |
| Scenes.Scene.constructor | src/scene.cpp:10-15 | an empty dataset that is not ready and the default render settings |
| Scenes.Scene.SaveProject | src/scene.cpp:25-38 | nothing is written when the file cannot be created; otherwise the dataset path, then the render settings and the transfer function |
| Scenes.Scene.OpenProject | src/scene.cpp:40-88 | a missing or unopenable file changes nothing; otherwise the stored path is resolved, the dataset is reloaded exactly when the resolved path differs from its current path (and then holds what Volume.VolumeData.LoadFrom makes of that file: byteCount, header, swapped payload and 256-bucket histogram), and the settings and transfer function are read, with the render settings' signals as their LoadFrom states |

## Left out

- OpenGL: texture allocation and upload, FBOs, shader programs and uniforms. GL texture names are parameters; each pass, upload and clear is one entry in a ghost log. The GLSL shaders hold the light-transport maths and are not part of this model.
- UI: `TransFuncCanvas::paintEvent`, the mouse handlers, the main window, the view widget, the editor and the controller. `changeTf` is modelled with the previous pointer position as state.
- DataStream: the stream is a sequence of typed items, not Qt's raw bytes. An item of the wrong kind at the read position stands for a malformed file and reads as the past-the-end value; Qt itself would reinterpret the bytes.
- Trackball (src/trackball.cpp) and the QQuaternion/QMatrix4x4 library maths (`lookAt`, `perspective`, `ortho`, `rotatedVector`). A matrix is modelled by the arguments it is built from. Quaternion products are exact, and no normalisation is modelled.
- Floating point: every float is an exact `real`. Qt's 16-bit colour storage is modelled as 8-bit channels, with `setXF(v)` = round(v·255) after Qt's clamp to [0, 1].
- Volume.VolumeData.CreateHistogram: stores the raw bucket counts. The log normalisation that divides by `log(max)` and truncates (src/volumedata.cpp:256-260) is not modelled.
- TransFunc.TransferFunction.Smooth: the Gaussian weights `exp(-(i-j)²/(2σ²))` are a parameter `weight(i, j) > 0`. σ = sqrt(N)/3 is not modelled.
- TransFunc.TransferFunction.DefaultTf: the HSV hue of preset 2 (src/transferfunction.cpp:94) is a parameter `hsv`. Only its alpha rule is modelled.
- Shadow.ShadowRenderer.AdvanceSweep: `sin` is a parameter that is only known to lie in [0, 1] on [0, PI].
- Volume: `pow(256, byteCount)` overflows a 32-bit int at byteCount 4 (src/volumedata.cpp:69). The model uses unbounded integers, so it does not show that overflow.
- Volume.SamplesBE: the scan assembles each sample with `v = (v << 8) | d[i+b]` into a 32-bit `int` declared at src/volumedata.cpp:70 (the assignment is at line 76). At byteCount 4 a sample of 2^31 or more becomes negative there, which changes minV and maxV. The model's samples are unbounded and never negative. The histogram's assembly (src/volumedata.cpp:244) uses `uint v` (line 238) and does not overflow; it divides by the overflowed `domain` of line 69.
- Volume.VolumeData.CreateHistogram: counts with the corrected, clamped index `Volume.BucketIndex`, not the source's index. The source's index is kept as `Volume.BucketIndexAsWritten`, and the Findings table shows where the two differ.
- Volume.VolumeData.LoadFrom: reading the file (QFile, the header lines, `readAll`) is not modelled. The file is given as an already parsed `FileEntry`: missing, unopenable, or readable with its header and payload.
- Volume.VolumeData.LoadFrom: requires a well-formed readable file: positive resolutions, positive aspects, and a payload that is either empty or a whole number of samples of at least one byte. With a zero resolution the source divides by zero (src/volumedata.cpp:53); with a non-empty payload shorter than one sample per voxel, byteCount is 0 and the scan loops forever on `i += 0` (line 72); with a payload that is not a whole number of samples it reads past the end (line 76). An empty payload gives byteCount 0, the loops do not run, and the model accepts it. Positive aspects are required only because the model's real-valued `Volume.NormalizeScale` needs positive extents: the source accepts any aspect and computes float scale factors from it (lines 108-124), which are 0 on a zero axis, negative for a negative aspect, or NaN when every extent is 0.
- Volume.VolumeData.LoadFrom: the byte swap's `signed char` temporary is modelled as a plain byte exchange, which is what it does.
- Volume.VolumeData.CreateHistogram: requires buckets ≥ 1. The source would create an empty array and then write to it.
- TransFunc.TransferFunction.GetF: requires a non-empty table when the intensity is in [0, 1]. On an empty table the source reads index 0 out of bounds.
- TransFunc.TransferFunction.Sized: requires a non-negative size, because the source's array allocation fails on a negative size.
- TransFunc.TransferFunction.LoadFrom: requires a non-negative stored size, for the same reason. Scenes.Scene.OpenProject and RenderProps.VolumeRenderProps.LoadFrom require the same of the stored transfer-function size.
- Scenes.Scene.OpenProject: requires every readable dataset in the file system to be well-formed, as Volume.VolumeData.LoadFrom does.
- Scenes: QFileInfo::exists is modelled as a file system given as a function from paths to file entries. `Scene::loadVolume`, `Scene::update` and the getters are not modelled.
- Shadow.ShadowRenderer.UpdateShadowVolume: requires shadowDimin ≠ 0 for a ready dataset. The source would divide by zero. Renderer.VolumeRenderer.Render requires the same.
- Renderer.VolumeRenderer.Render: requires a valid transfer function whenever the dataset is ready, because the source dereferences it. The renderer's dataset is never null in the model.
- TfCanvas.TransFuncCanvas.ChangeTf: requires a transfer function, because the source dereferences it. The canvas's `volume` pointer, which the constructor leaves uninitialised, starts as null in the model.
- Cameras.Camera.ResizeFrame: requires a positive width and height. With height 0 the source stores a float infinity, which reals cannot represent.
- Renderer.VolumeRenderer.TimerTimeout: the QTimer is a boolean, and a timeout is a method that is called only while the timer runs. The delay SHADOW_UPDATE_DELAY = 400 is recorded but does not elapse.
- Renderer: the renderer's signal connections are not modelled as connections. The dataset's `dataChanged` → `datasetChanged` (src/volumerenderer.cpp:17) and the current function's `transFuncChanged` → `transFuncChanged`, with the previous function disconnected (src/volumerenderer.cpp:79-82), are represented by `DatasetChanged` and `TransFuncChanged` as methods a caller invokes; the model does not restrict `TransFuncChanged` to edits of the connected function.
- Concurrency: none. The source is single-threaded and frame-driven.

## Findings

| source | as written | input that shows it | evidently intended | confidence | as-written member | corrected member |
|---|---|---|---|---|---|---|
| src/volumedata.cpp:247-248 | the bucket index `(int)((v - minValue) / (maxValue - minValue) * buckets)` equals `buckets` for the maximum sample, so `histogram[buckets]++` writes one past the array | a 1-byte payload [0, 1] with 2 buckets: sample 1 gets index 2 | clamp the index to `buckets - 1`, so the maximum sample falls in the last bucket | not executed | Volume.PayloadMaxOverflows | Volume.BucketIndex |
| src/volumedata.cpp:93-94, 247 | a payload whose samples are all equal gives minValue == maxValue, so the bucket index divides 0 by 0 | a 1-byte payload [7] | put every sample in bucket 0 when the range is empty | not executed | Volume.ConstantPayloadHasEmptyRange | Volume.BucketIndex |
