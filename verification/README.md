# nokhwa, modelled in Dafny

This project models the logic of **nokhwa**, a Rust webcam library, and proves what that logic promises. The model stops where nokhwa hands off to an operating-system or foreign API.

What each part of the model covers:

- **Core crate (`nokhwa-core`).**
  - `CameraIndex`, and `Resolution` with its ordering and distance.
  - `CameraFormat`, `FrameFormat` and `SourceFrameFormat` with their category lists and platform conversions.
  - `Buffer` and the decoders' predicted frame size.
  - The integer YCbCr→RGB formula and YUYV size prediction.
  - NV12→RGB(A) conversion into a caller-supplied array, filled row by row.
  - The `ranges.rs` validators and `ArrayRange`; the `controls.rs` property ranges, descriptors and property maps; `min_max_range`.
  - The `FormatFilter` and `FormatRequest` builders.
- **Top-level crate, current generation.**
  - `CameraControl` with its bound and step checks and ordering.
  - `all_known_camera_controls`, and `yuyv422_to_rgb888` over a growing byte list.
  - The `pixel_format.rs` output transforms.
  - The error-enum translations of `src/error.rs`.
- **Windows Media Foundation bindings.**
  - The 64-bit frame-size and frame-rate packing.
  - The expansion of one media type into capture formats.
  - Descriptor ordering and the open/format state of a device.
- **Capture backends.**
  - V4L2: both `v4l2.rs` and `v4l2_backend.rs`, with their control-ID tables, format lists, `init` format choice, control assembly and stream state.
  - MSMF: format grouping, fourcc dedup, control flags and `set_*` delegation.
  - OpenCV: the BGR→RGB reorder, resizing, format rollback and API preference.
- **Front ends.**
  - `query` and `query_devices` backend dispatch.
  - `Camera`'s backend resolution and rebuilds.
  - The browser `JSCamera`'s constraint builder, with its capability strings, constraint string assembly, `set_constraints`/`detach` state and minimum buffer size.
  - The argument parsers of the `capture` example program.

The device answers are parameters of the model. These include V4L2 ioctl results, COM reads, OpenCV reads and JavaScript calls. Each operation's contract relates its result to those answers. A Rust panic (`unwrap`, division by zero, `step_by(0)`) becomes a `requires`. Fixed-width unsigned arithmetic that can overflow is bounded by a `requires` or written out explicitly. The pure parts are functions with lemmas. The parts the source writes as loops or in-place updates are methods and classes, proved against those functions.

`yuyv444_to_rgb888` in `src/utils.rs` uses the same integer formula as the core crate's `yuyv444_to_rgb`, so both are modelled by `YuvConvert.Yuyv444ToRgb`.

## Model

| member | source | states |
|---|---|---|
| CoreTypes.AsIndex | nokhwa-core/src/types.rs:31-38 | a numeric index is returned as is; a string index succeeds exactly when its text is a u32 in decimal, with that value, and otherwise fails with a `GeneralError` |
| CoreTypes.AsString | nokhwa-core/src/types.rs:42-47 | a string index is returned unchanged; a numeric index becomes non-empty decimal text denoting that number |
| CoreTypes.IsIndex | nokhwa-core/src/types.rs:51-56 | true exactly for the numeric variant |
| CoreTypes.IsString | nokhwa-core/src/types.rs:60-62 | true exactly for the string variant, being the negation of `is_index` |
| CoreTypes.AsIndexRoundTrip | nokhwa-core/src/types.rs:31-47 | printing a numeric index and reading the text back as a string index gives the same number |
| CoreTypes.ResolutionCmp | nokhwa-core/src/types.rs:161-169 | the order is lexicographic, width first and height breaking ties; equal exactly for equal resolutions |
| CoreTypes.ResolutionCmpOrder | nokhwa-core/src/types.rs:155-169 | the resolution order is antisymmetric and transitive |
| CoreTypes.DistanceFrom | nokhwa-core/src/types.rs:171-181 | the squared distance is zero exactly for the same resolution and reduces to the squared difference along one axis; the unsigned subtractions and the u32 sum must not underflow or overflow |
| CoreTypes.CameraFormatNewFrom | nokhwa-core/src/types.rs:298-307 | the resolution is assembled from its two components, the format and rate are kept |
| CoreTypes.CameraFormatSetters | nokhwa-core/src/types.rs:328-353 | each setter replaces its own component only, setters of different components commute, and a later call overrides an earlier one |
| YuvConvert.Yuyv444ToRgb | nokhwa-core/src/types.rs:803-811 | three bytes, each the floor of the BT.601 integer sum divided by 256 and clamped to 0..255 |
| YuvConvert.Yuyv444ToRgba | nokhwa-core/src/types.rs:820-823 | the RGB triple followed by an alpha byte of 255 |
| YuvConvert.Yuyv444Grey | nokhwa-core/src/types.rs:803-811 | with neutral chroma the three channels are equal |
| YuvConvert.Yuyv444BlackWhite | nokhwa-core/src/types.rs:803-811 | studio black (16,128,128) converts to (0,0,0) and studio white (235,128,128) to (255,255,255) |
| YuvConvert.Yuyv444GreyWithinOne | nokhwa-core/src/types.rs:803-811 | over the studio luma range with neutral chroma the grey level is within one step of 255(Y-16)/219, the value BT.601 quantisation inverts |
| YuvConvert.Yuyv444MonotoneInLuma | nokhwa-core/src/types.rs:803-811 | for fixed chroma every channel is monotone in luma |
| YuvConvert.Yuyv422PredictedSize | nokhwa-core/src/types.rs:742-746 | two pixels of three or four bytes per complete 4-byte group |
| YuvConvert.PredictedSizeIgnoresTail | nokhwa-core/src/types.rs:742-746 | bytes after the last complete 4-byte group do not change the predicted size |
| YuvConvert.PixelBytes | nokhwa-core/src/types.rs:886-912 | one converted pixel is three bytes, or four with an alpha of 255 |
| YuvConvert.Nv12Pixel | nokhwa-core/src/types.rs:883-891 | the pixel at (row, col) is converted from its own luma sample and the chroma pair of its 2x2 block |
| YuvConvert.Nv12FrameLength | nokhwa-core/src/types.rs:829-920 | the converted frame is px*w*h bytes, the output size the conversion demands |
| YuvConvert.Nv12FrameLayout | nokhwa-core/src/types.rs:829-920 | the converted frame holds channel ch of pixel (row, col) at byte (row*w+col)*px+ch, so every pixel lands at its row-major place |
| YuvConvert.Nv12PixelChannels | nokhwa-core/src/types.rs:883-912 | each pixel is the BT.601 conversion of luma `data[row*w+col]` and the chroma bytes at `w*h+(row/2)*w+2(col/2)` and after |
| YuvConvert.BufNv12ToRgb | nokhwa-core/src/types.rs:848-920 | fails, before writing anything, on odd dimensions, an input other than w*h*3/2 bytes or an output other than px*w*h bytes, in that order; otherwise the output holds the converted frame |
| YuvConvert.ConvertFrame | nokhwa-core/src/types.rs:880-918 | the row loop leaves the whole converted frame in the output |
| YuvConvert.ConvertRow | nokhwa-core/src/types.rs:881-917 | one row, converted two pixels at a time, follows the rows already written and nothing else changes |
| YuvConvert.ConvertPair | nokhwa-core/src/types.rs:882-916 | one pass of the inner loop stores the two converted pixels of the chunk from the base index on |
| YuvConvert.ReadPair | nokhwa-core/src/types.rs:889-897 | the samples read in one pass and converted are exactly the pixels (hidx, 2 cidx) and (hidx, 2 cidx + 1) of the frame |
| YuvConvert.PairPixels | nokhwa-core/src/types.rs:889-893 | the reads stay inside the buffer, and the two luma samples with the shared chroma pair they read convert to the frame's two pixels of the chunk |
| YuvConvert.WritePair | nokhwa-core/src/types.rs:893-915 | the explicit byte stores place the two pixels back to back from the base index and change nothing else |
| YuvConvert.LumaPair | nokhwa-core/src/types.rs:881-888 | the two luma samples the loop reads are those of pixels (hidx, 2 cidx) and (hidx, 2 cidx + 1) |
| YuvConvert.ChromaPair | nokhwa-core/src/types.rs:882-884 | both pixels of the chunk share the chroma pair the loop reads |
| YuvConvert.Nv12ToRgb | nokhwa-core/src/types.rs:829-839 | the output is allocated at px*w*h bytes, so only the resolution and input-size checks can fail; on success the result is the converted frame |
| CoreUtils.MinMaxRange | nokhwa-core/src/utils.rs:3-17 | for a positive step, or one whose first addition already passes `max` (the loop ends only then), the loop returns `min` followed by the progression min+step, min+2step, ... up to `max`, which is `[min]` when min+step > max |
| CoreUtils.ProgressionShape | nokhwa-core/src/utils.rs:7-15 | the pushed terms differ by exactly `step`, never exceed `max`, and the first term not pushed exceeds `max` |
| CoreUtils.ProgressionLength | nokhwa-core/src/utils.rs:7-15 | the loop pushes floor((max-start)/step)+1 terms, or none when the start is past `max` |
| CoreUtils.MinMaxRangeShape | nokhwa-core/src/utils.rs:3-17 | the result starts with `min`, is `[min]` when min > max, otherwise has floor((max-min)/step)+1 terms each `step` apart and within `max` |
| Buffers.BufferNew | nokhwa-core/src/buffer.rs:36-42 | the getters return the resolution and format given, and the bytes are an equal copy of the slice |
| Buffers.BufferBytesOwned | nokhwa-core/src/buffer.rs:58-60 | the owned bytes are exactly the stored bytes |
| Buffers.BufferEquality | nokhwa-core/src/buffer.rs:25-30 | two buffers are equal exactly when resolution, bytes and format are, and a buffer is rebuilt by `new` from its getters |
| Decoders.PredictedSizeOfFrame | nokhwa-core/src/decoders/mod.rs:28-34 | None exactly when the buffer's format is not accepted, otherwise width*height*subpixel size*channel count |
| Decoders.PredictedSizeIgnoresBytes | nokhwa-core/src/decoders/mod.rs:28-34 | the prediction depends on resolution and format only, and is zero for a zero width or height |
| FrameFormats.CategoriesPartition | nokhwa-core/src/frame_format.rs:65-115 | the COMPRESSED, CHROMA, LUMA and RGB lists are pairwise disjoint, concatenate to ALL, and cover every format except `Custom` |
| FrameFormats.PlatformNew | nokhwa-core/src/frame_format.rs:132-134 | the backend and code are stored as given |
| FrameFormats.AsTuple | nokhwa-core/src/frame_format.rs:144-159 | the tuple holds the backend and the code |
| FrameFormats.PlatformFromTuple | nokhwa-core/src/frame_format.rs:149-153 | converting a tuple is `new` on its two parts |
| FrameFormats.PlatformTupleRoundTrip | nokhwa-core/src/frame_format.rs:131-165 | platform format and tuple convert into each other and back unchanged, and the tuple equality agrees with the conversion |
| FrameFormats.SourceFromFrameFormat | nokhwa-core/src/frame_format.rs:189-193 | a frame format becomes the `FrameFormat` variant holding it |
| FrameFormats.SourceFromTuple | nokhwa-core/src/frame_format.rs:195-199 | a tuple becomes the `PlatformSpecific` variant whose tuple is that tuple |
| FrameFormats.SourceFromPlatform | nokhwa-core/src/frame_format.rs:201-205 | a platform format becomes the `PlatformSpecific` variant holding it |
| FrameFormats.SourceEqFrameFormat | nokhwa-core/src/frame_format.rs:207-215 | equal exactly to the conversion of that frame format; a platform-specific source never equals a frame format |
| FrameFormats.SourceEqTuple | nokhwa-core/src/frame_format.rs:217-224 | equal exactly to the conversion of that tuple; a generic source never equals a tuple |
| FrameFormats.SourceEqPlatform | nokhwa-core/src/frame_format.rs:226-234 | equal exactly to the conversion of that platform format; a generic source never equals one |
| FrameFormats.SourceEqualitiesAgree | nokhwa-core/src/frame_format.rs:189-234 | the three equalities agree with each other and with the conversions, and no source equals both a frame format and a platform code |
| Ranges.RangeNew | nokhwa-core/src/ranges.rs:39-47 | the bounds and preferred value are stored as given and both bounds are inclusive |
| Ranges.RangeWithInclusive | nokhwa-core/src/ranges.rs:49-63 | every field comes from its argument |
| Ranges.RangeExact | nokhwa-core/src/ranges.rs:65-73 | no minimum and no maximum, both flags inclusive; also the shape of `Default` |
| Ranges.RangeSetters | nokhwa-core/src/ranges.rs:75-104 | each `set_*` changes its own field only, its getter reads the new value back, and setting a field to its current value changes nothing |
| Ranges.NumRangeValidate | nokhwa-core/src/ranges.rs:388-416 | the default is accepted first; otherwise, as written, a value on the accepting side of a present bound is rejected; with no bounds every value passes |
| Ranges.NumRangeRejectsInRange | nokhwa-core/src/ranges.rs:393-415 | with both bounds and min < max only the default passes, so an in-range value such as 3 in [0, 10] with default 5 is rejected |
| Ranges.NumRangeIntendedAcceptsInRange | nokhwa-core/src/ranges.rs:388-416 | the corrected check accepts every value of a closed range, rejects every other value except the default, and differs from the written one inside the range |
| Ranges.RangeValidate | nokhwa-core/src/ranges.rs:107-113 | `Range` validation is the numeric check with the preferred value as the default, so the preferred value always passes |
| Ranges.ExactRangeAcceptsAll | nokhwa-core/src/ranges.rs:65-73 | a range without bounds accepts every value |
| Ranges.IndicatedValidate | nokhwa-core/src/ranges.rs:184-201 | with a step, a value whose offset from the minimum is not a multiple fails; otherwise the numeric check decides |
| Ranges.IndicatedAcceptsOnlyDefault | nokhwa-core/src/ranges.rs:184-201 | as written, an indicated range with minimum below maximum accepts exactly its default, and only when the default is step-aligned |
| Ranges.OptionsNew | nokhwa-core/src/ranges.rs:226-231 | the values are stored and the default is present |
| Ranges.OptionsValidate | nokhwa-core/src/ranges.rs:242-251 | succeeds exactly when the value is one of the available values |
| Ranges.ByKey | nokhwa-core/src/ranges.rs:281-283 | present exactly for a stored key, with its stored value |
| Ranges.ArrayRangeNew | nokhwa-core/src/ranges.rs:300-311 | fails with a `StructureError` exactly when some default is not appendable; on success both lists are stored unchanged |
| Ranges.ArrayRangeValidate | nokhwa-core/src/ranges.rs:322-331 | succeeds exactly when the value is one of the appendable options |
| Ranges.SimpleValidate | nokhwa-core/src/ranges.rs:356-362 | always succeeds |
| Controls.IdText | nokhwa-core/src/controls.rs:20-43 | every property id has non-empty text, used as the property name of `set_property`'s error |
| Controls.IsSameType | nokhwa-core/src/controls.rs:344-362 | true exactly when both values are of the same variant, whatever their payloads |
| Controls.ValueEq | nokhwa-core/src/controls.rs:365-442 | false across variants and payload equality within one, so exactly structural equality (without NaN) |
| Controls.ValuesEq | nokhwa-core/src/controls.rs:365-442 | two value lists are equal exactly when they have the same length and equal elements |
| Controls.RealCompare | nokhwa-core/src/controls.rs:445-615 | the float comparison used inside the number groups is the order of the reals |
| Controls.StringCmp | nokhwa-core/src/controls.rs:445-615 | strings compare Equal exactly when they are equal |
| Controls.BytesCmp | nokhwa-core/src/controls.rs:445-615 | byte strings compare Equal exactly when they are equal |
| Controls.PartialCmp | nokhwa-core/src/controls.rs:445-615 | two Integers compare numerically; an Integer against a LongInteger compares numerically and is None when the long is outside i64; a LongInteger against either integer compares numerically; Null against Null is Greater; the result is None exactly for a KeyValue on the left or such an out-of-range long (Array pairs aside) |
| Controls.PartialCmpOrder | nokhwa-core/src/controls.rs:445-615 | groups rank Null < Boolean < Integer/LongInteger < Float/Double < String < Array < EnumValue < Binary, a value of a lower group being Less than one of a higher group and Greater the other way round; inside a group false < true, floats by value, strings and bytes lexicographically, any two enum values Equal; a Pair, Triple or Quadruple is Equal to anything |
| Controls.PartialCmpQuirks | nokhwa-core/src/controls.rs:445-615 | as written the order is not a partial order (Null is Greater than itself, a Pair and Null disagree), but among integers one side is Less exactly when the other is Greater |
| Controls.CheckValue | nokhwa-core/src/controls.rs:233-318 | as written only a Null range with a Null value, and a key-value range whose map holds the key with a default of the same variant, succeed; every other path ends in an error |
| Controls.CheckValueRejectsValidated | nokhwa-core/src/controls.rs:233-318 | a Boolean range rejects every Boolean although its validator accepts it, and an integer range rejects its own default |
| Controls.CameraPropertyDescriptor.constructor | nokhwa-core/src/controls.rs:115-121 | the flag slice becomes a set; range and value are stored |
| Controls.CameraPropertyDescriptor.IsReadOnly | nokhwa-core/src/controls.rs:123-132 | fails, with the read-only error, exactly when the ReadOnly flag is present |
| Controls.CameraPropertyDescriptor.IsWriteOnly | nokhwa-core/src/controls.rs:134-142 | fails, with the write-only error, exactly when the WriteOnly flag is present |
| Controls.CameraPropertyDescriptor.IsDisabled | nokhwa-core/src/controls.rs:144-149 | fails exactly when the Disabled flag is present |
| Controls.CameraPropertyDescriptor.Flags | nokhwa-core/src/controls.rs:151-154 | the flag set, which then lacks Disabled; an error exactly when the property is disabled |
| Controls.CameraPropertyDescriptor.SetValue | nokhwa-core/src/controls.rs:164-172 | succeeds exactly when the range check passes, then holds the new value; on failure returns `SetPropertyError` and keeps the old value; flags and range never change |
| Controls.CameraProperties.Property | nokhwa-core/src/controls.rs:85-87 | the descriptor stored for the id, present exactly when the id is |
| Controls.CameraProperties.SetProperty | nokhwa-core/src/controls.rs:89-103 | an absent id gives the "Is null." error; otherwise the result is the descriptor's `set_value`, and no other descriptor changes |
| PixelFormats.GreyToRgb | src/pixel_format.rs:47-53 | each grey byte x becomes x, x, x in input order, so the output is three times as long |
| PixelFormats.GreyToRgba | src/pixel_format.rs:80-86 | each grey byte x becomes x, x, x, 255, so the output is four times as long |
| PixelFormats.GreyToLumaA | src/pixel_format.rs:148 | each grey byte x becomes x, 255 |
| PixelFormats.Average | src/pixel_format.rs:104-112 | the floor of the mean of the three channels |
| PixelFormats.RgbToLuma | src/pixel_format.rs:99-116 | one averaged byte per complete RGB triple, in order, a third of the input length |
| PixelFormats.RgbToLumaA | src/pixel_format.rs:130-147 | each triple becomes its average followed by 255 |
| PixelFormats.MapOk | src/pixel_format.rs:45-46 | the transform applies to a decoded frame, and a decoder error is passed through unchanged |
| PixelFormats.WriteOutput | src/pixel_format.rs:40-151 | GRAY8 frames always convert; MJPEG and YUYV frames convert exactly when the decoder succeeds, asked for RGBA only by the RGBA format, and report its error otherwise |
| PixelFormats.WriteOutputContents | src/pixel_format.rs:40-151 | RGB and RGBA pass the decoded bytes through, luma averages the decoded triples, luma-alpha adds an opaque alpha; GRAY8 gives 3n, 4n, n (a copy) and 2n bytes |
| PixelFormats.GreyRgbLumaRoundTrip | src/pixel_format.rs:47-116 | a grey frame expanded to RGB and averaged back to luma is unchanged |
| FormatFilters.FormatFilter.constructor | nokhwa-core/src/format_filter.rs:33-39 | the preference is stored and nothing is allowed yet |
| FormatFilters.FormatFilter.Default | nokhwa-core/src/format_filter.rs:108-120 | Closest to 640x480 YUYV at 30 fps, allowing YUYV only, with no platform codes |
| FormatFilters.FormatFilter.AddAllowedFrameFormat | nokhwa-core/src/format_filter.rs:41-43 | the primary set gains the format (idempotent) and nothing else changes |
| FormatFilters.FormatFilter.AddAllowedFrameFormatMany | nokhwa-core/src/format_filter.rs:45-47 | the primary set gains every listed format and nothing else changes |
| FormatFilters.FormatFilter.AddAllowedPlatformSpecific | nokhwa-core/src/format_filter.rs:49-56 | the backend's set, created empty when absent, gains the code; other backends and fields are untouched |
| FormatFilters.FormatFilter.AddAllowedPlatformSpecificMany | nokhwa-core/src/format_filter.rs:58-70 | afterwards a backend has an entry iff it had one or occurs in the pairs, and its set is the old one plus every code listed for it |
| FormatFilters.FormatFilter.WithAllowedFrameFormat | nokhwa-core/src/format_filter.rs:72-75 | the same effect as `add_allowed_frame_format`, returning the filter itself |
| FormatFilters.FormatFilter.WithAllowedFrameFormatMany | nokhwa-core/src/format_filter.rs:77-83 | the same effect as `add_allowed_frame_format_many`, returning the filter itself |
| FormatFilters.FormatFilter.WithAllowedPlatformSpecific | nokhwa-core/src/format_filter.rs:85-97 | the same effect as `add_allowed_platform_specific`, returning the filter itself |
| FormatFilters.FormatFilter.WithAllowedPlatformSpecificMany | nokhwa-core/src/format_filter.rs:99-105 | the same effect as `add_allowed_platform_specific_many`, returning the filter itself |
| FormatFilters.IntoPsmContents | nokhwa-core/src/format_filter.rs:143-163 | flattening a backend-to-codes map yields exactly the (backend, code) pairs of its lists |
| FormatRequests.Position | nokhwa-core/src/format_request.rs:175-183 | the first index holding the format, absent exactly when the format is not listed |
| FormatRequests.SetMaximumIn | nokhwa-core/src/format_request.rs:39-52 | the range then has the given maximum; a present range changes only that bound, an absent one is created with just that bound and the default preferred value |
| FormatRequests.SetMinimumIn | nokhwa-core/src/format_request.rs:109-122 | the range then has the given minimum; a present range changes only that bound, an absent one is created with just that bound and the default preferred value |
| FormatRequests.SetPreferredIn | nokhwa-core/src/format_request.rs:70-83 | the range then has the given preferred value; an absent range is created without bounds |
| FormatRequests.WithPreferredIn | nokhwa-core/src/format_request.rs:54-68 | a present range takes the preferred value; as written an absent range is created unbounded with the default preferred value, dropping the argument |
| FormatRequests.ResetMaximumIn | nokhwa-core/src/format_request.rs:30-36 | a present range loses its maximum, an absent one stays absent |
| FormatRequests.ResetMinimumIn | nokhwa-core/src/format_request.rs:101-107 | a present range loses its minimum, an absent one stays absent |
| FormatRequests.BoundSettersKeepOtherFields | nokhwa-core/src/format_request.rs:10-135 | on a present range each bound setter keeps every other field, and a bound set then reset leaves the range without it |
| FormatRequests.FormatRequest.constructor | nokhwa-core/src/format_request.rs:153-155 | every field is absent |
| FormatRequests.FormatRequest.PushFrameFormat | nokhwa-core/src/format_request.rs:166-173 | the format is appended at the end, or starts a one-element list; other fields are untouched |
| FormatRequests.FormatRequest.RemoveFrameFormat | nokhwa-core/src/format_request.rs:175-183 | the first equal element is removed if there is one; an absent list stays absent; other fields are untouched |
| FormatRequests.FormatRequest.AppendFrameFormats | nokhwa-core/src/format_request.rs:185-192 | with a list present the argument's elements move to its end and the argument is drained; with none a copy is stored |
| FormatRequests.FormatRequest.WithStandardFrameFormats | nokhwa-core/src/format_request.rs:157-164 | MJPEG, RGB8, YUYV and NV12 are appended in that order |
| FormatRequests.FormatRequest.ResetFrameFormats | nokhwa-core/src/format_request.rs:194-197 | the list becomes absent and nothing else changes |
| FormatRequests.FormatRequest.WithRequestType | nokhwa-core/src/format_request.rs:199-202 | the request type is set and nothing else changes |
| FormatRequests.FormatRequest.ResetRequestType | nokhwa-core/src/format_request.rs:204-207 | the request type is cleared and nothing else changes |
| FormatRequests.FormatRequest.SetMaximumResolution | nokhwa-core/src/format_request.rs:39-52 | the resolution range takes the maximum as `SetMaximumIn` describes; the other fields are untouched |
| FormatRequests.FormatRequest.SetMinimumResolution | nokhwa-core/src/format_request.rs:109-122 | the resolution range takes the minimum as `SetMinimumIn` describes; the other fields are untouched |
| FormatRequests.FormatRequest.SetPreferredResolution | nokhwa-core/src/format_request.rs:70-83 | the resolution range takes the preferred value; the other fields are untouched |
| FormatRequests.FormatRequest.WithPreferredResolution | nokhwa-core/src/format_request.rs:54-68 | as `WithPreferredIn` on the resolution range; the other fields are untouched |
| FormatRequests.FormatRequest.ResetMaximumResolution | nokhwa-core/src/format_request.rs:30-36 | the resolution range loses its maximum; the other fields are untouched |
| FormatRequests.FormatRequest.ResetMinimumResolution | nokhwa-core/src/format_request.rs:101-107 | the resolution range loses its minimum; the other fields are untouched |
| FormatRequests.FormatRequest.SetResolutionRange | nokhwa-core/src/format_request.rs:124-133 | the resolution range is replaced; the other fields are untouched |
| FormatRequests.FormatRequest.SetMaximumFrameRate | nokhwa-core/src/format_request.rs:39-52 | the frame-rate range takes the maximum as `SetMaximumIn` describes; the other fields are untouched |
| FormatRequests.FormatRequest.SetMinimumFrameRate | nokhwa-core/src/format_request.rs:109-122 | the frame-rate range takes the minimum as `SetMinimumIn` describes; the other fields are untouched |
| FormatRequests.FormatRequest.SetPreferredFrameRate | nokhwa-core/src/format_request.rs:70-83 | the frame-rate range takes the preferred value; the other fields are untouched |
| FormatRequests.FormatRequest.WithPreferredFrameRate | nokhwa-core/src/format_request.rs:54-68 | as `WithPreferredIn` on the frame-rate range; the other fields are untouched |
| FormatRequests.FormatRequest.ResetMaximumFrameRate | nokhwa-core/src/format_request.rs:30-36 | the frame-rate range loses its maximum; the other fields are untouched |
| FormatRequests.FormatRequest.ResetMinimumFrameRate | nokhwa-core/src/format_request.rs:101-107 | the frame-rate range loses its minimum; the other fields are untouched |
| FormatRequests.FormatRequest.SetFrameRateRange | nokhwa-core/src/format_request.rs:124-133 | the frame-rate range is replaced; the other fields are untouched |
| FormatRequests.StandardRequest | nokhwa-core/src/format_request.rs:153-164 | a new request with the standard formats lists exactly MJPEG, RGB8, YUYV, NV12 and nothing else |
| LegacyTypes.CameraInfoCmp | src/utils.rs:580-584 | descriptions are ordered by index alone, so two descriptions of one index are Equal whatever their texts |
| LegacyTypes.ControlOrdinal | src/utils.rs:638-680 | every control has a position in the declaration-order list, and the list holds it there |
| LegacyTypes.AllKnownCameraControls | src/utils.rs:660-680 | the list has 17 entries, contains every control and no control twice |
| LegacyTypes.ControlName | src/utils.rs:682-686 | every control prints as a non-empty name |
| LegacyTypes.CameraControlCmp | src/utils.rs:978-988 | controls are ordered by the control alone, in declaration order, and are Equal exactly for the same control |
| LegacyTypes.ValueCheck | src/utils.rs:800-818 | accepts exactly the step-aligned values strictly between the bounds; checks "Value too large", then "Value too low", then "Not aligned with step", in that order |
| LegacyTypes.CameraControlNew | src/utils.rs:790-831 | succeeds exactly when the value check passes, then stores every argument; otherwise reports the check's error |
| LegacyTypes.WithValue | src/utils.rs:885-915 | the same checks and errors; on success a copy with the new value, marked active, every other field copied |
| LegacyTypes.SetValue | src/utils.rs:858-880 | fails exactly when `with_value` does, with the same error and the control unchanged; on success only the value changes |
| LegacyTypes.UsizeStep | src/utils.rs:953-958 | the step as a usize is positive: a positive step is kept, a negative one wraps to a value larger than any i32 distance |
| LegacyTypes.ValidValuesShape | src/utils.rs:953-958 | nothing when min > max; otherwise min first, each value one step above the previous and within max, floor((max-min)/step)+1 values for a positive step, min alone for a negative one |
| LegacyConvert.GroupPixels | src/utils.rs:1106-1187 | a 4-byte group (Y1,U,Y2,V) becomes the pixel (Y1,U,V) followed by the pixel (Y2,U,V), each the integer BT.601 conversion of src/utils.rs:1208-1216 |
| LegacyConvert.GroupsWithLayout | src/utils.rs:1106-1187 | whatever the per-sample conversion, as long as it gives three bytes, group k's two pixels occupy bytes 6k..6k+6 of the output, after the groups before it |
| LegacyConvert.GroupsLayout | src/utils.rs:1106-1187 | n groups give 6n bytes and bytes 6k..6k+6 are group k's two pixels, in input order |
| LegacyConvert.Yuyv422ToRgb888 | src/utils.rs:1101-1197 | fails with the 4:2:2 assertion error exactly when the length is not a multiple of four; otherwise returns every group's pixels in order |
| LegacyConvert.ConvertGroups | src/utils.rs:1106-1187 | the group loop, for any three-byte conversion, returns every group's two pixels one after another, in input order |
| LegacyConvert.Yuyv422ToRgb888Layout | src/utils.rs:1101-1197 | an accepted input yields 6 bytes per group, bytes 6k..6k+3 converting (Y1,U,V) and 6k+3..6k+6 converting (Y2,U,V) of group k |
| MfBindings.DescriptorNew | nokhwa-bindings-windows/src/lib.rs:140-164 | succeeds exactly when neither the name nor the link is null, storing index, name and link; a null name is reported before a null link |
| MfBindings.DescriptorCmp | nokhwa-bindings-windows/src/lib.rs:187-197 | descriptors are ordered by index alone |
| MfBindings.DecodeFrameSize | nokhwa-bindings-windows/src/lib.rs:642-646 | the width is the high 32 bits and the height the low 32 bits of the attribute |
| MfBindings.PackFrameSize | nokhwa-bindings-windows/src/lib.rs:1508-1509 | `(width << 32) + height`: the quotient by 2^32 is the width and the remainder the height |
| MfBindings.FrameSizeRoundTrip | nokhwa-bindings-windows/src/lib.rs:642-646 | decoding a packed size gives it back, and every 64-bit value is a packed size |
| MfBindings.PackFrameRate | nokhwa-bindings-windows/src/lib.rs:1510 | `(rate << 32) + 1`: numerator `rate`, denominator 1 |
| MfBindings.DecodeFrameRateAsWritten | nokhwa-bindings-windows/src/lib.rs:657-708 | as written a rate is returned only when the denominator is 0; any nonzero denominator gives 0 |
| MfBindings.FrameRateAsWrittenLosesRate | nokhwa-bindings-windows/src/lib.rs:657-708 | every rate `set_format` packs decodes to 0 as written, so 30 fps is read back as 0 |
| MfBindings.DecodeFrameRate | nokhwa-bindings-windows/src/lib.rs:657-708 | corrected (Finding 2), used only to state the intended round trip: 0 for a zero denominator, the numerator over a denominator of 1 |
| MfBindings.FrameRateRoundTrip | nokhwa-bindings-windows/src/lib.rs:1510 | with the corrected decode a packed frame rate decodes to itself |
| MfBindings.ReadMediaType | nokhwa-bindings-windows/src/lib.rs:632-708 | succeeds exactly when every attribute read does; the first failing read names its attribute, in the order subtype, size, maximum, rate, minimum; the size is decoded and the three rates are decoded as written, so a nonzero denominator gives 0 |
| MfBindings.ExpandPackedRatesEmpty | nokhwa-bindings-windows/src/lib.rs:657-779 | as written, a media type whose three rates have a nonzero denominator contributes no format |
| MfBindings.FormatListPackedRatesEmpty | nokhwa-bindings-windows/src/lib.rs:611-782 | as written, an enumeration whose media types all carry rates over a nonzero denominator (as `set_format` packs them) ends with an empty list |
| MfBindings.SubtypeFormat | nokhwa-bindings-windows/src/lib.rs:710-779 | MJPEG subtypes give the MJPEG format and YUY2 the YUYV format |
| MfBindings.ExpandContents | nokhwa-bindings-windows/src/lib.rs:710-779 | another subtype adds nothing; otherwise at most three formats, all with the media type's resolution and format, whose rates are exactly the nonzero minimum, rate and maximum, the minimum first |
| MfBindings.ExpandMayRepeat | nokhwa-bindings-windows/src/lib.rs:710-779 | the duplicate checks compare neighbours only, so minimum and maximum around a zero rate are both listed |
| MfBindings.FormatListContents | nokhwa-bindings-windows/src/lib.rs:611-782 | the list fails exactly when a media type's read fails or the enumeration ends with a code other than 14009; otherwise at most three formats per media type, each from some media type's expansion with its rates decoded as written |
| MfBindings.Prepend | nokhwa-bindings-windows/src/lib.rs:611-782 | the list so far is kept in front of the rest, and an error of the rest is passed through |
| MfBindings.FormatListStep | nokhwa-bindings-windows/src/lib.rs:615-781 | one pass of the enumeration loop: a failing media type aborts with its error, a good one appends its formats and moves to the next index |
| MfBindings.FormatListEnd | nokhwa-bindings-windows/src/lib.rs:616-629 | the enumeration ends normally on code 14009 and aborts with `GUIDReadError` on any other code |
| MfBindings.IsManual | nokhwa-bindings-windows/src/lib.rs:1261-1264 | a control is manual exactly when the flag read is `CAM_CTRL_MANUAL` |
| MfBindings.ControlFlag | nokhwa-bindings-windows/src/lib.rs:1293-1296 | a manual control is sent with `CAM_CTRL_MANUAL`, any other with `CAM_CTRL_AUTO` |
| MfBindings.ControlFlagName | nokhwa-bindings-windows/src/lib.rs:1297-1300 | the flag's name in the error text names the flag actually sent |
| MfBindings.ControlFlagRoundTrip | nokhwa-bindings-windows/src/lib.rs:1261-1300 | writing the manual flag and reading it back gives it back; only the two flags the bindings send read back unchanged |
| MfBindings.ControlPropertyDistinct | nokhwa-bindings-windows/src/lib.rs:784-1260 | each control is read from and written to its own device property |
| MfBindings.ReadControl | nokhwa-bindings-windows/src/lib.rs:784-1269 | succeeds exactly when both interfaces, the range and the value are read, reporting the first failure by name; the result carries the range, the value, manual iff the value's flag is manual, and is active |
| MfBindings.WriteControl | nokhwa-bindings-windows/src/lib.rs:1271-1493 | succeeds exactly when both interfaces are obtained and the device accepts the value with the flag for its manual setting; a refusal names the property, the value and the flag |
| MfBindings.WriteThenReadControl | nokhwa-bindings-windows/src/lib.rs:784-1493 | a control written to a device that stores what it is sent reads back with its value and manual setting, and active |
| MfBindings.SetStepError | nokhwa-bindings-windows/src/lib.rs:1499-1574 | each failed step of `set_format` gives its own error; the frame size and frame rate appear as their packed decimal values |
| MfBindings.SetFormatFrom | nokhwa-bindings-windows/src/lib.rs:1499-1577 | the steps succeed exactly when no remaining device call fails, and otherwise report the first failure |
| MfBindings.MediaFoundationDevice.constructor | nokhwa-bindings-windows/src/lib.rs:590-596 | a new device has its stream closed and the default format |
| MfBindings.MediaFoundationDevice.IsStreamOpen | nokhwa-bindings-windows/src/lib.rs:1580-1582 | reports the open flag |
| MfBindings.MediaFoundationDevice.Format | nokhwa-bindings-windows/src/lib.rs:1495-1497 | reports the format last set |
| MfBindings.MediaFoundationDevice.SetFormat | nokhwa-bindings-windows/src/lib.rs:1499-1578 | the device calls are made in order and the first failure is returned; only when all succeed is the format replaced; the open flag is untouched |
| MfBindings.MediaFoundationDevice.StartStream | nokhwa-bindings-windows/src/lib.rs:1584-1588 | the stream becomes open, without error, and the format is unchanged |
| MfBindings.MediaFoundationDevice.StopStream | nokhwa-bindings-windows/src/lib.rs:1646-1648 | the stream becomes closed and the format is unchanged |
| MfBindings.MediaFoundationDevice.CompatibleFormatList | nokhwa-bindings-windows/src/lib.rs:611-782 | the loop over native media types returns the enumeration's list: the first failing read's error, or every media type's formats in order, with the rates decoded as written |
| MsmfBackend.FromMFFormat | src/utils.rs:411-420 | a bindings format becomes the crate format with the same resolution, frame rate and namesake frame format |
| MsmfBackend.ToMFFormat | src/utils.rs:425-430 | a crate format becomes the bindings format with the same resolution, frame rate and namesake frame format |
| MsmfBackend.FormatConversionRoundTrip | src/utils.rs:106-125 | the two format conversions are inverse to each other in both directions |
| MsmfBackend.ControlConversionRoundTrip | src/utils.rs:692-714 | the backend's control match and `From<MediaFoundationControls>` are inverse, so each control maps to a distinct bindings control |
| MsmfBackend.FlagOf | src/backends/capture/msmf_backend.rs:254-258 | a control read as manual has the Manual flag, any other Automatic |
| MsmfBackend.ManualOf | src/backends/capture/msmf_backend.rs:296-299 | only the Manual flag is written as manual |
| MsmfBackend.FlagMappingRoundTrip | src/backends/capture/msmf_backend.rs:254-299 | the flag survives a write and a read, and the manual setting survives a read and a write |
| MsmfBackend.FromMFFormats | src/backends/capture/msmf_backend.rs:123-124 | the list of crate formats is the list of bindings formats converted one by one |
| MsmfBackend.RatesForContents | src/backends/capture/msmf_backend.rs:115-145 | a resolution has frame rates exactly when some format has the fourcc and that resolution, and every rate listed is the rate of such a format |
| MsmfBackend.DistinctFormatsContents | src/backends/capture/msmf_backend.rs:147-164 | the distinct formats have no duplicate, at most two entries, exactly the formats that occur, the first format's first |
| MsmfBackend.TwoFormatsCoverAll | src/backends/capture/msmf_backend.rs:158-161 | two distinct frame formats are all the frame formats there are, so stopping at two loses nothing |
| MsmfBackend.DistinctFormatsSaturated | src/backends/capture/msmf_backend.rs:158-161 | once two formats are found, no later format changes the list |
| MsmfBackend.SupportedControlsSubsequence | src/backends/capture/msmf_backend.rs:196-226 | the supported controls are those of the known list whose read succeeds, in the list's order |
| MsmfBackend.Subsequence | src/backends/capture/msmf_backend.rs:196-226 | a control is listed exactly when it is a known control whose read succeeds; the list is no longer than the known list |
| MsmfBackend.MediaFoundationCaptureDevice.constructor | src/backends/capture/msmf_backend.rs:39-42 | a capture device holds its bindings device and its description |
| MsmfBackend.MediaFoundationCaptureDevice.Backend | src/backends/capture/msmf_backend.rs:96-98 | the backend is Media Foundation |
| MsmfBackend.MediaFoundationCaptureDevice.Format | src/backends/capture/msmf_backend.rs:104-106 | the format is the bindings device's format, converted |
| MsmfBackend.MediaFoundationCaptureDevice.IsStreamOpen | src/backends/capture/msmf_backend.rs:348-350 | reports the bindings device's open flag |
| MsmfBackend.MediaFoundationCaptureDevice.SetCameraFormat | src/backends/capture/msmf_backend.rs:108-113 | the converted format is set through the bindings; on success it is the format, on failure the format is unchanged and the error converted; the stream flag is untouched |
| MsmfBackend.MediaFoundationCaptureDevice.SetResolution | src/backends/capture/msmf_backend.rs:170-174 | the result is Ok exactly when the bindings' format set (`SetFormatFrom`) of the current format with only the resolution changed is, and its error is that one converted; on success only the resolution of the format changes; on failure nothing changes |
| MsmfBackend.MediaFoundationCaptureDevice.SetFrameRate | src/backends/capture/msmf_backend.rs:180-184 | the result is Ok exactly when the bindings' format set (`SetFormatFrom`) of the current format with only the frame rate changed is, and its error is that one converted; on success only the frame rate of the format changes; on failure nothing changes |
| MsmfBackend.MediaFoundationCaptureDevice.SetFrameFormat | src/backends/capture/msmf_backend.rs:190-194 | the result is Ok exactly when the bindings' format set (`SetFormatFrom`) of the current format with only the frame format changed is, and its error is that one converted; on success only the frame format changes; on failure nothing changes |
| MsmfBackend.MediaFoundationCaptureDevice.CompatibleListByResolution | src/backends/capture/msmf_backend.rs:115-145 | a failing format list is passed through converted; otherwise the keys are exactly the resolutions of formats with the fourcc, each mapped to their frame rates in list order, the rates being those the bindings decode as written |
| MsmfBackend.MediaFoundationCaptureDevice.CompatibleFourcc | src/backends/capture/msmf_backend.rs:147-164 | a failing format list is passed through converted; otherwise the distinct frame formats of the list (built from the rates the bindings decode as written) in order of first appearance |
| MsmfBackend.MediaFoundationCaptureDevice.ScanDistinctFormats | src/backends/capture/msmf_backend.rs:149-163 | the scan returns the distinct formats of the list in order of first appearance, even though it stops at two |
| MsmfBackend.MediaFoundationCaptureDevice.SupportedCameraControls | src/backends/capture/msmf_backend.rs:196-226 | the known controls whose read succeeds, in declaration order; never an error |
| MsmfBackend.MediaFoundationCaptureDevice.CameraControlOf | src/backends/capture/msmf_backend.rs:228-273 | a failed read is passed through converted; otherwise the control with the read range, value, default and step, the flag for the manual setting, active |
| MsmfBackend.MediaFoundationCaptureDevice.SetCameraControl | src/backends/capture/msmf_backend.rs:275-316 | the control is written through the bindings with its own range, value and step and manual iff its flag is Manual; a refusal is converted |
| MsmfBackend.MediaFoundationCaptureDevice.OpenStream | src/backends/capture/msmf_backend.rs:340-346 | the stream is open, the result Ok, the format unchanged |
| MsmfBackend.MediaFoundationCaptureDevice.StopStream | src/backends/capture/msmf_backend.rs:382-385 | the stream is closed, the result Ok, the format unchanged |
| MsmfBackend.MediaFoundationCaptureDevice.FrameRaw | src/backends/capture/msmf_backend.rs:375-380 | the raw bytes are passed through and a binding error converted |
| MsmfBackend.MediaFoundationCaptureDevice.Frame | src/backends/capture/msmf_backend.rs:352-373 | a failed read is its error converted and a failed decode is the decoder's error; decoded data of at least width × height × 3 bytes gives exactly the image of the format's size over it, and shorter data the `ReadFrameError` the source names |
| Errors.FromBindingError | src/error.rs:78-114 | each Media Foundation error becomes its own crate error kind, keeping the property, value, device index and cause; enumeration failures read as a failed get of "Devices", a missing implementation as "Docs-Only MediaFoundation" |
| Errors.FromBindingErrorKeepsCause | src/error.rs:78-114 | every binding error except the bare `NotImplementedError` keeps its cause text, and none becomes an unsupported-operation or uninitialized error |
| Errors.FromBindingErrorInjective | src/error.rs:78-114 | distinct binding errors stay distinct, except that an enumeration failure and a failed read of "Devices" with the same cause coincide |
| Errors.FromAVFError | src/error.rs:140-178 | each AVFoundation error becomes its own crate error kind: invalid types and values as failed gets, busy and general as general errors, rejected input, output and stream as stream-open errors, unsupported operations for AVFoundation |
| Errors.FromAVFErrorKeepsCause | src/error.rs:140-178 | the cause text of an AVFoundation error survives the conversion, and rejected input and rejected output stay distinguishable |
| V4l2Capture.ControlToId | src/backends/capture/v4l2.rs:112-131 | the control-to-ID table: ColorEnable and Roll have no ID, every other control has one, Tilt the tilt ID in use |
| V4l2Capture.IdToControl | src/backends/capture/v4l2.rs:135-154 | the ID-to-control table: the tilt ID in use is Tilt, unknown IDs have no control |
| V4l2Capture.ControlIdRoundTrip | src/backends/capture/v4l2.rs:112-154 | with a tilt ID no other control uses, the two tables are inverse in both directions, so the control-to-ID table is one-to-one |
| V4l2Capture.TiltIdsFree | src/backends/capture/v4l2.rs:124 | both the tilt ID written in the tables and the V4L2 relative-tilt ID are free of the other controls' IDs |
| V4l2Capture.TryKnownCameraControlToIdAsWritten | src/backends/capture/v4l2.rs:112-131 | the table as written, with 100 948 530 for Tilt; every control conversion of the capture device uses it |
| V4l2Capture.TryIdToKnownCameraControlAsWritten | src/backends/capture/v4l2.rs:135-154 | the reverse table as written, with 100 948 530 for Tilt; every control conversion of the capture device uses it |
| V4l2Capture.TryKnownCameraControlToId | src/backends/capture/v4l2.rs:112-131 | corrected (Finding 3): the table with the V4L2 relative-tilt ID 10 094 853, as the description conversion uses |
| V4l2Capture.TryIdToKnownCameraControl | src/backends/capture/v4l2.rs:135-154 | corrected (Finding 3): the reverse table with the relative-tilt ID 10 094 853 |
| V4l2Capture.DescriptionToKnown | src/utils.rs:727-754 | the conversion of a V4L2 description's ID into a control; an unknown ID is "Control not implemented!" |
| V4l2Capture.DescriptionToKnownAgrees | src/utils.rs:727-754 | with the relative-tilt ID the capture device's table and the description conversion accept the same IDs and give the same controls |
| V4l2Capture.TiltIdAsWrittenMismatch | src/backends/capture/v4l2.rs:124 | as written, the ID the device table gives Tilt is not recognised by the description conversion, and the driver's tilt ID is not recognised by the device table |
| V4l2Capture.TruncateToI32 | src/backends/capture/v4l2.rs:70-72 | `v64 as i32` keeps values in the i32 range and otherwise agrees with the value modulo 2^32 |
| V4l2Capture.CurrentValue | src/backends/capture/v4l2.rs:66-91 | a 32-bit value is kept, a 64-bit value up to `i32::MAX` truncated, a larger one "Too large!", a string "Unsupported Type String", a failed read its error, each naming the control ID |
| V4l2Capture.ToCameraControl | src/backends/capture/v4l2.rs:45-107 | a write-only control is rejected first, then an ID unknown to the table as written (so Tilt is 100 948 530), then a bad value; a converted control has the description's ID, range, step and default, the read value within the range, the Manual flag, and is active iff the disabled or inactive flag is set |
| V4l2Capture.SupportedControlsContents | src/backends/capture/v4l2.rs:502-519 | at most one control per description, each known by its description's ID in the table as written, and every description that converts contributes its control |
| V4l2Capture.FirstControlWithIdIsControl | src/backends/capture/v4l2.rs:537-555 | a control found by searching for the ID the table as written gives a control is that control |
| V4l2Capture.ResolutionsLength | src/backends/capture/v4l2.rs:290-303 | a discrete size gives one resolution and a stepwise one two |
| V4l2Capture.FrameRatesContents | src/backends/capture/v4l2.rs:416-428 | the rates listed are exactly the denominators of the intervals, a stepwise interval's minimum and maximum both |
| V4l2Capture.FourccFormat | src/backends/capture/v4l2.rs:455-459 | "YUYV" is YUYV, "MJPG" is MJPEG, nothing else is a format |
| V4l2Capture.RecognisedContents | src/backends/capture/v4l2.rs:444-460 | a format is recognised exactly when its fourcc occurs |
| V4l2Capture.SortDedup | src/backends/capture/v4l2.rs:461-462 | the sorted and deduplicated list holds exactly the formats of the list, strictly ascending, at most two |
| V4l2Capture.SetCameraFormatOutcome | src/backends/capture/v4l2.rs:337-401 | success exactly when the reads and sets succeed and, with an open stream, the reopening does; each failing step names its property; a failed reopening is reported once the undo succeeds |
| V4l2Capture.Fourcc | src/backends/capture/v4l2.rs:211-214 | the fourcc `new` asks for reads back as the same frame format |
| V4l2Capture.NewOutcome | src/backends/capture/v4l2.rs:185-268 | a failed open names the index, a failed capability read is a "Capabilities" error and a failed format set a "Format(V4L Resolution, FourCC)" error; with every answer given, success exactly when the as-written check (all of width, height and fourcc differ) passes and the interval's denominator is the rate, a failed parameter set otherwise being a "Parameter(V4L FPS)" error; on success the card, driver and index as description and the requested format or the default |
| V4l2Capture.NewAcceptsChangedHeightAndFourcc | src/backends/capture/v4l2.rs:221-224 | as written, a driver that takes the default's width but another height and fourcc is accepted and the device keeps the default format |
| V4l2Capture.FormatCheckAcceptsOnlyRequest | src/backends/capture/v4l2.rs:221-224 | corrected (Finding 11): the intended check accepts exactly the requested width, height and fourcc |
| V4l2Capture.V4LCaptureDevice.constructor | src/backends/capture/v4l2.rs:260-265 | the device `new` returns holds the description and format `NewOutcome` gives, and no stream |
| V4l2Capture.V4LCaptureDevice.IsStreamOpen | src/backends/capture/v4l2.rs:680-682 | whether a stream handle is held |
| V4l2Capture.V4LCaptureDevice.Backend | src/backends/capture/v4l2.rs:325-327 | the backend is Video4Linux |
| V4l2Capture.V4LCaptureDevice.SetCameraFormat | src/backends/capture/v4l2.rs:337-401 | the result is the outcome above; the stored format becomes the new one only on success without an open stream; the stream state is unchanged |
| V4l2Capture.V4LCaptureDevice.SetResolution | src/backends/capture/v4l2.rs:476-480 | as `set_camera_format` with only the resolution changed |
| V4l2Capture.V4LCaptureDevice.SetFrameRate | src/backends/capture/v4l2.rs:486-490 | as `set_camera_format` with only the frame rate changed |
| V4l2Capture.V4LCaptureDevice.SetFrameFormat | src/backends/capture/v4l2.rs:496-500 | as `set_camera_format` with only the frame format changed |
| V4l2Capture.V4LCaptureDevice.GetResolutionList | src/backends/capture/v4l2.rs:282-311 | a failed enumeration is a "Resolutions" error; otherwise each discrete size, and each stepwise range's minimum then maximum, in order |
| V4l2Capture.V4LCaptureDevice.RatesOfResolutions | src/backends/capture/v4l2.rs:413-437 | the resolution loop succeeds exactly when every listed resolution's interval query does, building the resolution-to-rates map; otherwise it reports a failing query as a "Frame rate" error |
| V4l2Capture.RatesByResolutionContents | src/backends/capture/v4l2.rs:413-437 | the built map's keys are exactly the listed resolutions and each maps to its intervals' rates |
| V4l2Capture.V4LCaptureDevice.CompatibleListByResolution | src/backends/capture/v4l2.rs:403-439 | success exactly when the sizes and every interval query succeed; the keys are exactly the listed resolutions, each mapped to its intervals' rates; the first failing query is a "Frame rate" error |
| V4l2Capture.V4LCaptureDevice.CompatibleFourcc | src/backends/capture/v4l2.rs:441-470 | success exactly when the enumeration and every fourcc text succeed; the result is the recognised formats sorted and deduplicated |
| V4l2Capture.V4LCaptureDevice.SupportedCameraControls | src/backends/capture/v4l2.rs:502-520 | a failed query is a "Controls" error; otherwise the controls whose description converts through the table as written, in order |
| V4l2Capture.V4LCaptureDevice.CameraControlOf | src/backends/capture/v4l2.rs:522-568 | a control without ID in the table as written is invalid, a failed read or query is reported by name, otherwise the first converting description with the ID or "Not Found"; the control returned is the one asked for |
| V4l2Capture.V4LCaptureDevice.SetCameraControl | src/backends/capture/v4l2.rs:570-589 | a control without ID in the table as written is invalid (Tilt is sent as 100 948 530); otherwise success exactly when the device accepts the value, a refusal naming the control, its ID and the value |
| V4l2Capture.V4LCaptureDevice.OpenStream | src/backends/capture/v4l2.rs:671-678 | on success a stream is held; on failure an `OpenStreamError` and nothing changes; the format never changes |
| V4l2Capture.V4LCaptureDevice.StopStream | src/backends/capture/v4l2.rs:717-722 | always Ok and no stream afterwards; the format is unchanged |
| V4l2Capture.V4LCaptureDevice.FrameRaw | src/backends/capture/v4l2.rs:705-715 | without a stream, the "Stream not initialized!" error; otherwise the stream's next buffer or its error |
| V4l2Capture.V4LCaptureDevice.Frame | src/backends/capture/v4l2.rs:684-703 | without a stream the "Stream not initialized!" error; a failed read is passed through as a `ReadFrameError`; a failed decode (the MJPEG decoder's error, or the YUYV conversion's for a buffer not of whole 4-byte groups) is passed through; decoded data of at least width × height × 3 bytes gives exactly the image of the format's size over it, shorter data the buffer-too-small error |
| V4l2Backend.ControlToId | src/backends/capture/v4l2_backend.rs:45-64 | the control-to-ID map: Tilt is the tilt ID in use, `Other(id)` the low 32 bits of its number |
| V4l2Backend.IdToControl | src/backends/capture/v4l2_backend.rs:68-87 | the ID-to-control map: the tilt ID is Tilt, an unknown ID becomes `Other` |
| V4l2Backend.KnownCameraControlToId | src/backends/capture/v4l2_backend.rs:45-64 | the map as written, with Tilt at 100 948 530 like the capture device's table |
| V4l2Backend.IdToKnownCameraControl | src/backends/capture/v4l2_backend.rs:68-87 | the reverse map as written: 100 948 530 is Tilt and the V4L2 relative-tilt ID 10 094 853 becomes `Other` |
| V4l2Backend.IdControlRoundTrip | src/backends/capture/v4l2_backend.rs:45-87 | with a free tilt ID every 32-bit ID survives the trip through a control |
| V4l2Backend.ControlIdRoundTrip | src/backends/capture/v4l2_backend.rs:45-87 | every named control, and every `Other` of a free 32-bit number, survives the trip through its ID; `Other(2^32)` comes back as `Other(0)` |
| V4l2Backend.SelectFlags | src/backends/capture/v4l2_backend.rs:555-589 | the flags of the order that the flag word holds, each once, in the order's order |
| V4l2Backend.FlagOrderComplete | src/backends/capture/v4l2_backend.rs:580-586 | the order lists every flag |
| V4l2Backend.FlagList | src/backends/capture/v4l2_backend.rs:555-589 | the flag list holds exactly the flags set in the description, each once, ordered inactive, read-only, volatile, disabled, write-only |
| V4l2Backend.StepToI64 | src/backends/capture/v4l2_backend.rs:537 | `step as i64` keeps a step up to `i64::MAX` and wraps a larger one to a negative number |
| V4l2Backend.ValueDescription | src/backends/capture/v4l2_backend.rs:515-553 | integer types with an integer value give a range with the description's bounds, step and default; a boolean its value and whether the default is nonzero; a string its value; any other pairing nothing |
| V4l2Backend.ControlOf | src/backends/capture/v4l2_backend.rs:511-593 | a control exactly when the read succeeds and the value fits the type; it carries the control the map as written gives the ID (Tilt for 100 948 530), the name, the value description, the flag list, and is active iff the inactive flag is clear |
| V4l2Backend.CameraControls | src/backends/capture/v4l2_backend.rs:502-594 | a failed query is a "V4L2 Controls" error; otherwise the controls of the descriptions that convert, in order |
| V4l2Backend.ConvertedControlsContents | src/backends/capture/v4l2_backend.rs:502-594 | at most one control per description, none invented and none of the convertible ones lost |
| V4l2Backend.ConvertedIsControlOf | src/backends/capture/v4l2_backend.rs:592 | a description contributes a control exactly when it converts to it |
| V4l2Backend.FindControl | src/backends/capture/v4l2_backend.rs:491-496 | a control found is the one asked for and in the list; none is found exactly when no entry is that control |
| V4l2Backend.FindControlIsFirst | src/backends/capture/v4l2_backend.rs:491-496 | the control found is the first entry that is that control |
| V4l2Backend.CameraControlOf | src/backends/capture/v4l2_backend.rs:489-500 | a failed query is passed through, a missing control is "not found/not supported", otherwise the first matching control |
| V4l2Backend.SetCameraControl | src/backends/capture/v4l2_backend.rs:596-636 | a float is refused before the device is touched; a refused write names the control; success exactly when the write succeeds and the control read back holds the written value, "Rejected" otherwise |
| V4l2Backend.RequestedInterval | src/backends/capture/v4l2_backend.rs:141 | the interval asked for a rate is one over that rate |
| V4l2Backend.RefreshedFormatAsWritten | src/backends/capture/v4l2_backend.rs:257-275 | as written the refreshed frame rate is the interval's numerator |
| V4l2Backend.RefreshAsWrittenMisreadsRate | src/backends/capture/v4l2_backend.rs:257-275 | as written a driver that took the request exactly is read back at 1 fps, so every other rate is rejected |
| V4l2Backend.RefreshedFormat | src/backends/capture/v4l2_backend.rs:257-275 | corrected (Finding 4), used only to state the intended read-back: the refreshed format has the driver's resolution and fourcc and the interval's denominator as its rate |
| V4l2Backend.RefreshReadsBackRequest | src/backends/capture/v4l2_backend.rs:257-275 | with the rate read as the denominator, a driver that took the request reads back as the request |
| V4l2Backend.FormatCheckAsWrittenMissesChange | src/backends/capture/v4l2_backend.rs:148-152 | as written a driver that changes only the height is not rejected |
| V4l2Backend.FormatCheckAcceptsOnlyRequest | src/backends/capture/v4l2_backend.rs:148-152 | corrected (Finding 5): the intended check accepts exactly the requested resolution and fourcc |
| V4l2Backend.SetFormatEffect | src/backends/capture/v4l2_backend.rs:257-387 | the outcome and stored format of `set_camera_format`: with an open stream the format is unchanged, and a success without one stores exactly the format asked for |
| V4l2Backend.SetFormatAsWrittenRejectsTakenRate | src/backends/capture/v4l2_backend.rs:257-387 | as written, a stream-less call that the driver takes exactly fails with "Rejected" unless the rate is 1, and leaves the device at 1 fps |
| V4l2Backend.NewOutcome | src/backends/capture/v4l2_backend.rs:113-195 | a failed open names the index, a failed capability read is a "Capabilities" error and a failed format set a "Format(V4L Resolution, FourCC)" error; with every answer given, success exactly when the as-written check (all of width, height and fourcc differ) passes and the interval's denominator is the rate; on success the capabilities and the requested format or the default |
| V4l2Backend.V4LCaptureDevice.constructor | src/backends/capture/v4l2_backend.rs:188-194 | a new device is uninitialised with no stream and the format `new` chose |
| V4l2Backend.V4LCaptureDevice.Backend | src/backends/capture/v4l2_backend.rs:297-299 | the backend is Video4Linux |
| V4l2Backend.V4LCaptureDevice.IsStreamOpen | src/backends/capture/v4l2_backend.rs:647-649 | whether a stream handle is held |
| V4l2Backend.V4LCaptureDevice.Init | src/backends/capture/v4l2_backend.rs:277-295 | no compatible format is an initialisation error; otherwise the current format is kept when compatible, else the first compatible one is taken; the result is compatible and becomes the device's |
| V4l2Backend.V4LCaptureDevice.ForceRefreshCameraFormat | src/backends/capture/v4l2_backend.rs:257-275 | a failed read is a "parameters" error and keeps the format; otherwise the format is the device's, read back as written with the interval's numerator as its rate |
| V4l2Backend.V4LCaptureDevice.SetCameraFormat | src/backends/capture/v4l2_backend.rs:313-387 | with an open stream as the capture device's, the format kept; otherwise the new format is stored and refreshed as written, the refreshed format is kept, and the call succeeds exactly when it equals the request, else "Rejected"; the result and new format are `SetFormatEffect` |
| V4l2Backend.V4LCaptureDevice.SetResolution | src/backends/capture/v4l2_backend.rs:463-467 | the result and new format are `SetFormatEffect` of the current format with only the resolution changed; with an open stream the format is kept, and on success without one it is exactly the changed format |
| V4l2Backend.V4LCaptureDevice.SetFrameRate | src/backends/capture/v4l2_backend.rs:473-477 | the result and new format are `SetFormatEffect` of the current format with only the frame rate changed; with an open stream the format is kept, and on success without one it is exactly the changed format |
| V4l2Backend.V4LCaptureDevice.SetFrameFormat | src/backends/capture/v4l2_backend.rs:483-487 | the result and new format are `SetFormatEffect` of the current format with only the frame format changed; with an open stream the format is kept, and on success without one it is exactly the changed format |
| V4l2Backend.V4LCaptureDevice.OpenStream | src/backends/capture/v4l2_backend.rs:638-645 | on success a stream is held; on failure an `OpenStreamError` and nothing changes |
| V4l2Backend.V4LCaptureDevice.StopStream | src/backends/capture/v4l2_backend.rs:680-685 | always Ok, with no stream afterwards |
| V4l2Backend.V4LCaptureDevice.FrameRaw | src/backends/capture/v4l2_backend.rs:668-678 | without a stream the "Stream not initialized!" error; otherwise the next buffer or its error |
| V4l2Backend.V4LCaptureDevice.Frame | src/backends/capture/v4l2_backend.rs:651-660 | without a stream the "Stream not initialized!" error and a failed read passed through as a `ReadFrameError`; otherwise a buffer tagged with the device's resolution and format: GRAY8 bytes as they are, always successfully, MJPEG and YUYV decoded to RGB, Ok exactly when the decoder is and otherwise the decoder's error |
| OpenCvBackend.ApiPrefIntAsWritten | src/backends/capture/opencv_backend.rs:610-617 | as written: "linux" is V4L2, "windows" Media Foundation, "mac" AVFoundation, anything else OpenCV's automatic choice, each iff |
| OpenCvBackend.ApiPrefAsWrittenMissesMacOs | src/backends/capture/opencv_backend.rs:614 | as written macOS ("macos") gets the automatic choice, not AVFoundation |
| OpenCvBackend.ApiPrefInt | src/backends/capture/opencv_backend.rs:610-617 | corrected (Finding 6): the native API of Linux, Windows and macOS, each iff, and the automatic choice otherwise |
| OpenCvBackend.ApiPrefNative | src/backends/capture/opencv_backend.rs:610-617 | the corrected choice gives AVFoundation on macOS and agrees with the written one on every other name |
| OpenCvBackend.ToI32 | src/backends/capture/opencv_backend.rs:38-51 | a number converts exactly when it fits an `i32`, keeping its value; otherwise a general error naming it |
| OpenCvBackend.BgrBytes | src/backends/capture/opencv_backend.rs:244-249 | a frame as OpenCV stores it has three bytes per pixel |
| OpenCvBackend.RgbBytes | src/backends/capture/opencv_backend.rs:244-249 | the RGB bytes are three per pixel |
| OpenCvBackend.ReverseTriples | src/backends/capture/opencv_backend.rs:244-249 | reversing each triple keeps the length |
| OpenCvBackend.ReverseTriplesTwice | src/backends/capture/opencv_backend.rs:244-249 | reversing every triple twice gives the bytes back |
| OpenCvBackend.RgbBytesContents | src/backends/capture/opencv_backend.rs:244-249 | each pixel's bytes come out red, green, blue, and the RGB bytes are the stored bytes with every triple reversed |
| OpenCvBackend.RgbBytesAppend | src/backends/capture/opencv_backend.rs:244-249 | one more pixel adds its three RGB bytes at the end |
| OpenCvBackend.ReadFailure | src/backends/capture/opencv_backend.rs:213-281 | a frame read fails exactly when the stream is closed, the read fails or returns false, the frame is empty, its width is not positive, it is not continuous or its data cannot be read; every failure is a read-frame error |
| OpenCvBackend.RawFrameVec | src/backends/capture/opencv_backend.rs:213-281 | the first failed check is returned; otherwise three bytes per pixel, the stored bytes with every triple reversed |
| OpenCvBackend.ResizedContents | src/backends/capture/opencv_backend.rs:566-569 | the resized data has exactly the size asked, keeps the data's first bytes and is zero beyond them |
| OpenCvBackend.ResolutionOf | src/backends/capture/opencv_backend.rs:389-392 | the resolution read, or 640x480 when a read fails |
| OpenCvBackend.RawResolution | src/backends/capture/opencv_backend.rs:287-309 | the width is read first, then the height; a failure names "Width" or "Height" |
| OpenCvBackend.FrameRateOf | src/backends/capture/opencv_backend.rs:400-402 | the frame rate read, or 30 when the read fails |
| OpenCvBackend.RawFrameRate | src/backends/capture/opencv_backend.rs:316-324 | the frame rate read, or an error naming "Framerate" |
| OpenCvBackend.StopStreamOutcome | src/backends/capture/opencv_backend.rs:602-607 | Ok exactly when the release succeeds; otherwise a stream shut-down error |
| OpenCvBackend.OpenStreamOutcome | src/backends/capture/opencv_backend.rs:511-557 | Ok exactly when the open succeeds and the device then reports open; each failure has its own error |
| OpenCvBackend.IsStreamOpen | src/backends/capture/opencv_backend.rs:559-561 | open exactly when the device answers true; a failed query reads as closed |
| OpenCvBackend.NewOutcome | src/backends/capture/opencv_backend.rs:97-140 | succeeds exactly when the API preference and index fit an `i32` and the open and property setting succeed; the device has the given or default format, the index, a description naming it, and the given API preference or, without one, the preference as written (so macOS gets the automatic choice) |
| OpenCvBackend.OpenCvCaptureDevice.constructor | src/backends/capture/opencv_backend.rs:133-139 | a device holds the fields `new` computed |
| OpenCvBackend.OpenCvCaptureDevice.Backend | src/backends/capture/opencv_backend.rs:332-334 | the backend is OpenCV |
| OpenCvBackend.OpenCvCaptureDevice.CompatibleListUnsupported | src/backends/capture/opencv_backend.rs:374-387 | the format listings are unsupported operations of OpenCV |
| OpenCvBackend.OpenCvCaptureDevice.ControlsUnsupported | src/backends/capture/opencv_backend.rs:420-442 | the control operations report the UVC backend as unsupported |
| OpenCvBackend.SetFormatOutcome | src/backends/capture/opencv_backend.rs:344-371 | success exactly when the open-state query and property setting succeed and, for a streaming device, the release and reopen do; each failure is the error the source names (a failed release a shut-down error, a failed reopen an open-device error) |
| OpenCvBackend.OpenCvCaptureDevice.SetCameraFormat | src/backends/capture/opencv_backend.rs:344-371 | the result is `SetFormatOutcome`; a failed open-state query or property setting keeps the previous format; otherwise the new format is stored, and stays even when the release or reopen fails |
| OpenCvBackend.OpenCvCaptureDevice.SetResolution | src/backends/capture/opencv_backend.rs:394-398 | the result is `SetFormatOutcome`; once the query and setting succeed the format is the old one with only the resolution changed, whatever the release and reopen give; a failed query or setting keeps the format |
| OpenCvBackend.OpenCvCaptureDevice.SetFrameRate | src/backends/capture/opencv_backend.rs:404-408 | the result is `SetFormatOutcome`; once the query and setting succeed the format is the old one with only the frame rate changed, whatever the release and reopen give; a failed query or setting keeps the format |
| OpenCvBackend.OpenCvCaptureDevice.SetFrameFormat | src/backends/capture/opencv_backend.rs:414-418 | the result is `SetFormatOutcome`; once the query and setting succeed the format is the old one with only the frame format changed, whatever the release and reopen give; a failed query or setting keeps the format |
| OpenCvBackend.OpenCvCaptureDevice.Frame | src/backends/capture/opencv_backend.rs:563-589 | a failed read is passed through; otherwise an image of the format's size holding the RGB bytes cut or zero-padded to exactly width × height × 3 |
| OpenCvBackend.RawCameraControl | src/backends/capture/opencv_backend.rs:444-464 | the property read by id, or an error naming the id |
| OpenCvBackend.SetRawCameraControl | src/backends/capture/opencv_backend.rs:466-509 | Ok exactly when OpenCV answers true; false and failures are errors naming the id and the value |
| Query.FirstEnabled | src/query.rs:51-104 | a backend is chosen exactly when some candidate's feature is enabled, and it is the first such candidate's |
| Query.AutoTargetIsFirstEnabled | src/query.rs:48-108 | the `Auto` choice is the first enabled candidate of the system's preference list (native, UVC, GStreamer, OpenCV; AVFoundation only on iOS) and never `Auto` |
| Query.FirstEnabledCons | src/query.rs:51-104 | the first enabled candidate is the head when its feature is enabled, else the first of the rest |
| Query.AutoTargetAsWritten | src/query.rs:48-108 | as written the GStreamer branch tests "input-gstreamer"; this is the choice `query_devices` and `query` use |
| Query.AutoTarget | src/query.rs:48-108 | corrected (Finding 7): the choice with the GStreamer branch testing "input-gst", the feature that compiles the GStreamer listing |
| Query.QueryBackend | src/query.rs:110-117 | an explicit backend gives its compiled-in listing or, when that is not compiled in, the unsupported error naming it; OpenCV and network cameras are always unsupported |
| Query.AutoGStreamerAsWrittenReachesStub | src/query.rs:56-57 | as written, Linux with only "input-gstreamer" reaches the GStreamer stub, and with only "input-gst" finds no backend although that listing is compiled in |
| Query.QueryDevices | src/query.rs:46-119 | `Auto` goes, through the choice as written, to the chosen backend's listing, or is unsupported for `Auto` when nothing is chosen; any other backend goes to its own listing |
| Query.QueryDevicesIntended | src/query.rs:46-119 | the same dispatch with `Auto` going through the corrected choice |
| Query.AutoChoosesCompiledListing | src/query.rs:227-291 | with the corrected choice `Auto` only picks a backend whose listing is compiled in, apart from OpenCV, and the intended dispatch then returns that listing |
| Query.QueryAll | src/query.rs:29-31 | `query` is the listing of `Auto` through the choice as written: the chosen backend's listing, or unsupported for `Auto` when nothing is chosen |
| Query.AutoPrefersNative | src/query.rs:48-108 | with the choice as written the native listing wins whenever compiled in; on any other system `Auto` is unsupported |
| Camera.ResolveBackend | src/camera.rs:29-62 | `Auto` becomes V4L2 on Linux with "input_v4l", else UVC with "input_uvc", else an error; V4L2 and UVC are accepted exactly when their requirements hold; any other backend is not implemented with its name as message |
| Camera.ResolveBackendIdempotent | src/camera.rs:29-62 | a resolved backend resolves to itself, so rebuilding a camera with its own backend keeps it |
| Camera.NewOutcome | src/camera.rs:24-98 | a failed resolution is returned; otherwise the result is the resolved backend with the format of the device its constructor builds, or that constructor's error; never `Auto` |
| Camera.Camera.constructor | src/camera.rs:93-97 | a camera holds its index, its resolved backend and its device's format |
| Camera.Camera.New | src/camera.rs:24-98 | succeeds exactly when the outcome above does, with its error otherwise; the camera has the index, the resolved backend (never `Auto`) and the device's format |
| Camera.Camera.Index | src/camera.rs:117-119 | the camera's index |
| Camera.Camera.Backend | src/camera.rs:131-133 | the camera's backend |
| Camera.Camera.SetIndex | src/camera.rs:124-128 | a failed stop is returned; otherwise a camera at the new index with the same backend, built with the current format |
| Camera.Camera.SetBackend | src/camera.rs:138-142 | a failed stop is returned; otherwise a camera at the same index with the new backend resolved, built with the current format |
| CaptureCli.Split | examples/capture/src/main.rs:146 | splitting on one character gives at least one piece, none holding the separator, and joining the pieces gives the text back |
| CaptureCli.SplitJoin | examples/capture/src/main.rs:146 | splitting a join of pieces without the separator gives the pieces back |
| CaptureCli.SeparatorInJoin | examples/capture/src/main.rs:146-155 | the separator occurs in a join exactly when there are at least two pieces, so the option is present exactly when the text holds ':' |
| CaptureCli.ParseIndexKind | examples/capture/src/main.rs:89-97 | never fails; an index exactly when the text parses as a `u32`, with that value, else a name holding the text |
| CaptureCli.IndexKindRoundTrip | examples/capture/src/main.rs:89-97 | the decimal text of an index is read back as that index |
| CaptureCli.ParseRequestedCliFormat | examples/capture/src/main.rs:143-157 | never fails; the type is the text before the first ':', the option present exactly when the text holds ':' and then the text between the first and the second ':' |
| CaptureCli.RequestedCliFormatRoundTrip | examples/capture/src/main.rs:143-157 | "type:option" with neither part holding ':' parses back into that type and option |
| CaptureCli.Values | examples/capture/src/main.rs:168-169 | an option splits into at least one comma-separated value |
| CaptureCli.FormatFromValues | examples/capture/src/main.rs:184-192 | the format of "x,y,fps,fourcc" has the parsed width, height and rate and the parsed frame format |
| CaptureCli.MakeRequested | examples/capture/src/main.rs:160-217 | nothing exactly for an unknown type; each known type gives its request, built from the values of the option where it has one |
| CaptureCli.ExactRequestRoundTrip | examples/capture/src/main.rs:143-217 | "Exact:x,y,fps,fourcc" asks for exactly that camera format whenever the frame format's name parses and holds neither ',' nor ':' |
| CaptureCli.Spellings | examples/capture/src/main.rs:228-234 | each property kind has at least three spellings |
| CaptureCli.ParsePropertyKind | examples/capture/src/main.rs:225-237 | an accepted text is a spelling of the kind returned; any other is "unknown PropertyKind: " followed by the text |
| CaptureCli.ParsePropertyKindExactly | examples/capture/src/main.rs:225-237 | exactly the listed spellings are accepted, each for its own kind |
| JsCamera.CapabilityText | src/js_camera.rs:352-367 | every capability has a non-empty name in the browser's constraint dictionary |
| JsCamera.ParseCapability | src/js_camera.rs:376-398 | a name that denotes no capability is the "no match" error |
| JsCamera.CapabilityRoundTrip | src/js_camera.rs:352-398 | parsing the text of a capability gives the capability back |
| JsCamera.ParseCapabilityOnlyTexts | src/js_camera.rs:376-398 | only the eight capability texts parse, each to its own capability |
| JsCamera.FacingText | src/js_camera.rs:411-430 | every facing mode has a non-empty text |
| JsCamera.FacingTextInjective | src/js_camera.rs:411-430 | distinct facing modes have distinct texts |
| JsCamera.ResizeText | src/js_camera.rs:448-464 | only `Any` has the empty text |
| JsCamera.ResizeTextInjective | src/js_camera.rs:448-464 | distinct resize modes have distinct texts |
| JsCamera.GetDetermines | src/js_camera.rs:1167-1637 | settings that agree on all twenty getters are the same settings |
| JsCamera.ApplyStoresTarget | src/js_camera.rs:1178-1646 | each `set_*` setter of the constraints stores its value in its own field and leaves the other nineteen alone; for the builder's setters this is the corrected behaviour (Finding 8), since the builder's `max_resolution` writes the minimum |
| JsCamera.ApplyIdempotent | src/js_camera.rs:1178-1646 | applying a constraints setter twice is applying it once |
| JsCamera.ApplyAsWritten | src/js_camera.rs:529-804 | as written every setter but `max_resolution` is the intended one |
| JsCamera.MaxResolutionAsWrittenSetsMinimum | src/js_camera.rs:559-562 | as written `max_resolution` keeps the maximum and overwrites the minimum, so a 4K maximum on the default builder asks for at least 3840x2160 and at most 1920x1080 |
| JsCamera.Bounds | src/js_camera.rs:855-868 | a range lists one to three bounds |
| JsCamera.RangeBodyJoinsBounds | src/js_camera.rs:855-869 | a range entry lists its present bounds in order, separated by commas, with none trailing |
| JsCamera.Render | src/js_camera.rs:847-1012 | a named entry's fragment is empty exactly when the entry is unset |
| JsCamera.OptText | src/js_camera.rs:855-866 | an optional bound has a text exactly when present |
| JsCamera.WidthConstraint | src/js_camera.rs:847-872 | a range exactly when the resolution is not exact, with bounds exactly where the builder has them; nothing for an exact zero resolution; the value or ideal is the preferred width |
| JsCamera.HeightConstraintAsWritten | src/js_camera.rs:874-902 | the height entry `build` renders, as written: a range (with the builder's bounds) exactly when the aspect ratio is not exact, unset exactly when it is exact and the resolution is the default, otherwise exact; the value or ideal is the preferred height |
| JsCamera.HeightAsWrittenIgnoresResolutionExact | src/js_camera.rs:874-902 | as written an exact resolution makes the width exact but leaves the height a range from 234 to 1080 |
| JsCamera.HeightConstraint | src/js_camera.rs:874-902 | corrected (Finding 9), used only to state the intended agreement: the height entry keyed on `resolution_exact` like the width, with the preferred height |
| JsCamera.WidthHeightAgree | src/js_camera.rs:847-902 | width and height ask for the same kind of constraint |
| JsCamera.AspectRatioConstraint | src/js_camera.rs:904-929 | a range exactly when the ratio is not exact, nothing for an exact zero ratio, the ratio's text when exact |
| JsCamera.FacingConstraint | src/js_camera.rs:931-943 | nothing for `Any`, whatever the flag; otherwise the mode's text, exact or ideal as the flag says |
| JsCamera.FrameRateConstraint | src/js_camera.rs:945-970 | a range exactly when the rate is not exact, with bounds where the builder has them; nothing for an exact zero rate; the value or ideal is the rate |
| JsCamera.ResizeConstraint | src/js_camera.rs:972-984 | nothing for `Any`; otherwise the mode's text, exact or ideal as the flag says |
| JsCamera.IdConstraint | src/js_camera.rs:986-1012 | nothing for the empty id; otherwise the id, exact exactly when the flag says |
| JsCamera.Fragments | src/js_camera.rs:1014-1023 | eight fragments, each empty exactly when its entry is unset, the height entry being the one as written |
| JsCamera.DefaultEntries | src/js_camera.rs:1086-1111 | the default builder asks for width, height, aspect-ratio and frame-rate ranges with both bounds, and nothing else |
| JsCamera.LexLeTotal | src/js_camera.rs:1024 | the order of strings is total |
| JsCamera.LexLeAntisymmetric | src/js_camera.rs:1024 | the order of strings is antisymmetric |
| JsCamera.LexLeTransitive | src/js_camera.rs:1024 | the order of strings is transitive |
| JsCamera.InsertSorted | src/js_camera.rs:1024 | inserting into a sorted list keeps it sorted and adds exactly the element |
| JsCamera.Sort | src/js_camera.rs:1024 | sorting gives a sorted permutation |
| JsCamera.Dedup | src/js_camera.rs:1025 | deduplication keeps exactly the same elements and the first one, leaves no two equal neighbours, and keeps a sorted list sorted |
| JsCamera.SortedChain | src/js_camera.rs:1024 | in a sorted list each element is no greater than every later one |
| JsCamera.SortedDedupDistinct | src/js_camera.rs:1024-1025 | after sorting and deduplication every fragment appears exactly once |
| JsCamera.Piece | src/js_camera.rs:1028-1032 | a fragment contributes nothing exactly when it is empty |
| JsCamera.CondensedEmpty | src/js_camera.rs:1027-1032 | the condensed text is empty exactly when every fragment is, and otherwise starts with a comma |
| JsCamera.ArgumentsTrueIffAllEmpty | src/js_camera.rs:1027-1035 | the entries' text is "true" exactly when every fragment is empty |
| JsCamera.Assemble | src/js_camera.rs:1014-1035 | the condensing loop gives the entries' text, "true" exactly when every fragment is empty |
| JsCamera.ArgumentsTrueIffUnconstrained | src/js_camera.rs:1014-1035 | a builder asks for nothing exactly when every entry is unset |
| JsCamera.DefaultConstrains | src/js_camera.rs:1086-1111 | the default builder constrains something |
| JsCamera.Script | src/js_camera.rs:1037-1049 | the script is the fixed head, the entries' text and the fixed tail |
| JsCamera.GroupIdExactAsWrittenLost | src/js_camera.rs:1075 | as written an exact group id is lost when the device id is not exact |
| JsCamera.JSCameraConstraints.constructor | src/js_camera.rs:1121-1143 | constraints hold the browser object and the settings |
| JsCamera.JSCameraConstraints.Set | src/js_camera.rs:1178-1646 | a `set_*` method changes its one field and does not rebuild the browser object |
| JsCamera.JSCameraConstraints.ApplyConstraints | src/js_camera.rs:1671-1698 | the constraints are rebuilt from the current settings (height entry as written) and the browser object replaced with the script exactly when the script runs; on failure the structure error and the old object; the settings do not change |
| JsCamera.Build | src/js_camera.rs:843-1083 | the script is assembled from the fragments (height entry as written) and run; it succeeds exactly when the script runs, a failure being the structure error; on success the constraints hold the script and the builder's fields copied as written, `group_id_exact` taken from `device_id_exact` |
| JsCamera.BuiltSettingsKeepsEveryField | src/js_camera.rs:1055-1075 | the intended copy keeps every field; the copy as written keeps every field but `group_id_exact`, which holds `device_id_exact`, so the two agree exactly when those flags agree |
| JsCamera.JSCamera.constructor | src/js_camera.rs:1906-1946 | a new camera holds its constraints and measured resolution and is not attached |
| JsCamera.JSCamera.New | src/js_camera.rs:1906-1946 | each refusal of the media request is its own error; otherwise success exactly when the measurement does; a new camera is not attached |
| JsCamera.JSCamera.MeasureResolution | src/js_camera.rs:2004-2040 | the measured resolution becomes the element's size; a failure changes nothing |
| JsCamera.JSCamera.ApplyConstraints | src/js_camera.rs:1957-1985 | the constraints are rebuilt from their settings (height entry as written), then the resolution is measured again; a failed rebuild changes nothing |
| JsCamera.JSCamera.SetConstraints | src/js_camera.rs:1991-1998 | the new constraints replace the current ones and are applied; on failure the previous constraints are back, untouched |
| JsCamera.JSCamera.Attach | src/js_camera.rs:2046-2089 | on success the camera is attached to the node reached; on failure nothing changes |
| JsCamera.JSCamera.Detach | src/js_camera.rs:2094-2111 | nothing to do when not attached; otherwise the camera is detached once the node is cast to a video element |
| JsCamera.JSCamera.MinBufferSize | src/js_camera.rs:2375-2382 | the buffer holds one frame at the measured resolution, four bytes per pixel for RGBA and three for RGB |

## Left out

- `src/threaded.rs` and `src/threaded_camera.rs`: their substance is concurrency (a mutex-guarded camera, an atomic stop flag, a spawned frame loop); the first does not type-check and the second is an empty stub.
- Floating point: the f32 `buf_yuyv422_to_rgb`/`yuyv422_to_rgb` coefficients, `FrameRate(f32)` arithmetic, `Resolution::aspect_ratio` and the aspect-ratio constraint strings of `JSCamera` are not modelled. The f32 and f64 payloads that are only stored or compared, including the Float and Double values that `partial_cmp` in `controls.rs` orders, are `real`: their order is modelled, but NaN (which has no order), the infinities and f32 rounding are not.
- MJPEG decoding (delegated to mozjpeg), the `todo!()` decoders of `src/decoders/` and the unfinished `nokhwa-core/src/decoders/general.rs` wrapper.
- Device I/O and foreign calls are parameters of the model, not modelled: V4L2 ioctls, Media Foundation COM calls (including the large `control`/`set_control` matches, `raw_bytes` and the `initialize_mf` global flag), OpenCV `VideoCapture`, GStreamer, AVFoundation and its bindings, libuvc, the browser capture backends and `src/network_camera.rs`.
- The C++ Media Foundation bindings (`NokhwaBindingsWindowsCXX`) are foreign code and are not part of this model.
- `src/backends/capture/msmf.rs` (an older duplicate of the MSMF backend whose calls do not type-check) and `src/buffer.rs` (a duplicate `Buffer` with an unfinished image conversion) are not part of this model.
- Trait-only declarations (`src/camera_traits.rs`, `nokhwa-core/src/capture.rs`, `nokhwa-core/src/decoder.rs`, `nokhwa-core/src/pixel_format.rs`) have no logic beyond what the implementations modelled here carry.
- `resolve_format_request` has no body, so no format-scoring rule is modelled; `RequestedFormatType` is only its declaration.
- Wiring and build scripts (`src/init.rs`, the `build.rs` files, the `lib.rs` files, `src/macros.rs`, `src/backends/capture/mod.rs`) and the example programs other than the parsers of the `capture` example.
- Camera: the backend names in `Camera::new`'s match are written with the crate's enum variants; `init_uvc` is gated on the `uvc` feature while its stub is gated on `input_uvc`, and the model uses `input_uvc` for both; the methods that only delegate through the `RefCell` to the capture device are not modelled beyond the format the device holds.
- OpenCV: `set_properties` is a stub; `new` refers to an index type that is not declared, so it is modelled by its evident intent on numeric indices only; `init` and `frame_typed` are `todo!()`; the f64 casts of OpenCV property reads are integers here; the IP-camera path is left out with `network_camera.rs`.
- MSMF: `new`, `new_with` and the `raw_*` functions are thin COM wrappers and are not modelled.
- JSCamera: the DOM side (`attach`, `frame*`, the canvas and the `js_*` wrappers) is left out, so `attach`'s double `set_width` call is not modelled; the decimal text of an f64 is a parameter `fmt`.
- JsCamera.JSCamera.SetConstraints: requires the new constraints to be a different object from the current ones, which Rust's move of `constraints` guarantees but Dafny's aliasing does not.
- CaptureCli: `FrameFormat::from_str` has no visible implementation and is a parameter; the frame-rate text is parsed as a u32; `RequestedFormat::new` is represented by the requested-format type it is built from.
- CaptureCli.MakeRequested: requires `OptionReadable`, because every `unwrap` in `make_requested` panics on a missing or unreadable option.
- LegacyTypes.SetValue: models `&mut self` as a control passed in and returned, so it states the new value rather than an update in place.
- Ranges: the `Range::set_*` setters are updates of a `Copy` struct and are modelled as functions returning the updated value.
- PixelFormats: the `GRAY8` arm of `LumaFormat::write_output` lacks its `Ok(...)` wrapper and does not compile as written; it is modelled as returning `Ok`.
- FrameFormats: `Imc2` and `Imc4` appear in the category lists but are not variants of `FrameFormat`, so the lists omit them.
- Errors.FromBindingError: the failed-open arm passes the bindings' `usize` device index where `OpenDeviceError` takes a `String`, which does not compile; the model uses the index's decimal text.
- FormatRequests.SetMaximumIn and FormatRequests.SetMinimumIn: the `Range` literals of the `range_set_fields` macro leave out the `lower_inclusive` and `upper_inclusive` fields, which does not compile; the model builds the range with `Range::new`'s inclusive bounds.
- PixelFormats: `write_output_buffer` (the variant that writes into a caller's buffer) is not modelled; its GRAY8 arm is an empty block where a `Result` is due, so it does not compile, and what it would write is what `WriteOutput` returns.
- V4l2Backend.V4LCaptureDevice.ForceRefreshCameraFormat: the source calls `Capture::format` for the interval and names an undefined `why` in its error arm, which does not compile; the model takes one driver answer holding the format and interval, and a failure's own text.
- V4l2Backend.SetCameraControl: the source compares the read-back description's value with the V4L2 `Value` it wrote and uses that value after moving it, which does not compile; the model compares by `HoldsValue` (an integer, boolean or string description holding the value written), so any other value is reported "Rejected".
- V4l2Backend.DriverFormat: the fourcc the driver reports is a `FrameFormat`, so a fourcc the crate does not know cannot be represented; `FrameFormat::from(FourCC)` is not visible in the source. The legacy device's `new` keeps the fourcc as text (`V4l2Capture.TakenFormat`).
- CoreUtils.MinMaxRange: requires a positive step, or one whose first addition already passes `max`, because for any other step the loop of `min_max_range` never ends; the overflow of a fixed-width `+=` is not modelled.
- Every finding below is modelled as written throughout the main model (the backends, the listings and the builders use the as-written members); the corrected definitions stand beside them, each with its intended property proved. The one exception is the field update of Finding 8, which the constraints' own setters (`set_max_resolution` at `src/js_camera.rs:1226`) perform correctly.

## Findings

| source | as written | input that shows it | evidently intended | confidence | as-written member | corrected member |
|---|---|---|---|---|---|---|
| nokhwa-core/src/ranges.rs:388-416 | `num_range_validate` returns an error when the value lies inside the bounds and accepts only the default | range [0,10], default 5, value 3 is rejected | values inside the bounds are accepted | not executed | Ranges.NumRangeRejectsInRange | Ranges.NumRangeIntendedAcceptsInRange |
| nokhwa-bindings-windows/src/lib.rs:657-708 | the decoded frame rate is zeroed whenever the denominator is non-zero (the test is `!= 0` where `== 0` is meant); `set_format` (line 1510) packs the rate over a denominator of 1 | 30 fps packed as 30/1 reads back as 0 | the unpack inverts the pack | not executed | MfBindings.FrameRateAsWrittenLosesRate | MfBindings.FrameRateRoundTrip |
| src/backends/capture/v4l2.rs:124 | the relative-tilt control ID is 100_948_530, while `src/utils.rs:742` uses 10_094_853 (V4L2's `V4L2_CID_TILT_RELATIVE`) | the ID 10_094_853 from a device description is not recognised by the capture device's table | both tables use 10_094_853 | not executed | V4l2Capture.TiltIdAsWrittenMismatch | V4l2Capture.DescriptionToKnownAgrees |
| src/backends/capture/v4l2_backend.rs:257-275 | `force_refresh` builds the frame rate from the interval's numerator | a driver that keeps the requested interval 1/30 is read back at 1 fps | the frame rate is denominator over numerator, 30 | not executed | V4l2Backend.RefreshAsWrittenMisreadsRate | V4l2Backend.RefreshReadsBackRequest |
| src/backends/capture/v4l2_backend.rs:148-152 | the driver's answer is rejected only when width, height and fourcc all differ (`&&`) | a request of 640x480 answered with 640x360 is accepted | any differing field rejects (`\|\|`) | not executed | V4l2Backend.FormatCheckAsWrittenMissesChange | V4l2Backend.FormatCheckAcceptsOnlyRequest |
| src/backends/capture/opencv_backend.rs:614 | the API preference matches the OS name "mac", which Rust's `std::env::consts::OS` never yields ("macos") | on macOS the preference falls through to `CAP_ANY` | macOS selects `CAP_AVFOUNDATION` | not executed | OpenCvBackend.ApiPrefAsWrittenMissesMacOs | OpenCvBackend.ApiPrefNative |
| src/query.rs:56-57 | the `Auto` dispatch tests the feature "input-gstreamer" while the GStreamer listing is compiled under "input-gst" (lines 227, 286) | on Linux with only "input-gstreamer", `Auto` picks GStreamer and ends in the stub; with only "input-gst" it finds no backend | `Auto` tests the feature the listing is compiled under | not executed | Query.AutoGStreamerAsWrittenReachesStub | Query.AutoChoosesCompiledListing |
| src/js_camera.rs:559-562 | `max_resolution` stores its argument in `min_resolution` | setting a maximum of 1920x1080 changes the minimum and leaves the maximum | the maximum is set | not executed | JsCamera.MaxResolutionAsWrittenSetsMinimum | JsCamera.ApplyStoresTarget |
| src/js_camera.rs:874-902 | the height constraint chooses between `exact` and `ideal` by `aspect_ratio_exact` instead of `resolution_exact` | the default builder with `resolution_exact` true asks for exactly 640 wide but any height from 234 to 1080 | the height follows `resolution_exact` like the width | not executed | JsCamera.HeightAsWrittenIgnoresResolutionExact | JsCamera.WidthHeightAgree |
| src/js_camera.rs:1075 | `build` copies `device_id_exact` into `group_id_exact` | the default builder given group ID "g" and `group_id_exact` true builds constraints whose `group_id_exact` is false | the built constraints keep `group_id_exact` | not executed | JsCamera.GroupIdExactAsWrittenLost | JsCamera.BuiltSettingsKeepsEveryField |
| src/backends/capture/v4l2.rs:221-224 | the legacy device's `new` rejects the driver's answer only when width, height and fourcc all differ (`&&`), as in Finding 5 | the default 640x480 MJPEG request answered with 640x360 YUYV is accepted | any differing field rejects (`\|\|`) | not executed | V4l2Capture.NewAcceptsChangedHeightAndFourcc | V4l2Capture.FormatCheckAcceptsOnlyRequest |
