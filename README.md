# libdisplay-info-rs: the conversion layer, in Dafny

libdisplay-info-rs is a Rust binding over the C library libdisplay-info. The
C library does all EDID, CTA-861 and DisplayID decoding. The binding's own
work is the layer that turns the C library's results into typed Rust values:

- the `FFIFrom` derive macro, which generates a `From` conversion (and
  `from_ptr`) for each mirrored struct or enum, driven by the attributes
  `#[ffi(path)]`, `#[optional(sentinel)]`, `#[ptr_deref]`, `#[cast_as(T)]`,
  `#[other]` and `#[wrap]`;
- the walks over NULL-terminated pointer arrays: the hand-written
  `while` scans behind the slice accessors, and the `FFIIter` iterator;
- reading C strings, including the three `Info` getters that take ownership
  of a string and free it;
- the per-module accessors of `edid.rs`, `cta.rs`, `displayid.rs` and
  `info.rs`, which turn NULL pointers and zero values into `None`/`Err`.

This project models that layer and proves what it promises.

The representation:

- A C pointer is an `Option` of its pointee, with `None` for NULL.
- A NULL-terminated array of pointers is a `seq<Option<T>>` that contains a
  `None`.
- Every C record the library returns is a datatype in module `Ffi`. The
  foreign getter that would return it becomes a field of the handle's
  record. For example, `CEdid.standardTimings` is what
  `di_edid_get_standard_timings` returns.
- An `f32` is its IEEE 754 bit pattern (`CTypes.F32`). Rust's `==` on it is
  IEEE equality (`CTypes.FloatEq`): NaN equals nothing, and `-0.0 == 0.0`.

Modules, one file each:

| file | module | models |
|---|---|---|
| wrappers.dfy | `Wrappers` | `Option` and `Result` |
| ctypes.dfy | `CTypes` | integer widths, `c_char as u8`, `f32` and its `==` |
| lib.dfy | `Lib` | `libdisplay-info/src/lib.rs`: `FFIIter`, the C string readers, the NULL scans |
| derive.dfy | `Derive` | `libdisplay-info-derive/src/lib.rs`: parsing, the per-field rules, the errors, and what the generated code does |
| ffi.dfy | `Ffi` | the C records the binding reads |
| expanded.dfy | `Expanded` | the generated sentinel rule at the concrete field types, and its inverse |
| edid.dfy | `Edid` | `libdisplay-info/src/edid.rs` |
| cta.dfy | `Cta` | `libdisplay-info/src/cta.rs` |
| displayid.dfy | `DisplayId` | `libdisplay-info/src/displayid.rs` |
| info.dfy | `Info` | `libdisplay-info/src/info.rs` |

Each typed record (`VendorProduct`, `DetailedTimingDef`, `Sad`, ...) has three
parts:

- a `...From` function, the code the macro generates for that record;
- a `...ToRaw` function, which puts back the raw value a `None` field stands
  for;
- a `...Lossless` lemma: converting and then rebuilding gives back the C
  record.

An integer sentinel field loses nothing. A float field with the sentinel
`0f32` reads a negative zero as absent, so it comes back as `+0.0`. The
lemmas `Expanded.OptionalZeroLossless`, `Cta.HdrStaticMetadataBlockLossless`
and `DisplayId.DisplayParamsLossless` state exactly when this happens. It
happens only if the C side ever stores `-0.0`. That is a property of the
generated code, not an observed bug.

The link between the macro and the records comes from two kinds of lemmas:

- `Expanded.OptionalIsSentinelRule` and `OptionalF32IsSentinelRule` prove
  that the per-type sentinel functions are the macro's general sentinel rule
  (`Derive.ConvertField`).
- `Edid.ExtensionTagIsDerived` proves that `Edid.ExtensionTagFrom` is what
  the macro's enum conversion (`Derive.ConvertEnum`) produces for the
  `ExtensionTag` declaration.

## Model

| member | source | states |
|---|---|---|
| CTypes.AsU8 | libdisplay-info/src/edid.rs:180-181 | `c as u8` keeps the eight bits: a negative `c_char` becomes `c + 256`, any other is unchanged |
| CTypes.EqualsZeroIffSignedZero | libdisplay-info/src/edid.rs:63 | `x == 0f32` holds for exactly the two signed zeros, `+0.0` and `-0.0` |
| Lib.FirstNull | libdisplay-info/src/edid.rs:120-123 | the index of the first NULL entry of a NULL-terminated array; every entry before it is non-NULL |
| Lib.NonNullPrefix | libdisplay-info/src/edid.rs:117-128 | the pointees before the first NULL, in order; their count is the index of that NULL |
| Lib.FromRawParts | libdisplay-info/src/edid.rs:125-127 | `slice::from_raw_parts(p, len)` over `len` non-NULL pointers has length `len` and holds the pointees in order |
| Lib.NullTerminatedLen | libdisplay-info/src/edid.rs:120-123 | the `while` scan stops at the first NULL entry, so its result is the index of that entry |
| Lib.SliceUntilNull | libdisplay-info/src/edid.rs:117-128 | a slice accessor returns exactly the non-NULL entries before the first NULL |
| Lib.CStrLen | libdisplay-info/src/lib.rs:33 | `strlen`: the index of the first NUL byte; no earlier byte is NUL |
| Lib.StringFromFfiPtr | libdisplay-info/src/lib.rs:29-35 | `None` exactly for a NULL pointer; otherwise the bytes before the NUL, none of them NUL |
| Lib.CHeap.constructor | libdisplay-info/src/lib.rs:42-50 | an empty heap: the caller owns no C strings yet |
| Lib.CHeap.Strdup | libdisplay-info/src/info.rs:117 | an owned getter returns NULL exactly when it has no string; otherwise it returns a fresh allocation holding the string, and no other allocation changes |
| Lib.CHeap.Free | libdisplay-info/src/lib.rs:45-47 | `libc::free` removes exactly that allocation |
| Lib.StringFromOwnedFfiPtr | libdisplay-info/src/lib.rs:42-50 | the same result as `string_from_ffi_ptr`; the string is freed exactly when that result is `Some`, and nothing else is freed |
| Lib.FfiIter.constructor | libdisplay-info/src/lib.rs:58-66 | the items a new iterator will yield: none for a NULL base pointer; otherwise the converted entries before the first NULL, in order |
| Lib.FfiIter.Next | libdisplay-info/src/lib.rs:75-83 | `None` without moving at a NULL base or at the NULL entry; otherwise the converted entry at the cursor, with the cursor moved on by exactly one. After a `None`, every later call returns `None` |
| Derive.FindAttr | libdisplay-info-derive/src/lib.rs:313-316 | the first attribute with the given name; `None` exactly when there is none |
| Derive.Collect | libdisplay-info-derive/src/lib.rs:47-186 | `collect::<Result<Vec<_>>>()` succeeds exactly when every element does, and returns every result in order. Otherwise it fails with the error of the first element that fails |
| Derive.ParseField | libdisplay-info-derive/src/lib.rs:371-411 | fails exactly when a `cast_as` argument is not a type or an `optional` argument is not an expression; otherwise it records the three attributes and the field's name and type |
| Derive.ParseVariant | libdisplay-info-derive/src/lib.rs:413-430 | an `#[other]` variant has no discriminant, and any other variant must have one; the discriminant is kept |
| Derive.OtherVariants | libdisplay-info-derive/src/lib.rs:350-354 | lists exactly the variants without a discriminant |
| Derive.Parse | libdisplay-info-derive/src/lib.rs:310-368 | fails without `#[ffi]`, with an `ffi` argument that is not a path, and on an item that is neither a struct nor an enum. A struct parses exactly when every field does: it keeps the path, the ident, `#[wrap]` and the parsed fields in order, and otherwise fails with the first field's error. An enum fails with the first variant's error. It is rejected exactly when all its variants parse and more than one is `#[other]`. Otherwise it keeps the parsed variants in order |
| Derive.TwoOthersRejected | libdisplay-info-derive/src/lib.rs:350-357 | an enum with two `#[other]` variants is rejected with the single-`#[other]` error, whatever other attributes (`#[repr]`, `#[wrap]`) it carries besides `#[ffi(path)]` |
| Derive.ParseVariantErrors | libdisplay-info-derive/src/lib.rs:413-430 | a variant list that fails to parse fails with a missing or unexpected discriminant, never with the single-`#[other]` error |
| Derive.OtherVariantsCount | libdisplay-info-derive/src/lib.rs:350-355 | two variants without a discriminant give a count of at least two |
| Derive.OptionInner | libdisplay-info-derive/src/lib.rs:112-137 | the type `Option` is applied to, present exactly when the first angle-bracketed argument is a type |
| Derive.FieldRuleOf | libdisplay-info-derive/src/lib.rs:52-180 | the rule for each kind of field, and each compile error. An array needs an integer-literal length. `#[optional]` is only allowed on `Option`. An `Option` needs a bracketed type and then `#[optional]` or `#[ptr_deref]`, and `#[optional]` wins over `#[ptr_deref]`. Any other field is converted directly |
| Derive.Expand | libdisplay-info-derive/src/lib.rs:45-306 | a struct expands exactly when every field has a rule, keeps the rules in field order and keeps the path, the ident and `wrap`; otherwise it fails with the first field's error. An enum always expands to its match plan |
| Derive.DeriveRejects | libdisplay-info-derive/src/lib.rs:310-368 | a derive without `#[ffi(..)]`, or on something other than a struct or enum, fails |
| Derive.ConvertField | libdisplay-info-derive/src/lib.rs:52-180 | sentinel: `None` exactly when the raw value `==` the sentinel, else `Some(from(raw as cast))`. Pointer: `None` exactly for NULL, else `Some(from(*ptr))`. Array: same length, element `i` converted from raw element `i`, cast first. Direct: `from(raw as cast)` |
| Derive.ConvertStruct | libdisplay-info-derive/src/lib.rs:199-205 | the generated `From`: every field converted by its own rule, in order |
| Derive.FromPtr | libdisplay-info-derive/src/lib.rs:252-259 | the generated `from_ptr`: `None` exactly for NULL, else the conversion of the pointee |
| Derive.RefFromPtr | libdisplay-info-derive/src/lib.rs:230-238 | the `Ref` form of `from_ptr`: `None` exactly for NULL, else a reference to the pointee |
| Derive.RefAgreesWithValue | libdisplay-info-derive/src/lib.rs:213-238 | the `Ref` form and the value form agree: both are `None` together, and `inner()` of the reference is the value |
| Derive.MatchArms | libdisplay-info-derive/src/lib.rs:293-301 | the generated `match` takes the first arm whose discriminant `==` the raw value; `None` exactly when no arm matches |
| Derive.EnumConversion | libdisplay-info-derive/src/lib.rs:265-291 | a raw value equal to a listed discriminant converts to the first variant listing it. Any other value converts to the `#[other]` variant, or reaches `unreachable!()` when there is none |
| Derive.ArmsMatch | libdisplay-info-derive/src/lib.rs:266-276 | the arms kept from the variants with a discriminant select the first matching variant, and select none when no discriminant matches |
| Expanded.Optional | libdisplay-info-derive/src/lib.rs:149-155 | the integer sentinel rule: `None` exactly when the raw value equals the sentinel, else the raw value |
| Expanded.OptionalF32 | libdisplay-info-derive/src/lib.rs:149-155 | the `f32` sentinel rule: `None` exactly when the raw value `==` the sentinel in IEEE terms, else the raw value |
| Expanded.OptionalLossless | libdisplay-info-derive/src/lib.rs:149-155 | an integer sentinel field loses nothing: the raw value can be rebuilt from the result |
| Expanded.OptionalRoundTrip | libdisplay-info-derive/src/lib.rs:149-155 | every value except `Some(sentinel)` is the conversion of its own encoding |
| Expanded.OptionalZeroLossless | libdisplay-info/src/cta.rs:1314-1319 | against `0f32`, a float field can be rebuilt exactly when it is not `-0.0` |
| Expanded.OptionalZeroRoundTrip | libdisplay-info/src/cta.rs:1314-1319 | every value that is not `Some` of a zero is the conversion of its own encoding |
| Expanded.OptionalIsSentinelRule | libdisplay-info-derive/src/lib.rs:139-156 | `Optional` agrees with the macro's sentinel rule on every raw integer |
| Expanded.OptionalF32IsSentinelRule | libdisplay-info-derive/src/lib.rs:139-156 | `OptionalF32` agrees with the macro's sentinel rule on every raw `f32` |
| Edid.CharsFrom | libdisplay-info/src/edid.rs:180-181 | each of the three characters has the code of the raw `c_char` read as `u8` |
| Edid.CharsLossless | libdisplay-info/src/edid.rs:180-181 | the three raw `c_char`s can be rebuilt from the characters |
| Edid.VendorProductFrom | libdisplay-info/src/edid.rs:177-189 | `serial` and `model_year` are `None` exactly when the raw value is 0, else the raw value; the manufacturer characters are the bytes read as `u8` |
| Edid.VendorProductLossless | libdisplay-info/src/edid.rs:177-189 | the C record can be rebuilt from the converted record |
| Edid.VendorProductRoundTrip | libdisplay-info/src/edid.rs:177-189 | every record with byte characters and no `Some(0)` is the conversion of its own encoding |
| Edid.DetailedTimingDefFrom | libdisplay-info/src/edid.rs:471-500 | each border is `None` exactly when its raw value is 0, else the raw value. Each of the four signal sub-records is `None` exactly when its pointer is NULL, else the pointee |
| Edid.DetailedTimingDefLossless | libdisplay-info/src/edid.rs:471-500 | the C record can be rebuilt from the converted record |
| Edid.DetailedTimingDefRoundTrip | libdisplay-info/src/edid.rs:471-500 | every definition without a `Some(0)` border is the conversion of its own encoding |
| Edid.CvtAspectRatioFrom | libdisplay-info/src/edid.rs:673-677 | `from_bits_retain`: each of the 32 bits equals the raw bit, unnamed bits included |
| Edid.CvtScalingFrom | libdisplay-info/src/edid.rs:690-694 | `from_bits_retain`: each of the 32 bits equals the raw bit, unnamed bits included |
| Edid.CvtAspectRatioRoundTrip | libdisplay-info/src/edid.rs:673-677 | the conversion is a bijection between `u32` and the flag set |
| Edid.CvtScalingRoundTrip | libdisplay-info/src/edid.rs:690-694 | the conversion is a bijection between `u32` and the flag set |
| Edid.DisplayRangeLimitsCvtFrom | libdisplay-info/src/edid.rs:696-709 | `max_horiz_px` is `None` exactly when it is 0; the three flag sets keep every bit |
| Edid.DisplayRangeLimitsFrom | libdisplay-info/src/edid.rs:711-726 | `max_pixel_clock_hz` is `None` exactly when it is 0. `secondary_gtf` and `cvt` are `None` exactly when their pointers are NULL, else the pointee converted |
| Edid.DisplayRangeLimitsLossless | libdisplay-info/src/edid.rs:711-726 | the C record, with its CVT sub-record, can be rebuilt from the converted record |
| Edid.ExtensionTagFrom | libdisplay-info/src/edid.rs:796-811 | total: `Unknown` exactly for a raw tag outside the eight listed, otherwise the variant whose value is the raw tag |
| Edid.ExtensionTagRoundTrip | libdisplay-info/src/edid.rs:796-811 | every listed variant is the conversion of its own value |
| Edid.UnlistedIsDerived | libdisplay-info/src/edid.rs:796-811 | by the macro's enum rule, an unlisted raw tag takes the `#[other]` arm, `Unknown` |
| Edid.ListedIsDerived | libdisplay-info/src/edid.rs:796-811 | by the macro's enum rule, each listed value takes its own variant's arm |
| Edid.ExtensionTagIsDerived | libdisplay-info/src/edid.rs:796-811 | `ExtensionTagFrom` is exactly the conversion the macro generates for the `ExtensionTag` declaration, on every raw `u32` |
| Edid.DisplayDescriptorRef.RangeLimits | libdisplay-info/src/edid.rs:547-556 | `None` exactly when the C getter returns NULL, else the converted record |
| Edid.DisplayDescriptorRef.StandardTimings | libdisplay-info/src/edid.rs:562-581 | `None` exactly when the list pointer is NULL, else the entries before the first NULL |
| Edid.ExtensionRef.Tag | libdisplay-info/src/edid.rs:819-821 | never fails: `Unknown` exactly for an unlisted tag, else the variant of the raw tag |
| Edid.Edid.VendorProduct | libdisplay-info/src/edid.rs:30-32 | the converted record, from which the C record can be rebuilt; serial and model year are absent exactly when 0 |
| Edid.Edid.BasicGamma | libdisplay-info/src/edid.rs:60-68 | `None` exactly when the raw gamma `== 0f32`, which means `+0.0` or `-0.0`; otherwise the raw value unchanged |
| Edid.Edid.StandardTimings | libdisplay-info/src/edid.rs:117-128 | length is the index of the first NULL; every entry is the non-NULL pointee at its index |
| Edid.Edid.DetailedTimingDefs | libdisplay-info/src/edid.rs:131-133 | a fresh iterator that yields the converted definitions before the first NULL, in order |
| Edid.Edid.DisplayDescriptors | libdisplay-info/src/edid.rs:136-150 | length is the index of the first NULL; every entry refers to the non-NULL descriptor at its index |
| Edid.Edid.Extensions | libdisplay-info/src/edid.rs:153-162 | length is the index of the first NULL; every entry refers to the non-NULL extension at its index |
| Edid.EdidFromPtr | libdisplay-info/src/edid.rs:164-173 | `None` exactly for a NULL pointer, else a handle on the pointee |
| Cta.Cta.DataBlocks | libdisplay-info/src/cta.rs:48-57 | length is the index of the first NULL; every entry refers to the non-NULL block at its index |
| Cta.Cta.DetailedTimingDefs | libdisplay-info/src/cta.rs:60-65 | a fresh iterator that yields the converted definitions before the first NULL, in order |
| Cta.FromExtension | libdisplay-info/src/cta.rs:22-33 | `None` exactly when the C lookup returns NULL, else a handle on the CTA block |
| Cta.VideoFormatFromVic | libdisplay-info/src/cta.rs:112-120 | `None` exactly when the VIC lookup returns NULL, else the format it returns |
| Cta.TagAt | libdisplay-info/src/cta.rs:507-544 | the variant at each declaration position, the inverse of the position |
| Cta.DataBlockTagFrom | libdisplay-info/src/cta.rs:504-544 | defined only for the 27 listed constants (any other value is `unreachable!()`); gives the variant whose constant is the raw tag |
| Cta.DataBlockTagRoundTrip | libdisplay-info/src/cta.rs:504-544 | every variant's constant is listed and converts back to that variant |
| Cta.DataBlockTagInjective | libdisplay-info/src/cta.rs:504-544 | two listed constants that convert to the same variant are equal |
| Cta.SadFrom | libdisplay-info/src/cta.rs:670-697 | `max_channels` and `max_bitrate_kbs` are `None` exactly when 0, else the raw value. Each of the nine format sub-records is `None` exactly when its pointer is NULL, else the pointee |
| Cta.SadLossless | libdisplay-info/src/cta.rs:670-697 | the C record can be rebuilt from the converted record |
| Cta.ChromaticitiesFrom | libdisplay-info/src/cta.rs:1229 | all three array entries are copied |
| Cta.VesaDisplayDeviceBlockFrom | libdisplay-info/src/cta.rs:1191-1234 | `num_channels` and `frame_rate_range_hz` are `None` exactly when 0. All three additional chromaticities are copied. Their length field is passed through unchanged |
| Cta.VesaDisplayDeviceBlockLossless | libdisplay-info/src/cta.rs:1191-1234 | the C record can be rebuilt from the converted record |
| Cta.HdrStaticMetadataBlockFrom | libdisplay-info/src/cta.rs:1310-1324 | each luminance is `None` exactly when its raw value `== 0f32`; `eotfs` and `descriptors` are `None` exactly when NULL, else the pointee |
| Cta.HdrStaticMetadataBlockLossless | libdisplay-info/src/cta.rs:1310-1324 | the C record can be rebuilt exactly when no luminance is `-0.0` |
| Cta.VendorHdmiBlockRef.Vics | libdisplay-info/src/cta.rs:2018-2024 | exactly `vics_len` bytes, the first `vics_len` of the C array |
| Cta.VendorHdmiBlockRefFromPtr | libdisplay-info/src/cta.rs:475-476 | `None` exactly for a NULL pointer, else a reference to the block |
| Cta.DataBlockRef.Tag | libdisplay-info/src/cta.rs:150-152 | defined for a listed tag constant, and gives the variant whose constant that is |
| Cta.DataBlockRef.Sads | libdisplay-info/src/cta.rs:161-163 | a fresh iterator: empty for a NULL list, else the converted descriptors before the first NULL, in order |
| Cta.DataBlockRef.VesaDisplayDevice | libdisplay-info/src/cta.rs:209-213 | `None` exactly when the C getter returns NULL, else the converted block |
| Cta.DataBlockRef.HdrStaticMetadata | libdisplay-info/src/cta.rs:225-229 | `None` exactly when the C getter returns NULL, else the converted block |
| Cta.DataBlockRef.VendorHdmi | libdisplay-info/src/cta.rs:475-476 | `None` exactly when the C getter returns NULL, else a reference to the block |
| DisplayId.ProductTypeValue | libdisplay-info-sys/src/displayid.rs:17-29 | each product type's C constant, one of 0 to 6 |
| DisplayId.ProductTypeFrom | libdisplay-info/src/displayid.rs:61-75 | defined for 0 to 6 (no `#[other]`); gives the product type whose constant is the raw value |
| DisplayId.ProductTypeRoundTrip | libdisplay-info/src/displayid.rs:61-75 | every product type is the conversion of its own constant |
| DisplayId.DataBlockTagValue | libdisplay-info-sys/src/displayid.rs:38-77 | each tag's C constant, one of 0 to 19 |
| DisplayId.DataBlockTagFrom | libdisplay-info/src/displayid.rs:77-115 | defined for 0 to 19 (no `#[other]`); gives the tag whose constant is the raw value |
| DisplayId.DataBlockTagRoundTrip | libdisplay-info/src/displayid.rs:77-115 | every tag is the conversion of its own constant, so the conversion maps 0 to 19 one-to-one onto the 20 tags |
| DisplayId.DisplayParamsFrom | libdisplay-info/src/displayid.rs:169-184 | `gamma` is `None` exactly when it `== 0f32`, else unchanged; `features` is `None` exactly when its pointer is NULL |
| DisplayId.DisplayParamsLossless | libdisplay-info/src/displayid.rs:169-184 | the C record can be rebuilt exactly when the gamma is not `-0.0` |
| DisplayId.TiledTopoFrom | libdisplay-info/src/displayid.rs:282-300 | `caps` and `bezel` are `None` exactly when NULL; the vendor characters are the bytes read as `u8`; the tile locations are passed through unchanged |
| DisplayId.TiledTopoLossless | libdisplay-info/src/displayid.rs:282-300 | the C record can be rebuilt from the converted record |
| DisplayId.DataBlockRef.Tag | libdisplay-info/src/displayid.rs:123-125 | defined for tags 0 to 19, and gives the tag of that value |
| DisplayId.DataBlockRef.DisplayParams | libdisplay-info/src/displayid.rs:131-135 | `None` exactly when the C getter returns NULL, else the converted record |
| DisplayId.DataBlockRef.TiledTopo | libdisplay-info/src/displayid.rs:148-152 | `None` exactly when the C getter returns NULL, else the converted record |
| DisplayId.DisplayId.ProductType | libdisplay-info/src/displayid.rs:44-46 | defined for 0 to 6, and gives the product type of that value |
| DisplayId.DisplayId.DataBlocks | libdisplay-info/src/displayid.rs:49-58 | length is the index of the first NULL; every entry refers to the non-NULL block at its index |
| DisplayId.FromExtension | libdisplay-info/src/displayid.rs:20-31 | `None` exactly when the C lookup returns NULL, else a handle on the DisplayID block |
| Info.ParseEdid | libdisplay-info/src/info.rs:70-80 | `Err(ParseFailed)` exactly when the C parser returns NULL, else a handle on what it returned |
| Info.TakeOwnedString | libdisplay-info/src/info.rs:116-118 | an owned getter followed by `string_from_owned_ffi_ptr`: the bytes of the string, or `None` exactly when there is none; the copy is freed, so the caller's allocations are as before |
| Info.Info.FailureMsg | libdisplay-info/src/info.rs:85-93 | `None` exactly when the message pointer is NULL, else the bytes before its NUL |
| Info.Info.Edid | libdisplay-info/src/info.rs:102-104 | `None` exactly when the EDID pointer is NULL, else a handle on it |
| Info.Info.Make | libdisplay-info/src/info.rs:116-118 | `None` exactly when the C string is NULL, else its bytes; the copy is freed |
| Info.Info.Model | libdisplay-info/src/info.rs:130-132 | `None` exactly when the C string is NULL, else its bytes; the copy is freed |
| Info.Info.Serial | libdisplay-info/src/info.rs:144-146 | `None` exactly when the C string is NULL, else its bytes; the copy is freed |
| Info.Info.DefaultGamma | libdisplay-info/src/info.rs:216-224 | `None` exactly when the raw value `== 0f32`, which means `+0.0` or `-0.0`; otherwise unchanged |

## Left out

- All decoding done by the C library is left out. This covers the EDID base block and checksums, CTA-861 data blocks, DisplayID parsing and the DMT and VIC tables. It is reached only through foreign calls. Its results are inputs: the records in module `Ffi`, and the lookup function `VideoFormatFromVic` takes.
- `libdisplay-info/src/gtf.rs` and `libdisplay-info/src/cvt.rs` are not part of this model. They copy options into a C struct and call a foreign floating-point computation.
- UTF-8 handling is left out. `to_string_lossy` is not modelled, so a string is its bytes before the NUL.
- Fields whose type is a C enum (`AudioFormat`, the timing stereo mode, the VESA device enums, ...) are kept as their raw `u32`. Their own `From` conversions are not modelled.
- `VendorHdmiBlockRef::inner` is left out. The block's mirrored fields are all plain values, so `Cta.VendorHdmiBlockRef.Inner` returns them as they are, with no contract.
- `Drop` and `di_info_destroy` are left out, as are lifetimes and raw-pointer aliasing. A handle is the record it points to.
- The `v0_2` and `v0_3` duplicates in `cta.rs` are left out. The `v0_3` feature set is modelled.
- `Cta.DataBlockTagFrom`: the numeric values of the 27 CTA data block tag constants come from C headers that are not part of this model. The model takes them as a parameter, any 27 distinct `u32` values, and proves the conversion for every such choice.
- `Edid.ExtensionTagValue`: the eight `di_edid_ext_tag` constants come from a C header that is not part of this model. Unlike the CTA tags, they are fixed by section 2.2.4 of VESA E-EDID (0x02, 0x10, 0x40, 0x50, 0x60, 0xF0, 0xFF and 0x70 for DisplayID), and the model takes them from there.
- `Edid.CvtAspectRatioFrom`, `Edid.CvtScalingFrom`: the named flag constants (`_4_3`, `HorizShrink`, ...) are not modelled. Their values come from the same C headers. Only bit retention is stated.
- `Derive.Parse`: attributes are modelled as already parsed (`syn` and `quote` token handling is left out). `Parse` takes, for each attribute, what its arguments read as a path, a type or an expression.
- `Derive.ConvertField`: the `From` impl of each field type is kept symbolic (`VFrom`), because the macro does not define it.
- `Derive.FieldRuleOf`: an array length that does not fit a `usize` is an error, as `base10_parse::<usize>` reports; `usize` is taken as 64 bits.
- Accessors outside the conversion layer's core are left out: `version`/`revision`, the other display descriptor getters, the other CTA block getters, `type_i_timings`, and `Info::hdr_static_metadata`/`default_color_primaries`/`supported_signal_colorimetry`. They follow the same rules as the modelled ones.
- `StandardTimingRef` is its record (`Ffi.StandardTiming`). `vert_video` and `dmt` call into C and are not modelled.
- The DisplayID `DataBlockTag` declares `#[ffi(ffi::displayid::di_displayid_product_type)]`, which is the product-type C type, not the data-block-tag type. Both are `c_uint`, so the model converts from `u32` and the mismatch has no effect.
