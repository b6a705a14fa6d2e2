/**
 * The DisplayID half of the binding: the `DisplayId` handle, its data
 * blocks, the product-type and data-block tags, and the typed display
 * parameters and tiled topology records.
 */
module DisplayId {
  import opened Wrappers
  import opened CTypes
  import opened Ffi
  import opened Lib
  import opened Expanded
  import Edid

  // ---------------------------------------------------------------------
  // Product type
  // ---------------------------------------------------------------------

  /** `ProductType`: no `#[other]` variant. */
  datatype ProductType =
    Extension | Test | DisplayPanel | StandaloneDisplay | TvReceiver | Repeater | DirectDrive

  /** The `di_displayid_product_type` value of a variant. */
  function ProductTypeValue(p: ProductType): (raw: u32)
    ensures raw < 7
  {
    match p
    case Extension => 0 case Test => 1 case DisplayPanel => 2 case StandaloneDisplay => 3
    case TvReceiver => 4 case Repeater => 5 case DirectDrive => 6
  }

  /** `ProductType::from`, defined on the seven listed values; any other reaches `unreachable!()`. */
  function ProductTypeFrom(raw: u32): (p: ProductType)
    requires raw < 7
    ensures ProductTypeValue(p) == raw
  {
    [Extension, Test, DisplayPanel, StandaloneDisplay, TvReceiver, Repeater, DirectDrive][raw]
  }

  /** Every product type is the conversion of its own value. */
  lemma ProductTypeRoundTrip(p: ProductType)
    ensures ProductTypeFrom(ProductTypeValue(p)) == p
  {
  }

  // ---------------------------------------------------------------------
  // Data block tags
  // ---------------------------------------------------------------------

  /** `DataBlockTag`: 20 variants and no `#[other]` variant. */
  datatype DataBlockTag =
    | ProductId | DisplayParams | ColorCharact | TypeITiming | TypeIITiming | TypeIIITiming
    | TypIVTiming | VesaTiming | CeaTiming | TimingRangeLimits | ProductSerial | AsciiString
    | DisplayDeviceData | InterfacePowerSeq | TransferCharact | DisplayInterface
    | StereoDisplayInterface | TypeVTiming | TiledDisplayTopo | TypeVITiming

  /** The `di_displayid_data_block_tag` value of a variant. */
  function DataBlockTagValue(t: DataBlockTag): (raw: u32)
    ensures raw < 20
  {
    match t
    case ProductId => 0 case DisplayParams => 1 case ColorCharact => 2 case TypeITiming => 3
    case TypeIITiming => 4 case TypeIIITiming => 5 case TypIVTiming => 6 case VesaTiming => 7
    case CeaTiming => 8 case TimingRangeLimits => 9 case ProductSerial => 10 case AsciiString => 11
    case DisplayDeviceData => 12 case InterfacePowerSeq => 13 case TransferCharact => 14
    case DisplayInterface => 15 case StereoDisplayInterface => 16 case TypeVTiming => 17
    case TiledDisplayTopo => 18 case TypeVITiming => 19
  }

  /** `DataBlockTag::from`, defined on the tags 0 to 19; any other reaches `unreachable!()`. */
  function DataBlockTagFrom(raw: u32): (t: DataBlockTag)
    requires raw < 20
    ensures DataBlockTagValue(t) == raw
  {
    [ProductId, DataBlockTag.DisplayParams, ColorCharact, TypeITiming, TypeIITiming, TypeIIITiming,
     TypIVTiming, VesaTiming, CeaTiming, TimingRangeLimits, ProductSerial, AsciiString,
     DisplayDeviceData, InterfacePowerSeq, TransferCharact, DisplayInterface,
     StereoDisplayInterface, TypeVTiming, TiledDisplayTopo, TypeVITiming][raw]
  }

  /** Every variant is the conversion of its own value: with `DataBlockTagFrom` a bijection onto 0..19. */
  lemma DataBlockTagRoundTrip(t: DataBlockTag)
    ensures DataBlockTagFrom(DataBlockTagValue(t)) == t
  {
  }

  // ---------------------------------------------------------------------
  // Display parameters
  // ---------------------------------------------------------------------

  datatype DisplayParams = DisplayParams(
    horizImageMm: F32,
    vertImageMm: F32,
    horizPixels: i32,
    vertPixels: i32,
    features: Option<DisplayParamsFeatures>,
    gamma: Option<F32>,
    aspectRatio: F32,
    bitsPerColorOverall: i32,
    bitsPerColorNative: i32)

  /** `DisplayParams::from`: `gamma` is absent when it `== 0f32`, `features` exactly when its pointer is NULL. */
  function DisplayParamsFrom(raw: RawDisplayParams): (p: DisplayParams)
    ensures p.gamma.None? <==> raw.gamma == POSITIVE_ZERO || raw.gamma == NEGATIVE_ZERO
    ensures p.gamma.Some? ==> p.gamma.value == raw.gamma
    ensures p.features.None? <==> raw.features.None?
    ensures p.features.Some? ==> p.features.value == raw.features.value
  {
    EqualsZeroIffSignedZero(raw.gamma);
    DisplayParams.DisplayParams(
      raw.horizImageMm,
      raw.vertImageMm,
      raw.horizPixels,
      raw.vertPixels,
      raw.features,
      OptionalF32(raw.gamma, POSITIVE_ZERO),
      raw.aspectRatio,
      raw.bitsPerColorOverall,
      raw.bitsPerColorNative)
  }

  function DisplayParamsToRaw(p: DisplayParams): RawDisplayParams {
    RawDisplayParams(
      p.horizImageMm, p.vertImageMm, p.horizPixels, p.vertPixels, p.features,
      OrSentinel(p.gamma, POSITIVE_ZERO),
      p.aspectRatio, p.bitsPerColorOverall, p.bitsPerColorNative)
  }

  /** The conversion loses something exactly when the gamma is a negative zero. */
  lemma DisplayParamsLossless(raw: RawDisplayParams)
    ensures DisplayParamsToRaw(DisplayParamsFrom(raw)) == raw <==> raw.gamma != NEGATIVE_ZERO
  {
    OptionalZeroLossless(raw.gamma);
  }

  // ---------------------------------------------------------------------
  // Tiled topology
  // ---------------------------------------------------------------------

  datatype TiledTopo = TiledTopo(
    caps: Option<TiledTopoCaps>,
    totalHorizTiles: i32,
    totalVertTiles: i32,
    horizTileLocation: i32,
    vertTileLocation: i32,
    horizTilePixels: i32,
    vertTileLines: i32,
    bezel: Option<TiledTopoBezel>,
    vendorId: Edid.Chars3,
    productCode: u16,
    serialNumber: u32)

  /**
   * `TiledTopo::from`: `caps` and `bezel` are absent exactly when their
   * pointers are NULL; the vendor id's characters are the C characters read
   * as `u8`; the tile locations are passed through as they are.
   */
  function TiledTopoFrom(raw: RawTiledTopo): (t: TiledTopo)
    ensures t.caps.None? <==> raw.caps.None?
    ensures t.caps.Some? ==> t.caps.value == raw.caps.value
    ensures t.bezel.None? <==> raw.bezel.None?
    ensures t.bezel.Some? ==> t.bezel.value == raw.bezel.value
    ensures forall i :: 0 <= i < 3 ==> t.vendorId[i] as int == AsU8(raw.vendorId[i])
    ensures t.horizTileLocation == raw.horizTileLocation && t.vertTileLocation == raw.vertTileLocation
  {
    TiledTopo.TiledTopo(
      raw.caps,
      raw.totalHorizTiles,
      raw.totalVertTiles,
      raw.horizTileLocation,
      raw.vertTileLocation,
      raw.horizTilePixels,
      raw.vertTileLines,
      raw.bezel,
      Edid.CharsFrom(raw.vendorId),
      raw.productCode,
      raw.serialNumber)
  }

  function TiledTopoToRaw(t: TiledTopo): RawTiledTopo
    requires Edid.ByteChars(t.vendorId)
  {
    RawTiledTopo(
      t.caps, t.totalHorizTiles, t.totalVertTiles, t.horizTileLocation, t.vertTileLocation,
      t.horizTilePixels, t.vertTileLines, t.bezel, Edid.CharsToRaw(t.vendorId),
      t.productCode, t.serialNumber)
  }

  /** The conversion loses nothing. */
  lemma TiledTopoLossless(raw: RawTiledTopo)
    ensures TiledTopoToRaw(TiledTopoFrom(raw)) == raw
  {
    Edid.CharsLossless(raw.vendorId);
  }

  // ---------------------------------------------------------------------
  // The DisplayID handle and its data blocks
  // ---------------------------------------------------------------------

  /** `DataBlockRef`: a pointer to a DisplayID data block. */
  datatype DataBlockRef = DataBlockRef(c: CDisplayIdDataBlock) {

    /** `tag`: defined for the tags 0 to 19 only. */
    function Tag(): (t: DataBlockTag)
      requires c.tag < 20
      ensures DataBlockTagValue(t) == c.tag
    {
      DataBlockTagFrom(c.tag)
    }

    /** `display_params`: `None` exactly when the C getter returns NULL. */
    function DisplayParams(): (p: Option<DisplayParams>)
      ensures p.None? <==> c.displayParams.None?
      ensures p.Some? ==> p.value == DisplayParamsFrom(c.displayParams.value)
    {
      if c.displayParams.None? then None else Some(DisplayParamsFrom(c.displayParams.value))
    }

    /** `tiled_topo`: `None` exactly when the C getter returns NULL. */
    function TiledTopo(): (t: Option<TiledTopo>)
      ensures t.None? <==> c.tiledTopo.None?
      ensures t.Some? ==> t.value == TiledTopoFrom(c.tiledTopo.value)
    {
      if c.tiledTopo.None? then None else Some(TiledTopoFrom(c.tiledTopo.value))
    }
  }

  /** `DisplayId`: a handle on a DisplayID extension block. */
  datatype DisplayId = DisplayId(c: CDisplayId) {

    /** `product_type`: defined for the values 0 to 6 only. */
    function ProductType(): (p: ProductType)
      requires c.productType < 7
      ensures ProductTypeValue(p) == c.productType
    {
      ProductTypeFrom(c.productType)
    }

    /** `data_blocks`: the entries before the first NULL, every one non-NULL. */
    method DataBlocks() returns (blocks: seq<DataBlockRef>)
      requires NullTerminated(c.dataBlocks)
      ensures |blocks| == FirstNull(c.dataBlocks)
      ensures forall i :: 0 <= i < |blocks| ==> c.dataBlocks[i] == Some(blocks[i].c)
    {
      var len := NullTerminatedLen(c.dataBlocks);
      blocks := seq(len, i requires 0 <= i < len => DataBlockRef(c.dataBlocks[i].value));
    }
  }

  /** `DisplayId::from_extension`: `None` exactly when the block is not a DisplayID block. */
  function FromExtension(ext: Edid.ExtensionRef): (d: Option<DisplayId>)
    ensures d.None? <==> ext.c.displayId.None?
    ensures d.Some? ==> d.value.c == ext.c.displayId.value
  {
    if ext.c.displayId.None? then None else Some(DisplayId(ext.c.displayId.value))
  }
}
