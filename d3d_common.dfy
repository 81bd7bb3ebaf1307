/** Direct3D helpers shared by the D3D11 and D3D12 graphics plugins: the LUID
    comparison and the table of DXGI swapchain formats the tests know. */
module D3DCommon {
  import opened Wrappers

  // ---------------------------------------------------------------------------
  // LUID
  // ---------------------------------------------------------------------------

  const TwoTo32: int := 0x1_0000_0000
  const TwoTo64: int := 0x1_0000_0000_0000_0000

  /** The Windows integer types of a LUID and the uint64_t it is compared with. */
  type Dword = x: int | 0 <= x < TwoTo32
  type Long = x: int | -0x8000_0000 <= x < 0x8000_0000
  type Uint64 = x: int | 0 <= x < TwoTo64

  /** A Windows LUID: a DWORD low part and a signed LONG high part. */
  datatype Luid = Luid(lowPart: Dword, highPart: Long)

  /** The conversion of a LONG to uint64_t: a negative value wraps modulo 2^64
      (sign extension). */
  function ToUint64(x: Long): Uint64 {
    if x < 0 then x + TwoTo64 else x
  }

  /** `x << 32` on uint64_t: the bits shifted past bit 63 are lost. */
  function ShiftLeft32(x: Uint64): Uint64 {
    (x * TwoTo32) % TwoTo64
  }

  /** operator==(LUID, uint64_t): the high part shifted left by 32, or-ed with the low
      part, equals the id. The shifted value has its low 32 bits clear, so the or is
      the sum. */
  predicate LuidEquals(luid: Luid, id: Uint64) {
    ShiftLeft32(ToUint64(luid.highPart)) + luid.lowPart == id
  }

  /** The sign extension is shifted out: a LUID equals exactly the id whose upper 32
      bits are its high part's 32-bit pattern and whose lower 32 bits are its low part. */
  lemma LuidEqualsHalves(luid: Luid, id: Uint64)
    ensures LuidEquals(luid, id) <==> id / TwoTo32 == luid.highPart % TwoTo32 && id % TwoTo32 == luid.lowPart
  {
    assert ShiftLeft32(ToUint64(luid.highPart)) == (luid.highPart % TwoTo32) * TwoTo32;
  }

  /** At most one LUID equals a given id. */
  lemma LuidEqualsInjective(a: Luid, b: Luid, id: Uint64)
    requires LuidEquals(a, id) && LuidEquals(b, id)
    ensures a == b
  {
    LuidEqualsHalves(a, id);
    LuidEqualsHalves(b, id);
  }

  // ---------------------------------------------------------------------------
  // The DXGI swapchain format table
  // ---------------------------------------------------------------------------

  /** What a format is used for in the swapchain tests. */
  datatype Usage = ColorUsage | DepthUsage | DepthStencilUsage

  /** The colour channels a format's test checks (none for the depth formats). */
  datatype Channels = NoColor | Red | Green | Alpha | RG | RGB | RGBA

  /** The integer kind of an integer format. */
  datatype IntKind = U8 | S8 | U16 | S16 | U32 | S32 | URGB10A2

  /** SwapchainCreateTestParameters apart from the name: the colour channels, the
      integer kind, whether the format is typeless (`mutableFormat`), whether
      mutable-format creation is excluded, whether it is block compressed, its usage,
      and the typeless format the runtime is expected to create it with. */
  datatype FormatTraits = FormatTraits(channels: Channels, integer: Option<IntKind>, typeless: bool, notMutable: bool,
                                       compressed: bool, usage: Usage, expected: Option<int>)

  /** The table's entry for a format: its DXGI_FORMAT name and its traits. */
  datatype FormatEntry = FormatEntry(name: string, traits: FormatTraits)

  /** The traits each format of GetDxgiSwapchainTestMap is built with, by DXGI_FORMAT code; split by code range so that each lookup unfolds one
      range only. */
  function Traits(imageFormat: int): Option<FormatTraits> {
    if imageFormat < 20 then Traits0To19(imageFormat)
    else if imageFormat < 40 then Traits20To39(imageFormat)
    else if imageFormat < 60 then Traits40To59(imageFormat)
    else if imageFormat < 80 then Traits60To79(imageFormat)
    else if imageFormat < 100 then Traits80To99(imageFormat)
    else Traits100To199(imageFormat)
  }

  function Traits0To19(imageFormat: int): Option<FormatTraits> {
    match imageFormat
    case 1 => Some(FormatTraits(RGBA, None, true, false, false, ColorUsage, None))
    case 2 => Some(FormatTraits(RGBA, None, false, false, false, ColorUsage, Some(1)))
    case 3 => Some(FormatTraits(RGBA, Some(U32), false, false, false, ColorUsage, Some(1)))
    case 4 => Some(FormatTraits(RGBA, Some(S32), false, false, false, ColorUsage, Some(1)))
    case 5 => Some(FormatTraits(RGB, None, true, false, false, ColorUsage, None))
    case 6 => Some(FormatTraits(RGB, None, false, false, false, ColorUsage, Some(5)))
    case 7 => Some(FormatTraits(RGB, Some(U32), false, false, false, ColorUsage, Some(5)))
    case 8 => Some(FormatTraits(RGB, Some(S32), false, false, false, ColorUsage, Some(5)))
    case 9 => Some(FormatTraits(RGBA, None, true, false, false, ColorUsage, None))
    case 10 => Some(FormatTraits(RGBA, None, false, false, false, ColorUsage, Some(9)))
    case 12 => Some(FormatTraits(RGBA, Some(U16), false, false, false, ColorUsage, Some(9)))
    case 14 => Some(FormatTraits(RGBA, Some(S16), false, false, false, ColorUsage, Some(9)))
    case 11 => Some(FormatTraits(RGBA, None, false, false, false, ColorUsage, Some(9)))
    case 13 => Some(FormatTraits(RGBA, None, false, false, false, ColorUsage, Some(9)))
    case 15 => Some(FormatTraits(RG, None, true, false, false, ColorUsage, None))
    case 16 => Some(FormatTraits(RG, None, false, false, false, ColorUsage, Some(15)))
    case 17 => Some(FormatTraits(RG, Some(U32), false, false, false, ColorUsage, Some(15)))
    case 18 => Some(FormatTraits(RG, Some(S32), false, false, false, ColorUsage, Some(15)))
    case 19 => Some(FormatTraits(RG, None, true, false, false, ColorUsage, None))
    case _ => None
  }

  function Traits20To39(imageFormat: int): Option<FormatTraits> {
    match imageFormat
    case 20 => Some(FormatTraits(NoColor, None, false, false, false, DepthStencilUsage, Some(19)))
    case 21 => Some(FormatTraits(Red, None, true, false, false, ColorUsage, None))
    case 22 => Some(FormatTraits(Green, Some(U8), false, false, false, ColorUsage, Some(21)))
    case 23 => Some(FormatTraits(RGBA, None, true, false, false, ColorUsage, None))
    case 24 => Some(FormatTraits(RGBA, None, false, false, false, ColorUsage, Some(23)))
    case 25 => Some(FormatTraits(RGBA, Some(URGB10A2), false, false, false, ColorUsage, Some(23)))
    case 26 => Some(FormatTraits(RGB, None, false, true, false, ColorUsage, None))
    case 27 => Some(FormatTraits(RGBA, None, true, false, false, ColorUsage, None))
    case 28 => Some(FormatTraits(RGBA, None, false, false, false, ColorUsage, Some(27)))
    case 29 => Some(FormatTraits(RGBA, None, false, false, false, ColorUsage, Some(27)))
    case 30 => Some(FormatTraits(RGBA, Some(U8), false, false, false, ColorUsage, Some(27)))
    case 32 => Some(FormatTraits(RGBA, Some(S8), false, false, false, ColorUsage, Some(27)))
    case 31 => Some(FormatTraits(RGBA, None, false, false, false, ColorUsage, Some(27)))
    case 33 => Some(FormatTraits(RG, None, true, false, false, ColorUsage, None))
    case 34 => Some(FormatTraits(RG, None, false, false, false, ColorUsage, Some(33)))
    case 36 => Some(FormatTraits(RG, Some(U16), false, false, false, ColorUsage, Some(33)))
    case 38 => Some(FormatTraits(RG, Some(S16), false, false, false, ColorUsage, Some(33)))
    case 35 => Some(FormatTraits(RG, None, false, false, false, ColorUsage, Some(33)))
    case 37 => Some(FormatTraits(RG, None, false, false, false, ColorUsage, Some(33)))
    case 39 => Some(FormatTraits(Red, None, true, false, false, ColorUsage, None))
    case _ => None
  }

  function Traits40To59(imageFormat: int): Option<FormatTraits> {
    match imageFormat
    case 41 => Some(FormatTraits(Red, None, false, false, false, ColorUsage, Some(39)))
    case 40 => Some(FormatTraits(NoColor, None, false, false, false, DepthUsage, Some(39)))
    case 42 => Some(FormatTraits(Red, Some(U32), false, false, false, ColorUsage, Some(39)))
    case 43 => Some(FormatTraits(Red, Some(S32), false, false, false, ColorUsage, Some(39)))
    case 44 => Some(FormatTraits(RG, None, true, false, false, ColorUsage, None))
    case 45 => Some(FormatTraits(NoColor, None, false, false, false, DepthUsage, Some(44)))
    case 46 => Some(FormatTraits(Red, None, false, false, false, ColorUsage, Some(44)))
    case 47 => Some(FormatTraits(Green, Some(U8), false, false, false, ColorUsage, Some(44)))
    case 48 => Some(FormatTraits(RG, None, true, false, false, ColorUsage, None))
    case 50 => Some(FormatTraits(RG, Some(U8), false, false, false, ColorUsage, Some(48)))
    case 52 => Some(FormatTraits(RG, Some(S8), false, false, false, ColorUsage, Some(48)))
    case 49 => Some(FormatTraits(RG, None, false, false, false, ColorUsage, Some(48)))
    case 51 => Some(FormatTraits(RG, None, false, false, false, ColorUsage, Some(48)))
    case 53 => Some(FormatTraits(Red, None, true, false, false, ColorUsage, None))
    case 54 => Some(FormatTraits(Red, None, false, false, false, ColorUsage, Some(53)))
    case 55 => Some(FormatTraits(NoColor, None, false, false, false, DepthUsage, Some(53)))
    case 57 => Some(FormatTraits(Red, Some(U16), false, false, false, ColorUsage, Some(53)))
    case 59 => Some(FormatTraits(Red, Some(S16), false, false, false, ColorUsage, Some(53)))
    case 56 => Some(FormatTraits(Red, None, false, false, false, ColorUsage, Some(53)))
    case 58 => Some(FormatTraits(Red, None, false, false, false, ColorUsage, Some(53)))
    case _ => None
  }

  function Traits60To79(imageFormat: int): Option<FormatTraits> {
    match imageFormat
    case 60 => Some(FormatTraits(Red, None, true, false, false, ColorUsage, None))
    case 62 => Some(FormatTraits(Red, Some(U8), false, false, false, ColorUsage, Some(60)))
    case 64 => Some(FormatTraits(Red, Some(S8), false, false, false, ColorUsage, Some(60)))
    case 61 => Some(FormatTraits(Red, None, false, false, false, ColorUsage, Some(60)))
    case 63 => Some(FormatTraits(Red, None, false, false, false, ColorUsage, Some(60)))
    case 65 => Some(FormatTraits(Alpha, None, false, false, false, ColorUsage, Some(60)))
    case 66 => Some(FormatTraits(Red, None, false, false, false, ColorUsage, None))
    case 67 => Some(FormatTraits(RGB, None, false, true, false, ColorUsage, None))
    case 68 => Some(FormatTraits(RGB, None, false, true, false, ColorUsage, None))
    case 69 => Some(FormatTraits(RGB, None, false, true, false, ColorUsage, None))
    case 70 => Some(FormatTraits(RGBA, None, true, false, true, ColorUsage, None))
    case 71 => Some(FormatTraits(RGBA, None, false, false, true, ColorUsage, Some(70)))
    case 72 => Some(FormatTraits(RGBA, None, false, false, true, ColorUsage, Some(70)))
    case 73 => Some(FormatTraits(RGBA, None, true, false, true, ColorUsage, None))
    case 74 => Some(FormatTraits(RGBA, None, false, false, true, ColorUsage, Some(73)))
    case 75 => Some(FormatTraits(RGBA, None, false, false, true, ColorUsage, Some(73)))
    case 76 => Some(FormatTraits(RGBA, None, true, false, true, ColorUsage, None))
    case 77 => Some(FormatTraits(RGBA, None, false, false, true, ColorUsage, Some(76)))
    case 78 => Some(FormatTraits(RGBA, None, false, false, true, ColorUsage, Some(76)))
    case 79 => Some(FormatTraits(Red, None, true, false, true, ColorUsage, None))
    case _ => None
  }

  function Traits80To99(imageFormat: int): Option<FormatTraits> {
    match imageFormat
    case 80 => Some(FormatTraits(Red, None, false, false, true, ColorUsage, Some(79)))
    case 81 => Some(FormatTraits(Red, None, false, false, true, ColorUsage, Some(79)))
    case 82 => Some(FormatTraits(RG, None, true, false, true, ColorUsage, None))
    case 83 => Some(FormatTraits(RG, None, false, false, true, ColorUsage, Some(82)))
    case 84 => Some(FormatTraits(RG, None, false, false, true, ColorUsage, Some(82)))
    case 85 => Some(FormatTraits(RGB, None, false, true, false, ColorUsage, None))
    case 86 => Some(FormatTraits(RGBA, None, false, true, false, ColorUsage, None))
    case 89 => Some(FormatTraits(RGBA, None, false, true, false, ColorUsage, None))
    case 90 => Some(FormatTraits(RGBA, None, true, false, false, ColorUsage, None))
    case 87 => Some(FormatTraits(RGBA, None, false, false, false, ColorUsage, Some(90)))
    case 91 => Some(FormatTraits(RGBA, None, false, false, false, ColorUsage, Some(90)))
    case 92 => Some(FormatTraits(RGB, None, true, false, false, ColorUsage, None))
    case 88 => Some(FormatTraits(RGB, None, false, false, false, ColorUsage, Some(92)))
    case 93 => Some(FormatTraits(RGB, None, false, false, false, ColorUsage, Some(92)))
    case 94 => Some(FormatTraits(RGB, None, true, false, true, ColorUsage, None))
    case 95 => Some(FormatTraits(RGB, None, false, false, true, ColorUsage, Some(94)))
    case 96 => Some(FormatTraits(RGB, None, false, false, true, ColorUsage, Some(94)))
    case 97 => Some(FormatTraits(RGB, None, true, false, true, ColorUsage, None))
    case 98 => Some(FormatTraits(RGB, None, false, false, true, ColorUsage, Some(97)))
    case 99 => Some(FormatTraits(RGB, None, false, false, true, ColorUsage, Some(97)))
    case _ => None
  }

  function Traits100To199(imageFormat: int): Option<FormatTraits> {
    match imageFormat
    case 115 => Some(FormatTraits(RGBA, None, false, true, false, ColorUsage, None))
    case _ => None
  }

  /** The names of the DXGI_FORMAT enumerants of the table, by DXGI_FORMAT code; split by code range so that each lookup unfolds one
      range only. */
  function DxgiName(imageFormat: int): string {
    if imageFormat < 20 then DxgiName0To19(imageFormat)
    else if imageFormat < 40 then DxgiName20To39(imageFormat)
    else if imageFormat < 60 then DxgiName40To59(imageFormat)
    else if imageFormat < 80 then DxgiName60To79(imageFormat)
    else if imageFormat < 100 then DxgiName80To99(imageFormat)
    else DxgiName100To199(imageFormat)
  }

  function DxgiName0To19(imageFormat: int): string {
    match imageFormat
    case 1 => "DXGI_FORMAT_R32G32B32A32_TYPELESS"
    case 2 => "DXGI_FORMAT_R32G32B32A32_FLOAT"
    case 3 => "DXGI_FORMAT_R32G32B32A32_UINT"
    case 4 => "DXGI_FORMAT_R32G32B32A32_SINT"
    case 5 => "DXGI_FORMAT_R32G32B32_TYPELESS"
    case 6 => "DXGI_FORMAT_R32G32B32_FLOAT"
    case 7 => "DXGI_FORMAT_R32G32B32_UINT"
    case 8 => "DXGI_FORMAT_R32G32B32_SINT"
    case 9 => "DXGI_FORMAT_R16G16B16A16_TYPELESS"
    case 10 => "DXGI_FORMAT_R16G16B16A16_FLOAT"
    case 12 => "DXGI_FORMAT_R16G16B16A16_UINT"
    case 14 => "DXGI_FORMAT_R16G16B16A16_SINT"
    case 11 => "DXGI_FORMAT_R16G16B16A16_UNORM"
    case 13 => "DXGI_FORMAT_R16G16B16A16_SNORM"
    case 15 => "DXGI_FORMAT_R32G32_TYPELESS"
    case 16 => "DXGI_FORMAT_R32G32_FLOAT"
    case 17 => "DXGI_FORMAT_R32G32_UINT"
    case 18 => "DXGI_FORMAT_R32G32_SINT"
    case 19 => "DXGI_FORMAT_R32G8X24_TYPELESS"
    case _ => ""
  }

  function DxgiName20To39(imageFormat: int): string {
    match imageFormat
    case 20 => "DXGI_FORMAT_D32_FLOAT_S8X24_UINT"
    case 21 => "DXGI_FORMAT_R32_FLOAT_X8X24_TYPELESS"
    case 22 => "DXGI_FORMAT_X32_TYPELESS_G8X24_UINT"
    case 23 => "DXGI_FORMAT_R10G10B10A2_TYPELESS"
    case 24 => "DXGI_FORMAT_R10G10B10A2_UNORM"
    case 25 => "DXGI_FORMAT_R10G10B10A2_UINT"
    case 26 => "DXGI_FORMAT_R11G11B10_FLOAT"
    case 27 => "DXGI_FORMAT_R8G8B8A8_TYPELESS"
    case 28 => "DXGI_FORMAT_R8G8B8A8_UNORM"
    case 29 => "DXGI_FORMAT_R8G8B8A8_UNORM_SRGB"
    case 30 => "DXGI_FORMAT_R8G8B8A8_UINT"
    case 32 => "DXGI_FORMAT_R8G8B8A8_SINT"
    case 31 => "DXGI_FORMAT_R8G8B8A8_SNORM"
    case 33 => "DXGI_FORMAT_R16G16_TYPELESS"
    case 34 => "DXGI_FORMAT_R16G16_FLOAT"
    case 36 => "DXGI_FORMAT_R16G16_UINT"
    case 38 => "DXGI_FORMAT_R16G16_SINT"
    case 35 => "DXGI_FORMAT_R16G16_UNORM"
    case 37 => "DXGI_FORMAT_R16G16_SNORM"
    case 39 => "DXGI_FORMAT_R32_TYPELESS"
    case _ => ""
  }

  function DxgiName40To59(imageFormat: int): string {
    match imageFormat
    case 41 => "DXGI_FORMAT_R32_FLOAT"
    case 40 => "DXGI_FORMAT_D32_FLOAT"
    case 42 => "DXGI_FORMAT_R32_UINT"
    case 43 => "DXGI_FORMAT_R32_SINT"
    case 44 => "DXGI_FORMAT_R24G8_TYPELESS"
    case 45 => "DXGI_FORMAT_D24_UNORM_S8_UINT"
    case 46 => "DXGI_FORMAT_R24_UNORM_X8_TYPELESS"
    case 47 => "DXGI_FORMAT_X24_TYPELESS_G8_UINT"
    case 48 => "DXGI_FORMAT_R8G8_TYPELESS"
    case 50 => "DXGI_FORMAT_R8G8_UINT"
    case 52 => "DXGI_FORMAT_R8G8_SINT"
    case 49 => "DXGI_FORMAT_R8G8_UNORM"
    case 51 => "DXGI_FORMAT_R8G8_SNORM"
    case 53 => "DXGI_FORMAT_R16_TYPELESS"
    case 54 => "DXGI_FORMAT_R16_FLOAT"
    case 55 => "DXGI_FORMAT_D16_UNORM"
    case 57 => "DXGI_FORMAT_R16_UINT"
    case 59 => "DXGI_FORMAT_R16_SINT"
    case 56 => "DXGI_FORMAT_R16_UNORM"
    case 58 => "DXGI_FORMAT_R16_SNORM"
    case _ => ""
  }

  function DxgiName60To79(imageFormat: int): string {
    match imageFormat
    case 60 => "DXGI_FORMAT_R8_TYPELESS"
    case 62 => "DXGI_FORMAT_R8_UINT"
    case 64 => "DXGI_FORMAT_R8_SINT"
    case 61 => "DXGI_FORMAT_R8_UNORM"
    case 63 => "DXGI_FORMAT_R8_SNORM"
    case 65 => "DXGI_FORMAT_A8_UNORM"
    case 66 => "DXGI_FORMAT_R1_UNORM"
    case 67 => "DXGI_FORMAT_R9G9B9E5_SHAREDEXP"
    case 68 => "DXGI_FORMAT_R8G8_B8G8_UNORM"
    case 69 => "DXGI_FORMAT_G8R8_G8B8_UNORM"
    case 70 => "DXGI_FORMAT_BC1_TYPELESS"
    case 71 => "DXGI_FORMAT_BC1_UNORM"
    case 72 => "DXGI_FORMAT_BC1_UNORM_SRGB"
    case 73 => "DXGI_FORMAT_BC2_TYPELESS"
    case 74 => "DXGI_FORMAT_BC2_UNORM"
    case 75 => "DXGI_FORMAT_BC2_UNORM_SRGB"
    case 76 => "DXGI_FORMAT_BC3_TYPELESS"
    case 77 => "DXGI_FORMAT_BC3_UNORM"
    case 78 => "DXGI_FORMAT_BC3_UNORM_SRGB"
    case 79 => "DXGI_FORMAT_BC4_TYPELESS"
    case _ => ""
  }

  function DxgiName80To99(imageFormat: int): string {
    match imageFormat
    case 80 => "DXGI_FORMAT_BC4_UNORM"
    case 81 => "DXGI_FORMAT_BC4_SNORM"
    case 82 => "DXGI_FORMAT_BC5_TYPELESS"
    case 83 => "DXGI_FORMAT_BC5_UNORM"
    case 84 => "DXGI_FORMAT_BC5_SNORM"
    case 85 => "DXGI_FORMAT_B5G6R5_UNORM"
    case 86 => "DXGI_FORMAT_B5G5R5A1_UNORM"
    case 89 => "DXGI_FORMAT_R10G10B10_XR_BIAS_A2_UNORM"
    case 90 => "DXGI_FORMAT_B8G8R8A8_TYPELESS"
    case 87 => "DXGI_FORMAT_B8G8R8A8_UNORM"
    case 91 => "DXGI_FORMAT_B8G8R8A8_UNORM_SRGB"
    case 92 => "DXGI_FORMAT_B8G8R8X8_TYPELESS"
    case 88 => "DXGI_FORMAT_B8G8R8X8_UNORM"
    case 93 => "DXGI_FORMAT_B8G8R8X8_UNORM_SRGB"
    case 94 => "DXGI_FORMAT_BC6H_TYPELESS"
    case 95 => "DXGI_FORMAT_BC6H_UF16"
    case 96 => "DXGI_FORMAT_BC6H_SF16"
    case 97 => "DXGI_FORMAT_BC7_TYPELESS"
    case 98 => "DXGI_FORMAT_BC7_UNORM"
    case 99 => "DXGI_FORMAT_BC7_UNORM_SRGB"
    case _ => ""
  }

  function DxgiName100To199(imageFormat: int): string {
    match imageFormat
    case 115 => "DXGI_FORMAT_B4G4R4A4_UNORM"
    case _ => ""
  }

  /** GetDxgiSwapchainTestMap: the map from format code to test parameters. */
  function FormatTable(imageFormat: int): Option<FormatEntry> {
    match Traits(imageFormat)
    case None => None
    case Some(traits) => Some(FormatEntry(DxgiName(imageFormat), traits))
  }

  /** IsDxgiImageFormatKnown. */
  predicate IsDxgiImageFormatKnown(imageFormat: int) {
    FormatTable(imageFormat).Some?
  }

  /** GetDxgiImageFormatName. */
  function GetDxgiImageFormatName(imageFormat: int): (name: string)
    ensures IsDxgiImageFormatKnown(imageFormat) ==> name == FormatTable(imageFormat).value.name
    ensures !IsDxgiImageFormatKnown(imageFormat) ==> name == "unknown"
  {
    match FormatTable(imageFormat)
    case Some(entry) => entry.name
    case None => "unknown"
  }

  /** No table name is "unknown", so the name is "unknown" exactly for an unknown
      format. */
  lemma NameIsUnknownIffUnknown(imageFormat: int)
    ensures GetDxgiImageFormatName(imageFormat) == "unknown" <==> !IsDxgiImageFormatKnown(imageFormat)
  {
    if !IsDxgiImageFormatKnown(imageFormat) {
    } else if imageFormat < 20 {
      NamesAreLong0To19(imageFormat);
    } else if imageFormat < 40 {
      NamesAreLong20To39(imageFormat);
    } else if imageFormat < 60 {
      NamesAreLong40To59(imageFormat);
    } else if imageFormat < 80 {
      NamesAreLong60To79(imageFormat);
    } else if imageFormat < 100 {
      NamesAreLong80To99(imageFormat);
    } else {
      NamesAreLong100To199(imageFormat);
    }
  }

  /** Each table name is longer than "unknown" (one lemma per code range). */
  lemma NamesAreLong0To19(imageFormat: int)
    requires Traits0To19(imageFormat).Some?
    ensures |DxgiName0To19(imageFormat)| > 7
  {
    match imageFormat
    case 1 =>
    case 2 =>
    case 3 =>
    case 4 =>
    case 5 =>
    case 6 =>
    case 7 =>
    case 8 =>
    case 9 =>
    case 10 =>
    case 12 =>
    case 14 =>
    case 11 =>
    case 13 =>
    case 15 =>
    case 16 =>
    case 17 =>
    case 18 =>
    case 19 =>
    case _ =>
  }

  lemma NamesAreLong20To39(imageFormat: int)
    requires Traits20To39(imageFormat).Some?
    ensures |DxgiName20To39(imageFormat)| > 7
  {
    match imageFormat
    case 20 =>
    case 21 =>
    case 22 =>
    case 23 =>
    case 24 =>
    case 25 =>
    case 26 =>
    case 27 =>
    case 28 =>
    case 29 =>
    case 30 =>
    case 32 =>
    case 31 =>
    case 33 =>
    case 34 =>
    case 36 =>
    case 38 =>
    case 35 =>
    case 37 =>
    case 39 =>
    case _ =>
  }

  lemma NamesAreLong40To59(imageFormat: int)
    requires Traits40To59(imageFormat).Some?
    ensures |DxgiName40To59(imageFormat)| > 7
  {
    match imageFormat
    case 41 =>
    case 40 =>
    case 42 =>
    case 43 =>
    case 44 =>
    case 45 =>
    case 46 =>
    case 47 =>
    case 48 =>
    case 50 =>
    case 52 =>
    case 49 =>
    case 51 =>
    case 53 =>
    case 54 =>
    case 55 =>
    case 57 =>
    case 59 =>
    case 56 =>
    case 58 =>
    case _ =>
  }

  lemma NamesAreLong60To79(imageFormat: int)
    requires Traits60To79(imageFormat).Some?
    ensures |DxgiName60To79(imageFormat)| > 7
  {
    match imageFormat
    case 60 =>
    case 62 =>
    case 64 =>
    case 61 =>
    case 63 =>
    case 65 =>
    case 66 =>
    case 67 =>
    case 68 =>
    case 69 =>
    case 70 =>
    case 71 =>
    case 72 =>
    case 73 =>
    case 74 =>
    case 75 =>
    case 76 =>
    case 77 =>
    case 78 =>
    case 79 =>
    case _ =>
  }

  lemma NamesAreLong80To99(imageFormat: int)
    requires Traits80To99(imageFormat).Some?
    ensures |DxgiName80To99(imageFormat)| > 7
  {
    match imageFormat
    case 80 =>
    case 81 =>
    case 82 =>
    case 83 =>
    case 84 =>
    case 85 =>
    case 86 =>
    case 89 =>
    case 90 =>
    case 87 =>
    case 91 =>
    case 92 =>
    case 88 =>
    case 93 =>
    case 94 =>
    case 95 =>
    case 96 =>
    case 97 =>
    case 98 =>
    case 99 =>
    case _ =>
  }

  lemma NamesAreLong100To199(imageFormat: int)
    requires Traits100To199(imageFormat).Some?
    ensures |DxgiName100To199(imageFormat)| > 7
  {
    match imageFormat
    case 115 =>
    case _ =>
  }

  /** The exceptions GetDxgiSwapchainCreateTestParameters throws. */
  datatype FormatError = UnknownFormat | TypelessFormat(name: string)

  /** GetDxgiSwapchainCreateTestParameters: the table entry of a known format that is
      not typeless. */
  function GetDxgiSwapchainCreateTestParameters(imageFormat: int): (r: Result<FormatEntry, FormatError>)
    ensures r == Err(UnknownFormat) <==> !IsDxgiImageFormatKnown(imageFormat)
    ensures r.Err? && r.error.TypelessFormat? <==> IsDxgiImageFormatKnown(imageFormat) && FormatTable(imageFormat).value.traits.typeless
    ensures r.Err? && r.error.TypelessFormat? ==> r.error.name == GetDxgiImageFormatName(imageFormat)
    ensures r.Ok? ==> Some(r.value) == FormatTable(imageFormat) && !r.value.traits.typeless
  {
    match FormatTable(imageFormat)
    case None => Err(UnknownFormat)
    case Some(entry) => if entry.traits.typeless then Err(TypelessFormat(entry.name)) else Ok(entry)
  }

  /** Every expected format of the table is a typeless entry of the table. */
  lemma ExpectedFormatsAreTypeless(imageFormat: int)
    requires Traits(imageFormat).Some? && Traits(imageFormat).value.expected.Some?
    ensures var expected := Traits(Traits(imageFormat).value.expected.value);
            expected.Some? && expected.value.typeless
  {
    if imageFormat < 20 {
      ExpectedTypeless0To19(imageFormat);
    } else if imageFormat < 40 {
      ExpectedTypeless20To39(imageFormat);
    } else if imageFormat < 60 {
      ExpectedTypeless40To59(imageFormat);
    } else if imageFormat < 80 {
      ExpectedTypeless60To79(imageFormat);
    } else if imageFormat < 100 {
      ExpectedTypeless80To99(imageFormat);
    } else {
      assert false;  // DXGI_FORMAT_B4G4R4A4_UNORM names no expected format
    }
  }

  /** The expected formats of one code range are typeless entries. */
  lemma ExpectedTypeless0To19(imageFormat: int)
    requires Traits0To19(imageFormat).Some? && Traits0To19(imageFormat).value.expected.Some?
    ensures var expected := Traits(Traits0To19(imageFormat).value.expected.value);
            expected.Some? && expected.value.typeless
  {
    match imageFormat
    case 1 =>
    case 2 => assert Traits(1).value.typeless;
    case 3 => assert Traits(1).value.typeless;
    case 4 => assert Traits(1).value.typeless;
    case 5 =>
    case 6 => assert Traits(5).value.typeless;
    case 7 => assert Traits(5).value.typeless;
    case 8 => assert Traits(5).value.typeless;
    case 9 =>
    case 10 => assert Traits(9).value.typeless;
    case 12 => assert Traits(9).value.typeless;
    case 14 => assert Traits(9).value.typeless;
    case 11 => assert Traits(9).value.typeless;
    case 13 => assert Traits(9).value.typeless;
    case 15 =>
    case 16 => assert Traits(15).value.typeless;
    case 17 => assert Traits(15).value.typeless;
    case 18 => assert Traits(15).value.typeless;
    case 19 =>
    case _ =>
  }

  lemma ExpectedTypeless20To39(imageFormat: int)
    requires Traits20To39(imageFormat).Some? && Traits20To39(imageFormat).value.expected.Some?
    ensures var expected := Traits(Traits20To39(imageFormat).value.expected.value);
            expected.Some? && expected.value.typeless
  {
    match imageFormat
    case 20 => assert Traits(19).value.typeless;
    case 21 =>
    case 22 => assert Traits(21).value.typeless;
    case 23 =>
    case 24 => assert Traits(23).value.typeless;
    case 25 => assert Traits(23).value.typeless;
    case 26 =>
    case 27 =>
    case 28 => assert Traits(27).value.typeless;
    case 29 => assert Traits(27).value.typeless;
    case 30 => assert Traits(27).value.typeless;
    case 32 => assert Traits(27).value.typeless;
    case 31 => assert Traits(27).value.typeless;
    case 33 =>
    case 34 => assert Traits(33).value.typeless;
    case 36 => assert Traits(33).value.typeless;
    case 38 => assert Traits(33).value.typeless;
    case 35 => assert Traits(33).value.typeless;
    case 37 => assert Traits(33).value.typeless;
    case 39 =>
    case _ =>
  }

  lemma ExpectedTypeless40To59(imageFormat: int)
    requires Traits40To59(imageFormat).Some? && Traits40To59(imageFormat).value.expected.Some?
    ensures var expected := Traits(Traits40To59(imageFormat).value.expected.value);
            expected.Some? && expected.value.typeless
  {
    match imageFormat
    case 41 => assert Traits(39).value.typeless;
    case 40 => assert Traits(39).value.typeless;
    case 42 => assert Traits(39).value.typeless;
    case 43 => assert Traits(39).value.typeless;
    case 44 =>
    case 45 => assert Traits(44).value.typeless;
    case 46 => assert Traits(44).value.typeless;
    case 47 => assert Traits(44).value.typeless;
    case 48 =>
    case 50 => assert Traits(48).value.typeless;
    case 52 => assert Traits(48).value.typeless;
    case 49 => assert Traits(48).value.typeless;
    case 51 => assert Traits(48).value.typeless;
    case 53 =>
    case 54 => assert Traits(53).value.typeless;
    case 55 => assert Traits(53).value.typeless;
    case 57 => assert Traits(53).value.typeless;
    case 59 => assert Traits(53).value.typeless;
    case 56 => assert Traits(53).value.typeless;
    case 58 => assert Traits(53).value.typeless;
    case _ =>
  }

  lemma ExpectedTypeless60To79(imageFormat: int)
    requires Traits60To79(imageFormat).Some? && Traits60To79(imageFormat).value.expected.Some?
    ensures var expected := Traits(Traits60To79(imageFormat).value.expected.value);
            expected.Some? && expected.value.typeless
  {
    match imageFormat
    case 60 =>
    case 62 => assert Traits(60).value.typeless;
    case 64 => assert Traits(60).value.typeless;
    case 61 => assert Traits(60).value.typeless;
    case 63 => assert Traits(60).value.typeless;
    case 65 => assert Traits(60).value.typeless;
    case 66 =>
    case 67 =>
    case 68 =>
    case 69 =>
    case 70 =>
    case 71 => assert Traits(70).value.typeless;
    case 72 => assert Traits(70).value.typeless;
    case 73 =>
    case 74 => assert Traits(73).value.typeless;
    case 75 => assert Traits(73).value.typeless;
    case 76 =>
    case 77 => assert Traits(76).value.typeless;
    case 78 => assert Traits(76).value.typeless;
    case 79 =>
    case _ =>
  }

  lemma ExpectedTypeless80To99(imageFormat: int)
    requires Traits80To99(imageFormat).Some? && Traits80To99(imageFormat).value.expected.Some?
    ensures var expected := Traits(Traits80To99(imageFormat).value.expected.value);
            expected.Some? && expected.value.typeless
  {
    match imageFormat
    case 80 => assert Traits(79).value.typeless;
    case 81 => assert Traits(79).value.typeless;
    case 82 =>
    case 83 => assert Traits(82).value.typeless;
    case 84 => assert Traits(82).value.typeless;
    case 85 =>
    case 86 =>
    case 89 =>
    case 90 =>
    case 87 => assert Traits(90).value.typeless;
    case 91 => assert Traits(90).value.typeless;
    case 92 =>
    case 88 => assert Traits(92).value.typeless;
    case 93 => assert Traits(92).value.typeless;
    case 94 =>
    case 95 => assert Traits(94).value.typeless;
    case 96 => assert Traits(94).value.typeless;
    case 97 =>
    case 98 => assert Traits(97).value.typeless;
    case 99 => assert Traits(97).value.typeless;
    case _ =>
  }

  /** Typeless entries and entries excluded from mutable-format creation name no
      expected format, and the latter are not typeless. */
  lemma TypelessFormatsExpectNothing(imageFormat: int)
    requires Traits(imageFormat).Some?
    ensures Traits(imageFormat).value.typeless ==> Traits(imageFormat).value.expected.None?
    ensures Traits(imageFormat).value.notMutable ==> Traits(imageFormat).value.expected.None? && !Traits(imageFormat).value.typeless
  {
    match imageFormat
    case 1 =>
    case 2 =>
    case 3 =>
    case 4 =>
    case 5 =>
    case 6 =>
    case 7 =>
    case 8 =>
    case 9 =>
    case 10 =>
    case 12 =>
    case 14 =>
    case 11 =>
    case 13 =>
    case 15 =>
    case 16 =>
    case 17 =>
    case 18 =>
    case 19 =>
    case 20 =>
    case 21 =>
    case 22 =>
    case 23 =>
    case 24 =>
    case 25 =>
    case 26 =>
    case 27 =>
    case 28 =>
    case 29 =>
    case 30 =>
    case 32 =>
    case 31 =>
    case 33 =>
    case 34 =>
    case 36 =>
    case 38 =>
    case 35 =>
    case 37 =>
    case 39 =>
    case 41 =>
    case 40 =>
    case 42 =>
    case 43 =>
    case 44 =>
    case 45 =>
    case 46 =>
    case 47 =>
    case 48 =>
    case 50 =>
    case 52 =>
    case 49 =>
    case 51 =>
    case 53 =>
    case 54 =>
    case 55 =>
    case 57 =>
    case 59 =>
    case 56 =>
    case 58 =>
    case 60 =>
    case 62 =>
    case 64 =>
    case 61 =>
    case 63 =>
    case 65 =>
    case 66 =>
    case 67 =>
    case 68 =>
    case 69 =>
    case 70 =>
    case 71 =>
    case 72 =>
    case 73 =>
    case 74 =>
    case 75 =>
    case 76 =>
    case 77 =>
    case 78 =>
    case 79 =>
    case 80 =>
    case 81 =>
    case 82 =>
    case 83 =>
    case 84 =>
    case 85 =>
    case 86 =>
    case 89 =>
    case 90 =>
    case 87 =>
    case 91 =>
    case 92 =>
    case 88 =>
    case 93 =>
    case 94 =>
    case 95 =>
    case 96 =>
    case 97 =>
    case 98 =>
    case 99 =>
    case 115 =>
    case _ =>
  }

  /** A format accepted for swapchain creation either names a typeless format, which
      itself is rejected for creation, or is created as-is. */
  lemma AcceptedFormatsExpectRejected(imageFormat: int)
    requires GetDxgiSwapchainCreateTestParameters(imageFormat).Ok?
    ensures var entry := GetDxgiSwapchainCreateTestParameters(imageFormat).value;
            entry.traits.expected.Some? ==>
              GetDxgiSwapchainCreateTestParameters(entry.traits.expected.value)
              == Err(TypelessFormat(GetDxgiImageFormatName(entry.traits.expected.value)))
  {
    if GetDxgiSwapchainCreateTestParameters(imageFormat).value.traits.expected.Some? {
      ExpectedFormatsAreTypeless(imageFormat);
    }
  }

  /** kDefaultDepthFormat: DXGI_FORMAT_D32_FLOAT. */
  const kDefaultDepthFormat: int := 40

  /** GetDepthStencilFormatOrDefault: the requested format, or the default when there
      is no create info. */
  function GetDepthStencilFormatOrDefault(createInfoFormat: Option<int>): (format: int)
    ensures createInfoFormat.Some? ==> format == createInfoFormat.value
    ensures createInfoFormat.None? ==> format == kDefaultDepthFormat
  {
    if createInfoFormat.Some? then createInfoFormat.value else kDefaultDepthFormat
  }

  /** The default is a depth format of the table, accepted for swapchain creation. */
  lemma DefaultDepthFormatIsDepth()
    ensures GetDxgiSwapchainCreateTestParameters(GetDepthStencilFormatOrDefault(None)).Ok?
    ensures GetDxgiSwapchainCreateTestParameters(GetDepthStencilFormatOrDefault(None)).value.traits.usage == DepthUsage
  {
  }
}
