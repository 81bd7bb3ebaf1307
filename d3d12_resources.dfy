/** The Direct3D 12 PBR resources: conversion of glTF samplers to D3D12 sampler
    descriptions, the list of texture formats the device can sample, and the caches
    that let a glTF model's images and samplers be created once per load. */
module D3D12Resources {
  import opened Wrappers

  // ---------------------------------------------------------------------------
  // glTF sampler enumerants (the OpenGL codes the glTF 2.0 specification uses for
  // sampler.magFilter, sampler.minFilter, sampler.wrapS and sampler.wrapT)
  // ---------------------------------------------------------------------------

  const NEAREST: int := 9728
  const LINEAR: int := 9729
  const NEAREST_MIPMAP_NEAREST: int := 9984
  const LINEAR_MIPMAP_NEAREST: int := 9985
  const NEAREST_MIPMAP_LINEAR: int := 9986
  const LINEAR_MIPMAP_LINEAR: int := 9987

  const CLAMP_TO_EDGE: int := 33071
  const MIRRORED_REPEAT: int := 33648
  const REPEAT: int := 10497

  /** D3D12_FILTER_TYPE. */
  datatype FilterType = Point | Linear

  /** The three components D3D12_ENCODE_BASIC_FILTER combines into a D3D12_FILTER. */
  datatype Filter = Filter(min: FilterType, mag: FilterType, mip: FilterType)

  /** What a glTF minification filter asks for: how texels are filtered and, for the
      mipmapping filters, how the two nearest mip levels are combined. */
  datatype MinFilterMeaning = MinFilterMeaning(texel: FilterType, mipmap: Option<FilterType>)

  /** The meaning of each glTF minification filter; None for any other value. */
  function GltfMinFilter(code: int): Option<MinFilterMeaning> {
    if code == NEAREST then Some(MinFilterMeaning(Point, None))
    else if code == LINEAR then Some(MinFilterMeaning(Linear, None))
    else if code == NEAREST_MIPMAP_NEAREST then Some(MinFilterMeaning(Point, Some(Point)))
    else if code == LINEAR_MIPMAP_NEAREST then Some(MinFilterMeaning(Linear, Some(Point)))
    else if code == NEAREST_MIPMAP_LINEAR then Some(MinFilterMeaning(Point, Some(Linear)))
    else if code == LINEAR_MIPMAP_LINEAR then Some(MinFilterMeaning(Linear, Some(Linear)))
    else None
  }

  /** The meaning of each glTF magnification filter; None for any other value. */
  function GltfMagFilter(code: int): Option<FilterType> {
    if code == NEAREST then Some(Point) else if code == LINEAR then Some(Linear) else None
  }

  /** ConvertFilter: the D3D12 filter components for a glTF sampler's filters. A known
      minification filter gives its texel filter and its mipmap filter (point when it
      does not mipmap); an unknown or missing one gives point for both. The same holds
      for the magnification filter. */
  function ConvertFilter(glMinFilter: int, glMagFilter: int): (f: Filter)
    ensures GltfMinFilter(glMinFilter).Some? ==>
              f.min == GltfMinFilter(glMinFilter).value.texel &&
              f.mip == (if GltfMinFilter(glMinFilter).value.mipmap.Some? then GltfMinFilter(glMinFilter).value.mipmap.value else Point)
    ensures GltfMinFilter(glMinFilter).None? ==> f.min == Point && f.mip == Point
    ensures f.mag == (if GltfMagFilter(glMagFilter).Some? then GltfMagFilter(glMagFilter).value else Point)
  {
    var minFilter :=
      if glMinFilter == NEAREST then Point
      else if glMinFilter == LINEAR then Linear
      else if glMinFilter == NEAREST_MIPMAP_NEAREST then Point
      else if glMinFilter == LINEAR_MIPMAP_NEAREST then Linear
      else if glMinFilter == NEAREST_MIPMAP_LINEAR then Point
      else if glMinFilter == LINEAR_MIPMAP_LINEAR then Linear
      else Point;
    var mipFilter :=
      if glMinFilter == NEAREST then Point
      else if glMinFilter == LINEAR then Point
      else if glMinFilter == NEAREST_MIPMAP_NEAREST then Point
      else if glMinFilter == LINEAR_MIPMAP_NEAREST then Point
      else if glMinFilter == NEAREST_MIPMAP_LINEAR then Linear
      else if glMinFilter == LINEAR_MIPMAP_LINEAR then Linear
      else Point;
    var magFilter :=
      if glMagFilter == NEAREST then Point
      else if glMagFilter == LINEAR then Linear
      else Point;
    Filter(minFilter, magFilter, mipFilter)
  }

  /** Only the two *_MIPMAP_LINEAR filters blend between mip levels. */
  lemma LinearMipOnlyForMipmapLinear(glMinFilter: int, glMagFilter: int)
    ensures ConvertFilter(glMinFilter, glMagFilter).mip == Linear <==>
              glMinFilter == NEAREST_MIPMAP_LINEAR || glMinFilter == LINEAR_MIPMAP_LINEAR
  {
  }

  /** D3D12_TEXTURE_ADDRESS_MODE. */
  datatype AddressMode = Wrap | Mirror | Clamp

  /** The glTF wrap mode that asks for a D3D12 address mode. */
  function GltfWrap(mode: AddressMode): int {
    match mode
    case Wrap => REPEAT
    case Mirror => MIRRORED_REPEAT
    case Clamp => CLAMP_TO_EDGE
  }

  /** The address mode for a glTF wrap mode: the mode that glTF wrap asks for, and WRAP
      for any value that is neither CLAMP_TO_EDGE nor MIRRORED_REPEAT. */
  function ConvertWrap(wrap: int): (mode: AddressMode)
    ensures GltfWrap(mode) == wrap || (mode == Wrap && wrap != CLAMP_TO_EDGE && wrap != MIRRORED_REPEAT)
  {
    if wrap == CLAMP_TO_EDGE then Clamp
    else if wrap == MIRRORED_REPEAT then Mirror
    else Wrap
  }

  /** Every address mode is reached from its glTF wrap mode, and each of the three
      glTF wrap modes comes back unchanged. */
  lemma WrapRoundTrip(mode: AddressMode, wrap: int)
    ensures ConvertWrap(GltfWrap(mode)) == mode
    ensures wrap == REPEAT || wrap == MIRRORED_REPEAT || wrap == CLAMP_TO_EDGE ==> GltfWrap(ConvertWrap(wrap)) == wrap
  {
  }

  /** The parts of a tinygltf::Sampler the conversion reads. */
  datatype GltfSampler = GltfSampler(minFilter: int, magFilter: int, wrapS: int, wrapT: int)

  /** D3D12_SAMPLER_DESC, without its floating-point level-of-detail bounds. The default
      description of D3D12Texture, which is not part of this model, is kept symbolic. */
  datatype SamplerDesc =
    | SamplerDesc(filter: Filter, addressU: AddressMode, addressV: AddressMode, addressW: AddressMode,
                  maxAnisotropy: nat, comparisonAlways: bool)
    | DefaultSamplerDesc

  /** CreateGLTFSampler: a sampler description from a glTF sampler. U follows wrapS, V
      follows wrapT and W always wraps. */
  function CreateGltfSampler(sampler: GltfSampler): (desc: SamplerDesc)
    ensures desc.SamplerDesc? && desc.filter == ConvertFilter(sampler.minFilter, sampler.magFilter)
    ensures desc.addressU == ConvertWrap(sampler.wrapS) && desc.addressV == ConvertWrap(sampler.wrapT)
    ensures desc.addressW == Wrap && desc.maxAnisotropy == 1 && desc.comparisonAlways
  {
    SamplerDesc(ConvertFilter(sampler.minFilter, sampler.magFilter), ConvertWrap(sampler.wrapS), ConvertWrap(sampler.wrapT),
                Wrap, 1, true)
  }

  /** A sampler description samples as its glTF sampler asks: each of the three glTF
      wrap modes of S and T comes back from the U and V address modes, any other wrap
      value wraps, and a known glTF filter's texel and mipmap filters are the
      description's. */
  lemma GltfSamplerFollowsGltf(sampler: GltfSampler)
    ensures var desc := CreateGltfSampler(sampler);
            && (sampler.wrapS in {REPEAT, MIRRORED_REPEAT, CLAMP_TO_EDGE} ==> GltfWrap(desc.addressU) == sampler.wrapS)
            && (sampler.wrapT in {REPEAT, MIRRORED_REPEAT, CLAMP_TO_EDGE} ==> GltfWrap(desc.addressV) == sampler.wrapT)
            && (sampler.wrapS !in {MIRRORED_REPEAT, CLAMP_TO_EDGE} ==> desc.addressU == Wrap)
            && (sampler.wrapT !in {MIRRORED_REPEAT, CLAMP_TO_EDGE} ==> desc.addressV == Wrap)
            && (GltfMinFilter(sampler.minFilter).Some? ==>
                  desc.filter.min == GltfMinFilter(sampler.minFilter).value.texel &&
                  (desc.filter.mip == Linear <==> GltfMinFilter(sampler.minFilter).value.mipmap == Some(Linear)))
            && (GltfMagFilter(sampler.magFilter).Some? ==> desc.filter.mag == GltfMagFilter(sampler.magFilter).value)
  {
    WrapRoundTrip(Wrap, sampler.wrapS);
    WrapRoundTrip(Wrap, sampler.wrapT);
  }

  // ---------------------------------------------------------------------------
  // Supported texture formats
  // ---------------------------------------------------------------------------

  const S_OK: int := 0

  /** D3D12_FORMAT_SUPPORT1 bits. */
  const FORMAT_SUPPORT1_TEXTURE2D: bv32 := 0x20
  const FORMAT_SUPPORT1_SHADER_SAMPLE: bv32 := 0x200
  const FORMAT_SUPPORT1_MIP: bv32 := 0x1000
  const RequiredSupport: bv32 := FORMAT_SUPPORT1_TEXTURE2D | FORMAT_SUPPORT1_SHADER_SAMPLE | FORMAT_SUPPORT1_MIP

  /** Conformance::Image::FormatParams, which is not part of this model: an identity. */
  datatype FormatParams = FormatParams(id: nat)

  /** One pair of Pbr::GetDXGIFormatMap, in the map's order. */
  datatype FormatMapping = FormatMapping(params: FormatParams, dxgiFormat: int)

  /** What CheckFeatureSupport(D3D12_FEATURE_FORMAT_SUPPORT) returns for a format. */
  datatype FormatSupport = FormatSupport(result: int, support1: bv32)

  /** The test MakeSupportedFormatsList applies: the query succeeded and no required
      bit is missing from Support1. */
  predicate Usable(support: FormatSupport) {
    support.result == S_OK && (!support.support1 & RequiredSupport) == 0
  }

  /** A format is usable exactly when the query returned S_OK and each of the
      TEXTURE2D, SHADER_SAMPLE and MIP bits is set. */
  lemma UsableIffAllBits(support: FormatSupport)
    ensures Usable(support) <==>
              support.result == S_OK && support.support1 & FORMAT_SUPPORT1_TEXTURE2D != 0 &&
              support.support1 & FORMAT_SUPPORT1_SHADER_SAMPLE != 0 && support.support1 & FORMAT_SUPPORT1_MIP != 0
  {
  }

  /** The formats of the map, in its order, that the device supports. */
  function SupportedFormats(formatMap: seq<FormatMapping>, query: int -> FormatSupport): seq<FormatParams> {
    if formatMap == [] then []
    else
      var last := formatMap[|formatMap| - 1];
      SupportedFormats(formatMap[..|formatMap| - 1], query) + (if Usable(query(last.dxgiFormat)) then [last.params] else [])
  }

  /** A format is listed exactly when some pair of the map names it and is usable. */
  lemma {:induction false} SupportedFormatsMembers(formatMap: seq<FormatMapping>, query: int -> FormatSupport, params: FormatParams)
    ensures params in SupportedFormats(formatMap, query) <==>
              exists i :: 0 <= i < |formatMap| && formatMap[i].params == params && Usable(query(formatMap[i].dxgiFormat))
  {
    if formatMap != [] {
      var front := formatMap[..|formatMap| - 1];
      SupportedFormatsMembers(front, query, params);
      assert forall i :: 0 <= i < |front| ==> front[i] == formatMap[i];
      if params in SupportedFormats(formatMap, query) && params !in SupportedFormats(front, query) {
        assert formatMap[|formatMap| - 1].params == params;
      }
    }
  }

  /** The list never holds more formats than the map. */
  lemma {:induction false} SupportedFormatsBound(formatMap: seq<FormatMapping>, query: int -> FormatSupport)
    ensures |SupportedFormats(formatMap, query)| <= |formatMap|
  {
    if formatMap != [] {
      SupportedFormatsBound(formatMap[..|formatMap| - 1], query);
    }
  }

  /** MakeSupportedFormatsList: the loop over the format map that keeps each usable
      format, in order. */
  method MakeSupportedFormatsList(formatMap: seq<FormatMapping>, query: int -> FormatSupport)
    returns (supported: seq<FormatParams>)
    ensures supported == SupportedFormats(formatMap, query)
  {
    supported := [];
    for i := 0 to |formatMap|
      invariant supported == SupportedFormats(formatMap[..i], query)
    {
      assert formatMap[..i + 1][..i] == formatMap[..i];
      var formatSupport := query(formatMap[i].dxgiFormat);
      if formatSupport.result != S_OK {
        continue;
      }
      if !formatSupport.support1 & RequiredSupport != 0 {
        continue;
      }
      supported := supported + [formatMap[i].params];
    }
    assert formatMap[..|formatMap|] == formatMap;
  }

  // ---------------------------------------------------------------------------
  // Loader caches
  // ---------------------------------------------------------------------------

  /** RGBAColor; floating-point colours are modelled as reals. */
  datatype RGBA = RGBA(r: real, g: real, b: real, a: real)

  /** ImageKey: a (non-null) tinygltf::Image pointer and whether it is sRGB. */
  datatype ImageKey = ImageKey(image: nat, sRGB: bool)

  /** A tinygltf::Sampler pointer: its identity and the sampler it points to. */
  datatype SamplerRef = SamplerRef(id: nat, sampler: GltfSampler)

  /** A texture view handed to a material: a decoded glTF image, or a solid-colour
      texture of the default colour. */
  datatype Texture = ImageTexture(key: ImageKey) | SolidColorTexture(color: RGBA, sRGB: bool)

  /** A material as LoadTexture receives it; only a D3D12Material can take textures. */
  datatype MaterialRef = D3D12MaterialRef(id: nat) | OtherMaterialRef(id: nat)

  /** The SetTexture call LoadTexture ends with. */
  datatype Binding = Binding(material: nat, slot: nat, texture: Texture, sampler: SamplerDesc)

  /** The std::logic_error exceptions of this file. */
  datatype ResourceError =
    | WrongMaterialType
    | SupportedFormatsEmpty
    | DiffuseNotTextureCube
    | SpecularNotTextureCube

  /** The loader caches. The image map takes a null entry when operator[] finds no key,
      so a key may map to None. */
  datatype Caches = Caches(imageMap: map<ImageKey, Option<Texture>>, samplerMap: map<Option<SamplerRef>, SamplerDesc>)

  /** What one LoadTexture does: the new caches, the result, the image it decoded and
      the sampler key it created a description for. */
  datatype LoadOutcome = LoadOutcome(caches: Caches, result: Result<Binding, ResourceError>,
                                     loadedImage: Option<ImageKey>, createdSampler: Option<Option<SamplerRef>>)

  /** The description of the sampler a key points to; the null key selects the default. */
  function SamplerFor(key: Option<SamplerRef>): SamplerDesc {
    if key.Some? then CreateGltfSampler(key.value.sampler) else DefaultSamplerDesc
  }

  /** The image half of LoadTexture: the new image map, the texture or the error, and
      the key of the image decoded, if any. */
  datatype ImageStep = ImageStep(imageMap: map<ImageKey, Option<Texture>>, texture: Result<Texture, ResourceError>,
                                 loaded: Option<ImageKey>)

  /** A null image gets a solid-colour texture that is not cached. A non-null image is
      taken from the cache, or decoded (which needs the supported format list) and
      cached; a decode that fails leaves the null entry operator[] inserted. */
  function FindOrLoadImageSpec(imageMap: map<ImageKey, Option<Texture>>, supported: seq<FormatParams>, image: Option<nat>,
                               sRGB: bool, defaultRGBA: RGBA): ImageStep {
    if image.None? then ImageStep(imageMap, Ok(SolidColorTexture(defaultRGBA, sRGB)), None)
    else
      var key := ImageKey(image.value, sRGB);
      if key in imageMap && imageMap[key].Some? then ImageStep(imageMap, Ok(imageMap[key].value), None)
      else if |supported| == 0 then ImageStep(imageMap[key := None], Err(SupportedFormatsEmpty), None)
      else ImageStep(imageMap[key := Some(ImageTexture(key))], Ok(ImageTexture(key)), Some(key))
  }

  /** The sampler half of LoadTexture: the new sampler map, the description, and the key
      a description was created for, if any. */
  datatype SamplerStep = SamplerStep(samplerMap: map<Option<SamplerRef>, SamplerDesc>, desc: SamplerDesc,
                                     created: Option<Option<SamplerRef>>)

  /** The cached description, or a new one stored under the key. */
  function FindOrCreateSamplerSpec(samplerMap: map<Option<SamplerRef>, SamplerDesc>, sampler: Option<SamplerRef>): SamplerStep {
    if sampler in samplerMap then SamplerStep(samplerMap, samplerMap[sampler], None)
    else SamplerStep(samplerMap[sampler := SamplerFor(sampler)], SamplerFor(sampler), Some(sampler))
  }

  /** LoadTexture on the caches. A material that is not a D3D12Material is rejected
      before anything changes; then the image is found or loaded, and the sampler found
      or created. */
  function LoadTextureSpec(c: Caches, supported: seq<FormatParams>, material: MaterialRef, slot: nat,
                           image: Option<nat>, sampler: Option<SamplerRef>, sRGB: bool, defaultRGBA: RGBA): LoadOutcome {
    if material.OtherMaterialRef? then LoadOutcome(c, Err(WrongMaterialType), None, None)
    else
      var i := FindOrLoadImageSpec(c.imageMap, supported, image, sRGB, defaultRGBA);
      if i.texture.Err? then LoadOutcome(c.(imageMap := i.imageMap), Err(i.texture.error), None, None)
      else
        var s := FindOrCreateSamplerSpec(c.samplerMap, sampler);
        LoadOutcome(Caches(i.imageMap, s.samplerMap), Ok(Binding(material.id, slot, i.texture.value, s.desc)), i.loaded, s.created)
  }

  /** The caches hold what their keys name: a cached texture is its key's image, and a
      cached sampler description is its key's. */
  predicate CachesWellFormed(c: Caches) {
    (forall k :: k in c.imageMap && c.imageMap[k].Some? ==> c.imageMap[k].value == ImageTexture(k)) &&
    (forall k :: k in c.samplerMap ==> c.samplerMap[k] == SamplerFor(k))
  }

  /** LoadTexture keeps the caches well formed, and what it binds is what its arguments
      name: the image's own texture (or the solid colour for a null image) and the
      sampler's description. Only a wrong material or a decode that is impossible for
      lack of supported formats fails. */
  lemma LoadTextureBindsWhatIsNamed(c: Caches, supported: seq<FormatParams>, material: MaterialRef, slot: nat,
                                    image: Option<nat>, sampler: Option<SamplerRef>, sRGB: bool, defaultRGBA: RGBA)
    requires CachesWellFormed(c)
    ensures var r := LoadTextureSpec(c, supported, material, slot, image, sampler, sRGB, defaultRGBA);
            CachesWellFormed(r.caches) &&
            (r.result.Err? <==> material.OtherMaterialRef? ||
                                (image.Some? && |supported| == 0 &&
                                 !(ImageKey(image.value, sRGB) in c.imageMap && c.imageMap[ImageKey(image.value, sRGB)].Some?))) &&
            (r.result.Ok? ==>
               r.result.value.material == material.id && r.result.value.slot == slot &&
               r.result.value.sampler == SamplerFor(sampler) &&
               r.result.value.texture == (if image.Some? then ImageTexture(ImageKey(image.value, sRGB)) else SolidColorTexture(defaultRGBA, sRGB)))
  {
  }

  /** A non-null image is decoded only when its key holds no texture, and afterwards it
      does; a null image never reaches the image cache. */
  lemma LoadTextureImageCache(c: Caches, supported: seq<FormatParams>, material: MaterialRef, slot: nat,
                              image: Option<nat>, sampler: Option<SamplerRef>, sRGB: bool, defaultRGBA: RGBA)
    ensures var r := LoadTextureSpec(c, supported, material, slot, image, sampler, sRGB, defaultRGBA);
            (r.loadedImage.Some? ==> image.Some? && r.loadedImage.value == ImageKey(image.value, sRGB) &&
                                     !(r.loadedImage.value in c.imageMap && c.imageMap[r.loadedImage.value].Some?)) &&
            (r.result.Ok? && image.Some? ==> ImageKey(image.value, sRGB) in r.caches.imageMap &&
                                             r.caches.imageMap[ImageKey(image.value, sRGB)].Some?) &&
            (image.None? ==> r.caches.imageMap == c.imageMap && r.loadedImage.None?)
  {
  }

  /** A sampler description is created only for a key the cache lacks, and the key is
      cached after any successful load. */
  lemma LoadTextureSamplerCache(c: Caches, supported: seq<FormatParams>, material: MaterialRef, slot: nat,
                                image: Option<nat>, sampler: Option<SamplerRef>, sRGB: bool, defaultRGBA: RGBA)
    ensures var r := LoadTextureSpec(c, supported, material, slot, image, sampler, sRGB, defaultRGBA);
            (r.createdSampler.Some? ==> r.createdSampler.value == sampler && sampler !in c.samplerMap) &&
            (r.result.Ok? ==> sampler in r.caches.samplerMap) &&
            (r.result.Err? ==> r.caches.samplerMap == c.samplerMap && r.createdSampler.None?)
  {
  }

  /** Loading the same texture twice in a row decodes nothing and creates no sampler the
      second time, and leaves the caches as the first call left them. */
  lemma SecondLoadIsCached(c: Caches, supported: seq<FormatParams>, material: MaterialRef, slot: nat,
                                              image: Option<nat>, sampler: Option<SamplerRef>, sRGB: bool, defaultRGBA: RGBA)
    requires LoadTextureSpec(c, supported, material, slot, image, sampler, sRGB, defaultRGBA).result.Ok?
    ensures var first := LoadTextureSpec(c, supported, material, slot, image, sampler, sRGB, defaultRGBA);
            var second := LoadTextureSpec(first.caches, supported, material, slot, image, sampler, sRGB, defaultRGBA);
            second.loadedImage.None? && second.createdSampler.None? && second.caches == first.caches &&
            second.result == first.result
  {
    var first := LoadTextureSpec(c, supported, material, slot, image, sampler, sRGB, defaultRGBA);
    LoadTextureImageCache(c, supported, material, slot, image, sampler, sRGB, defaultRGBA);
    LoadTextureSamplerCache(c, supported, material, slot, image, sampler, sRGB, defaultRGBA);
  }

  /** Each image key was decoded at most once, and the keys decoded are exactly those
      holding a texture, which is the decoded one. */
  ghost predicate ImageLogMatches(imageMap: map<ImageKey, Option<Texture>>, imageLoads: seq<ImageKey>) {
    (forall k :: k in imageMap && imageMap[k].Some? ==> imageMap[k].value == ImageTexture(k)) &&
    (forall i, j :: 0 <= i < j < |imageLoads| ==> imageLoads[i] != imageLoads[j]) &&
    (forall k :: k in imageLoads <==> k in imageMap && imageMap[k].Some?)
  }

  /** The null entry operator[] inserts for a key without texture keeps the log matched. */
  lemma NullEntryMatches(imageMap: map<ImageKey, Option<Texture>>, imageLoads: seq<ImageKey>, key: ImageKey)
    requires ImageLogMatches(imageMap, imageLoads)
    requires !(key in imageMap && imageMap[key].Some?)
    ensures ImageLogMatches(imageMap[key := None], imageLoads)
  {
  }

  /** Decoding a key without texture and logging it keeps the log matched. */
  lemma DecodedEntryMatches(imageMap: map<ImageKey, Option<Texture>>, imageLoads: seq<ImageKey>, key: ImageKey)
    requires ImageLogMatches(imageMap, imageLoads)
    requires !(key in imageMap && imageMap[key].Some?)
    ensures ImageLogMatches(imageMap[key := Some(ImageTexture(key))], imageLoads + [key])
  {
    assert key !in imageLoads;
  }

  /** A view of a resource as SetEnvironmentMap receives it. */
  datatype ResourceView = ResourceView(resource: nat, viewDimension: int, mipLevels: nat)

  /** D3D12_SRV_DIMENSION_TEXTURECUBE. */
  const SRV_DIMENSION_TEXTURECUBE: int := 9

  /** The loader state of Pbr::D3D12Resources, with the environment map it binds. The
      ghost logs record each image decoded and each sampler description created since
      the caches were last dropped. */
  class D3D12ResourcesState {
    var supportedTextureFormats: seq<FormatParams>
    var imageMap: map<ImageKey, Option<Texture>>
    var samplerMap: map<Option<SamplerRef>, SamplerDesc>
    var numSpecularMipLevels: nat
    var specularEnvMapTexture: Option<nat>
    var diffuseEnvMapTexture: Option<nat>
    ghost var imageLoads: seq<ImageKey>
    ghost var samplerCreations: seq<Option<SamplerRef>>

    /** The caches. */
    function Loader(): Caches
      reads this
    {
      Caches(imageMap, samplerMap)
    }

    /** Each image key was decoded at most once since the last drop, and the keys
        decoded are exactly those holding a texture. */
    ghost predicate ImageCacheValid()
      reads this
    {
      ImageLogMatches(imageMap, imageLoads)
    }

    /** Each sampler description was created at most once per key since the last drop,
        and the keys created are exactly the cached ones. */
    ghost predicate SamplerCacheValid()
      reads this
    {
      (forall k :: k in samplerMap ==> samplerMap[k] == SamplerFor(k)) &&
      (forall i, j :: 0 <= i < j < |samplerCreations| ==> samplerCreations[i] != samplerCreations[j]) &&
      (forall k :: k in samplerCreations <==> k in samplerMap)
    }

    ghost predicate Valid()
      reads this
    {
      ImageCacheValid() && SamplerCacheValid()
    }

    /** Initialize, for the loader state: the supported formats are listed and the
        caches are empty. */
    constructor (formatMap: seq<FormatMapping>, query: int -> FormatSupport)
      ensures Valid()
      ensures supportedTextureFormats == SupportedFormats(formatMap, query)
      ensures imageMap == map[] && samplerMap == map[] && imageLoads == [] && samplerCreations == []
      ensures numSpecularMipLevels == 1 && specularEnvMapTexture == None && diffuseEnvMapTexture == None
    {
      var formats := MakeSupportedFormatsList(formatMap, query);
      supportedTextureFormats := formats;
      imageMap := map[];
      samplerMap := map[];
      numSpecularMipLevels := 1;
      specularEnvMapTexture := None;
      diffuseEnvMapTexture := None;
      imageLoads := [];
      samplerCreations := [];
    }

    /** GetSupportedFormats: the list, or an error when it is empty. */
    function GetSupportedFormats(): (r: Result<seq<FormatParams>, ResourceError>)
      reads this
      ensures r.Err? <==> |supportedTextureFormats| == 0
      ensures r.Err? ==> r.error == SupportedFormatsEmpty
      ensures r.Ok? ==> r.value == supportedTextureFormats
    {
      if |supportedTextureFormats| == 0 then Err(SupportedFormatsEmpty) else Ok(supportedTextureFormats)
    }

    /** The image half of LoadTexture. */
    method FindOrLoadImage(image: Option<nat>, sRGB: bool, defaultRGBA: RGBA) returns (texture: Result<Texture, ResourceError>)
      requires ImageCacheValid()
      modifies this
      ensures ImageCacheValid()
      ensures var spec := FindOrLoadImageSpec(old(imageMap), supportedTextureFormats, image, sRGB, defaultRGBA);
              imageMap == spec.imageMap && texture == spec.texture &&
              imageLoads == old(imageLoads) + (if spec.loaded.Some? then [spec.loaded.value] else [])
      ensures samplerMap == old(samplerMap) && samplerCreations == old(samplerCreations)
      ensures supportedTextureFormats == old(supportedTextureFormats) && numSpecularMipLevels == old(numSpecularMipLevels)
      ensures specularEnvMapTexture == old(specularEnvMapTexture) && diffuseEnvMapTexture == old(diffuseEnvMapTexture)
    {
      if image.None? {
        return Ok(SolidColorTexture(defaultRGBA, sRGB));
      }
      var key := ImageKey(image.value, sRGB);
      var cached := if key in imageMap then imageMap[key] else None;
      if cached.Some? {
        assert imageMap[key := cached] == imageMap;
      } else {
        NullEntryMatches(imageMap, imageLoads, key);
      }
      imageMap := imageMap[key := cached];
      if cached.Some? {
        return Ok(cached.value);
      }
      var formats := GetSupportedFormats();
      if formats.Err? {
        return Err(formats.error);
      }
      DecodedEntryMatches(old(imageMap), imageLoads, key);
      assert imageMap[key := Some(ImageTexture(key))] == old(imageMap)[key := Some(ImageTexture(key))];
      imageMap := imageMap[key := Some(ImageTexture(key))];
      imageLoads := imageLoads + [key];
      texture := Ok(ImageTexture(key));
    }

    /** The sampler half of LoadTexture. */
    method FindOrCreateSampler(sampler: Option<SamplerRef>) returns (desc: SamplerDesc)
      requires SamplerCacheValid()
      modifies this
      ensures SamplerCacheValid()
      ensures var spec := FindOrCreateSamplerSpec(old(samplerMap), sampler);
              samplerMap == spec.samplerMap && desc == spec.desc &&
              samplerCreations == old(samplerCreations) + (if spec.created.Some? then [spec.created.value] else [])
      ensures imageMap == old(imageMap) && imageLoads == old(imageLoads)
      ensures supportedTextureFormats == old(supportedTextureFormats) && numSpecularMipLevels == old(numSpecularMipLevels)
      ensures specularEnvMapTexture == old(specularEnvMapTexture) && diffuseEnvMapTexture == old(diffuseEnvMapTexture)
    {
      if sampler in samplerMap {
        desc := samplerMap[sampler];
      } else {
        desc := SamplerFor(sampler);
        samplerMap := samplerMap[sampler := desc];
        samplerCreations := samplerCreations + [sampler];
      }
    }

    /** LoadTexture: the caches change as the specification says, and the logs record
        the decode and the sampler creation it performed. */
    method LoadTexture(material: MaterialRef, slot: nat, image: Option<nat>, sampler: Option<SamplerRef>, sRGB: bool,
                       defaultRGBA: RGBA) returns (r: Result<Binding, ResourceError>)
      requires Valid()
      modifies this
      ensures Valid()
      ensures var spec := LoadTextureSpec(old(Loader()), supportedTextureFormats, material, slot, image, sampler, sRGB, defaultRGBA);
              Loader() == spec.caches && r == spec.result &&
              imageLoads == old(imageLoads) + (if spec.loadedImage.Some? then [spec.loadedImage.value] else []) &&
              samplerCreations == old(samplerCreations) + (if spec.createdSampler.Some? then [spec.createdSampler.value] else [])
      ensures supportedTextureFormats == old(supportedTextureFormats) && numSpecularMipLevels == old(numSpecularMipLevels)
      ensures specularEnvMapTexture == old(specularEnvMapTexture) && diffuseEnvMapTexture == old(diffuseEnvMapTexture)
    {
      if material.OtherMaterialRef? {
        return Err(WrongMaterialType);
      }
      var texture := FindOrLoadImage(image, sRGB, defaultRGBA);
      if texture.Err? {
        return Err(texture.error);
      }
      var desc := FindOrCreateSampler(sampler);
      r := Ok(Binding(material.id, slot, texture.value, desc));
    }

    /** DropLoaderCaches: both caches are emptied; nothing else changes. */
    method DropLoaderCaches()
      requires Valid()
      modifies this
      ensures Valid()
      ensures imageMap == map[] && samplerMap == map[] && imageLoads == [] && samplerCreations == []
      ensures supportedTextureFormats == old(supportedTextureFormats) && numSpecularMipLevels == old(numSpecularMipLevels)
      ensures specularEnvMapTexture == old(specularEnvMapTexture) && diffuseEnvMapTexture == old(diffuseEnvMapTexture)
    {
      imageMap := map[];
      samplerMap := map[];
      imageLoads := [];
      samplerCreations := [];
    }

    /** SetEnvironmentMap: both views must be texture cubes, the diffuse one checked
        first; on failure nothing changes. Otherwise the specular map's mip count and
        both resources are taken. */
    method SetEnvironmentMap(specular: ResourceView, diffuse: ResourceView) returns (r: Result<(), ResourceError>)
      requires Valid()
      modifies this
      ensures Valid()
      ensures diffuse.viewDimension != SRV_DIMENSION_TEXTURECUBE ==> r == Err(DiffuseNotTextureCube)
      ensures diffuse.viewDimension == SRV_DIMENSION_TEXTURECUBE && specular.viewDimension != SRV_DIMENSION_TEXTURECUBE ==>
                r == Err(SpecularNotTextureCube)
      ensures r.Err? ==> numSpecularMipLevels == old(numSpecularMipLevels) &&
                         specularEnvMapTexture == old(specularEnvMapTexture) && diffuseEnvMapTexture == old(diffuseEnvMapTexture)
      ensures r.Ok? <==> diffuse.viewDimension == SRV_DIMENSION_TEXTURECUBE && specular.viewDimension == SRV_DIMENSION_TEXTURECUBE
      ensures r.Ok? ==> numSpecularMipLevels == specular.mipLevels &&
                        specularEnvMapTexture == Some(specular.resource) && diffuseEnvMapTexture == Some(diffuse.resource)
      ensures Loader() == old(Loader()) && supportedTextureFormats == old(supportedTextureFormats)
      ensures imageLoads == old(imageLoads) && samplerCreations == old(samplerCreations)
    {
      if diffuse.viewDimension != SRV_DIMENSION_TEXTURECUBE {
        return Err(DiffuseNotTextureCube);
      }
      if specular.viewDimension != SRV_DIMENSION_TEXTURECUBE {
        return Err(SpecularNotTextureCube);
      }
      numSpecularMipLevels := specular.mipLevels;
      specularEnvMapTexture := Some(specular.resource);
      diffuseEnvMapTexture := Some(diffuse.resource);
      r := Ok(());
    }
  }
}
