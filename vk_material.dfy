/** The Vulkan PBR material: a table of five texture slots with their samplers, and
    the constant-buffer parameters it uploads when they have changed. */
module VkMaterial {
  import opened Wrappers

  /** ShaderSlots::PSMaterial: the material's texture slots. */
  const BaseColor: nat := 0
  const MetallicRoughness: nat := 1
  const Normal: nat := 2
  const Occlusion: nat := 3
  const Emissive: nat := 4
  const TextureCount: nat := 5

  /** VK_IMAGE_LAYOUT_SHADER_READ_ONLY_OPTIMAL. */
  const SHADER_READ_ONLY_OPTIMAL: int := 5

  /** RGBAColor and RGBColor; floating-point values are modelled as reals. */
  datatype RGBA = RGBA(r: real, g: real, b: real, a: real)
  datatype RGB = RGB(r: real, g: real, b: real)

  const White: RGBA := RGBA(1.0, 1.0, 1.0, 1.0)
  const FlatNormal: RGBA := RGBA(0.5, 0.5, 1.0, 1.0)

  /** What a VulkanTextureBundle holds: an image view and the texture behind it. */
  datatype TextureContent = SolidColor(color: RGBA, sRGB: bool) | ImageContent(image: nat)
  datatype TextureBundle = TextureBundle(view: nat, content: TextureContent)

  /** A ScopedVkSampler, by its VkSampler handle. */
  datatype SamplerHandle = SamplerHandle(handle: nat)

  /** VkDescriptorImageInfo. */
  datatype DescriptorImageInfo = DescriptorImageInfo(sampler: SamplerHandle, imageView: nat, imageLayout: int)

  /** BlendState. */
  datatype BlendState = Opaque | AlphaBlended

  /** ConstantBufferData, the factors the shader reads. */
  datatype ConstantBufferData = ConstantBufferData(baseColorFactor: RGBA, emissiveFactor: RGB, metallicFactor: real,
                                                   roughnessFactor: real)

  const DefaultParameters: ConstantBufferData := ConstantBufferData(White, RGB(0.0, 0.0, 0.0), 1.0, 1.0)

  // ---------------------------------------------------------------------------
  // The slot table
  // ---------------------------------------------------------------------------

  /** A shared_ptr slot: None is the null pointer. */
  datatype Slots = Slots(textures: seq<Option<TextureBundle>>, samplers: seq<Option<SamplerHandle>>)

  /** SetTexture on the slot table: the texture always replaces the slot's texture; the
      sampler replaces the slot's sampler only when it is not null. */
  function SetTextureSpec(s: Slots, slot: nat, texture: Option<TextureBundle>, sampler: Option<SamplerHandle>): Slots
    requires slot < |s.textures| && slot < |s.samplers|
  {
    Slots(s.textures[slot := texture], if sampler.Some? then s.samplers[slot := sampler] else s.samplers)
  }

  /** SetTexture changes the named slot only; its texture is the new one, and its
      sampler is the new one or, for a null sampler, the old one. */
  lemma SetTextureChangesOneSlot(s: Slots, slot: nat, texture: Option<TextureBundle>, sampler: Option<SamplerHandle>)
    requires slot < |s.textures| && slot < |s.samplers|
    ensures var r := SetTextureSpec(s, slot, texture, sampler);
            |r.textures| == |s.textures| && |r.samplers| == |s.samplers| &&
            r.textures[slot] == texture &&
            r.samplers[slot] == (if sampler.Some? then sampler else s.samplers[slot]) &&
            (forall i :: 0 <= i < |s.textures| && i != slot ==> r.textures[i] == s.textures[i]) &&
            (forall i :: 0 <= i < |s.samplers| && i != slot ==> r.samplers[i] == s.samplers[i])
  {
  }

  /** Setting the same texture twice is setting it once. */
  lemma SetTextureIdempotent(s: Slots, slot: nat, texture: Option<TextureBundle>, sampler: Option<SamplerHandle>)
    requires slot < |s.textures| && slot < |s.samplers|
    ensures SetTextureSpec(SetTextureSpec(s, slot, texture, sampler), slot, texture, sampler) == SetTextureSpec(s, slot, texture, sampler)
  {
  }

  /** Setting two different slots gives the same table in either order. */
  lemma SetTextureCommutes(s: Slots, slot1: nat, texture1: Option<TextureBundle>, sampler1: Option<SamplerHandle>,
                           slot2: nat, texture2: Option<TextureBundle>, sampler2: Option<SamplerHandle>)
    requires slot1 < |s.textures| && slot1 < |s.samplers| && slot2 < |s.textures| && slot2 < |s.samplers| && slot1 != slot2
    ensures SetTextureSpec(SetTextureSpec(s, slot1, texture1, sampler1), slot2, texture2, sampler2) ==
            SetTextureSpec(SetTextureSpec(s, slot2, texture2, sampler2), slot1, texture1, sampler1)
  {
    var a := SetTextureSpec(SetTextureSpec(s, slot1, texture1, sampler1), slot2, texture2, sampler2);
    var b := SetTextureSpec(SetTextureSpec(s, slot2, texture2, sampler2), slot1, texture1, sampler1);
    assert a.textures == b.textures;
    assert a.samplers == b.samplers;
  }

  // ---------------------------------------------------------------------------
  // The constant buffer
  // ---------------------------------------------------------------------------

  /** The parameters, whether they changed since the last upload, and every upload. */
  datatype BufferState = BufferState(parameters: ConstantBufferData, parametersChanged: bool, uploads: seq<ConstantBufferData>)

  /** UpdateBuffer: the parameters are uploaded only when they changed, and the flag is
      cleared. */
  function UpdateBufferSpec(s: BufferState): BufferState {
    if s.parametersChanged then BufferState(s.parameters, false, s.uploads + [s.parameters]) else s
  }

  /** What the changed flag promises: parameters not marked as changed are the ones
      last uploaded. */
  predicate BufferCurrent(s: BufferState) {
    !s.parametersChanged ==> |s.uploads| > 0 && s.uploads[|s.uploads| - 1] == s.parameters
  }

  /** UpdateBuffer uploads exactly when the parameters changed, ends with the flag
      cleared, and a second call changes nothing. */
  lemma UpdateBufferEffect(s: BufferState)
    ensures var r := UpdateBufferSpec(s);
            !r.parametersChanged && r.parameters == s.parameters &&
            (s.parametersChanged ==> r.uploads == s.uploads + [s.parameters]) &&
            (!s.parametersChanged ==> r.uploads == s.uploads) &&
            UpdateBufferSpec(r) == r
  {
  }

  /** When the flag keeps its promise, after UpdateBuffer the GPU buffer holds the
      current parameters, and the promise still holds. */
  lemma UpdateBufferUploadsCurrent(s: BufferState)
    requires BufferCurrent(s)
    ensures var r := UpdateBufferSpec(s);
            BufferCurrent(r) && |r.uploads| > 0 && r.uploads[|r.uploads| - 1] == s.parameters
  {
  }

  /** Changing the parameters marks them as changed, which keeps the promise whatever
      was uploaded before. */
  lemma ChangedParametersCurrent(s: BufferState, p: ConstantBufferData)
    ensures BufferCurrent(BufferState(p, true, s.uploads))
    ensures !BufferCurrent(BufferState(p, false, s.uploads)) <==> |s.uploads| == 0 || s.uploads[|s.uploads| - 1] != p
  {
  }

  // ---------------------------------------------------------------------------
  // Flat materials
  // ---------------------------------------------------------------------------

  /** The blend state CreateFlat leaves: alpha blending only for a base colour whose
      alpha is below one. */
  function FlatBlendState(baseColorFactor: RGBA): (b: BlendState)
    ensures b == AlphaBlended <==> baseColorFactor.a < 1.0
  {
    if baseColorFactor.a < 1.0 then AlphaBlended else Opaque
  }

  /** The default colour and sRGB flag of each slot of a flat material. */
  function FlatSlotColor(slot: nat): (RGBA, bool)
    requires slot < TextureCount
  {
    if slot == BaseColor then (White, true)
    else if slot == MetallicRoughness then (White, false)
    else if slot == Occlusion then (White, false)
    else if slot == Normal then (FlatNormal, false)
    else (White, true)
  }

  /** Every slot of a flat material is white except the normal map, which is the flat
      normal; only the colour slots (base colour and emissive) are sRGB. */
  lemma FlatSlotColors(slot: nat)
    requires slot < TextureCount
    ensures FlatSlotColor(slot).0 == (if slot == Normal then FlatNormal else White)
    ensures FlatSlotColor(slot).1 <==> slot == BaseColor || slot == Emissive
  {
  }

  /** Pbr::VulkanMaterial. The slot tables are fixed-size arrays. */
  class VulkanMaterial {
    var parameters: ConstantBufferData
    var parametersChanged: bool
    var alphaBlended: BlendState
    const textures: array<Option<TextureBundle>>
    const samplers: array<Option<SamplerHandle>>
    ghost var uploads: seq<ConstantBufferData>

    /** Both slot tables have one entry per slot, and parameters not marked as changed
        are the ones last uploaded. */
    ghost predicate Valid()
      reads this
    {
      textures.Length == TextureCount && samplers.Length == TextureCount && BufferCurrent(Buffer())
    }

    /** The slot table. */
    ghost function SlotTable(): Slots
      reads this, textures, samplers
    {
      Slots(textures[..], samplers[..])
    }

    /** The constant-buffer state. */
    ghost function Buffer(): BufferState
      reads this
    {
      BufferState(parameters, parametersChanged, uploads)
    }

    /** A new material: default parameters still to be uploaded, opaque, and empty slots. */
    constructor ()
      ensures Valid() && fresh(textures) && fresh(samplers)
      ensures parameters == DefaultParameters && parametersChanged && alphaBlended == Opaque && uploads == []
      ensures textures[..] == seq(TextureCount, _ => None) && samplers[..] == seq(TextureCount, _ => None)
    {
      parameters := DefaultParameters;
      parametersChanged := true;
      alphaBlended := Opaque;
      uploads := [];
      textures := new Option<TextureBundle>[TextureCount](_ => None);
      samplers := new Option<SamplerHandle>[TextureCount](_ => None);
    }

    /** Writing through Parameters(): the new parameters are marked as changed. */
    method SetParameters(p: ConstantBufferData)
      requires Valid()
      modifies this
      ensures Valid()
      ensures parameters == p && parametersChanged
      ensures alphaBlended == old(alphaBlended) && uploads == old(uploads)
    {
      parameters := p;
      parametersChanged := true;
    }

    method SetAlphaBlended(b: BlendState)
      requires Valid()
      modifies this
      ensures Valid()
      ensures alphaBlended == b
      ensures parameters == old(parameters) && parametersChanged == old(parametersChanged) && uploads == old(uploads)
    {
      alphaBlended := b;
    }

    /** SetTexture. */
    method SetTexture(slot: nat, texture: Option<TextureBundle>, sampler: Option<SamplerHandle>)
      requires Valid() && slot < TextureCount
      modifies textures, samplers
      ensures SlotTable() == SetTextureSpec(old(SlotTable()), slot, texture, sampler)
    {
      textures[slot] := texture;
      if sampler.Some? {
        samplers[slot] := sampler;
      }
    }

    /** UpdateBuffer. */
    method UpdateBuffer()
      requires Valid()
      modifies this
      ensures Valid() && |uploads| > 0 && uploads[|uploads| - 1] == parameters
      ensures Buffer() == UpdateBufferSpec(old(Buffer()))
      ensures alphaBlended == old(alphaBlended)
    {
      if parametersChanged {
        parametersChanged := false;
        uploads := uploads + [parameters];
      }
    }

    /** GetTextureDescriptors: one descriptor per slot, from the slot's sampler and view,
        in the shader-read layout. Every slot must be filled, since both pointers are
        dereferenced. */
    method GetTextureDescriptors() returns (ret: seq<DescriptorImageInfo>)
      requires Valid()
      requires forall i :: 0 <= i < TextureCount ==> textures[i].Some? && samplers[i].Some?
      ensures |ret| == TextureCount
      ensures forall i :: 0 <= i < TextureCount ==>
                ret[i] == DescriptorImageInfo(samplers[i].value, textures[i].value.view, SHADER_READ_ONLY_OPTIMAL)
    {
      var infos := new DescriptorImageInfo[TextureCount](_ => DescriptorImageInfo(SamplerHandle(0), 0, 0));
      for i := 0 to TextureCount
        invariant forall j :: 0 <= j < i ==>
                    infos[j] == DescriptorImageInfo(samplers[j].value, textures[j].value.view, SHADER_READ_ONLY_OPTIMAL)
      {
        infos[i] := DescriptorImageInfo(samplers[i].value, textures[i].value.view, SHADER_READ_ONLY_OPTIMAL);
      }
      ret := infos[..];
    }

    /** Clone: a new material with the parameters and blend state of this one (CopyFrom)
        and copies of both slot tables. */
    method Clone() returns (clone: VulkanMaterial)
      requires Valid()
      ensures fresh(clone) && fresh(clone.textures) && fresh(clone.samplers) && clone.Valid()
      ensures clone.parameters == parameters && clone.alphaBlended == alphaBlended && clone.parametersChanged
      ensures clone.SlotTable() == SlotTable()
    {
      clone := new VulkanMaterial();
      clone.SetParameters(parameters);
      clone.SetAlphaBlended(alphaBlended);
      for i := 0 to TextureCount
        invariant clone.parameters == parameters && clone.alphaBlended == alphaBlended && clone.parametersChanged
        invariant forall j :: 0 <= j < i ==> clone.textures[j] == textures[j] && clone.samplers[j] == samplers[j]
      {
        clone.textures[i] := textures[i];
        clone.samplers[i] := samplers[i];
      }
    }
  }

  /** CreateFlat: a material with the given factors, alpha blended when the base colour
      is translucent, and every slot given a solid-colour texture with the one default
      sampler. The texture factory and the default sampler stand for the device calls
      of VulkanResources and VulkanTexture. */
  method CreateFlat(baseColorFactor: RGBA, roughnessFactor: real, metallicFactor: real, emissiveFactor: RGB,
                    createSolidColorTexture: (RGBA, bool) -> TextureBundle, defaultSampler: SamplerHandle)
    returns (material: VulkanMaterial)
    ensures fresh(material) && material.Valid()
    ensures material.alphaBlended == FlatBlendState(baseColorFactor)
    ensures material.parameters == ConstantBufferData(baseColorFactor, emissiveFactor, metallicFactor, roughnessFactor)
    ensures material.parametersChanged
    ensures forall slot :: 0 <= slot < TextureCount ==>
              material.textures[slot] == Some(createSolidColorTexture(FlatSlotColor(slot).0, FlatSlotColor(slot).1)) &&
              material.samplers[slot] == Some(defaultSampler)
  {
    material := new VulkanMaterial();
    if baseColorFactor.a < 1.0 {
      material.SetAlphaBlended(AlphaBlended);
    }
    material.SetParameters(ConstantBufferData(baseColorFactor, emissiveFactor, metallicFactor, roughnessFactor));
    material.SetTexture(BaseColor, Some(createSolidColorTexture(White, true)), Some(defaultSampler));
    material.SetTexture(MetallicRoughness, Some(createSolidColorTexture(White, false)), Some(defaultSampler));
    material.SetTexture(Occlusion, Some(createSolidColorTexture(White, false)), Some(defaultSampler));
    material.SetTexture(Normal, Some(createSolidColorTexture(FlatNormal, false)), Some(defaultSampler));
    material.SetTexture(Emissive, Some(createSolidColorTexture(White, true)), Some(defaultSampler));
  }
}
