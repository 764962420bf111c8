/** A model of vtkGLTFTexture::GetVTKTexture, which turns the sampler of a
    glTF 2.0 texture (section "Samplers" of the Khronos glTF 2.0
    specification: magnification and minification filters, S and T wrap
    modes) into the settings of a newly created vtkTexture. */
module GLTFTexture {

  /** The glTF sampler filter modes. */
  datatype FilterType =
    | NEAREST
    | LINEAR
    | NEAREST_MIPMAP_NEAREST
    | LINEAR_MIPMAP_NEAREST
    | NEAREST_MIPMAP_LINEAR
    | LINEAR_MIPMAP_LINEAR

  /** The glTF sampler wrap modes. */
  datatype WrapType = CLAMP_TO_EDGE | MIRRORED_REPEAT | REPEAT

  datatype Sampler = Sampler(magFilter: FilterType, minFilter: FilterType, wrapS: WrapType, wrapT: WrapType)

  /** The image a texture reads; the glTF texture's image may be missing. */
  datatype ImageRef = NoImage | Image(handle: nat)

  /** A glTF texture as the loader delivers it. */
  datatype Texture = Texture(sampler: Sampler, image: ImageRef)

  /** vtkTexture's colour modes (VTK_COLOR_MODE_...). */
  datatype ColorMode = DefaultColorMode | MapScalars | DirectScalars

  /** vtkTexture's blending modes (VTK_TEXTURE_BLENDING_MODE_...). */
  datatype BlendingMode = NoBlending | Replace | Modulate | Add | AddSigned | InterpolateBlend | Subtract

  /** The settings of a vtkTexture this conversion touches. */
  datatype TextureSettings = TextureSettings(
    colorMode: ColorMode,
    blendingMode: BlendingMode,
    mipmap: bool,
    repeat: bool,
    edgeClamp: bool,
    interpolate: bool,
    input: ImageRef)

  // ---------------------------------------------------------------------
  // What the glTF filter names mean

  datatype Sampling = Nearest | Linear

  /** How texels are combined within one level: the first word of the name. */
  function TexelSampling(f: FilterType): Sampling {
    match f
    case NEAREST | NEAREST_MIPMAP_NEAREST | NEAREST_MIPMAP_LINEAR => Nearest
    case LINEAR | LINEAR_MIPMAP_NEAREST | LINEAR_MIPMAP_LINEAR => Linear
  }

  /** How mipmap levels are combined: none, or the word after MIPMAP. */
  datatype MipSampling = NoMipmap | Between(sampling: Sampling)

  function LevelSampling(f: FilterType): MipSampling {
    match f
    case NEAREST | LINEAR => NoMipmap
    case NEAREST_MIPMAP_NEAREST | LINEAR_MIPMAP_NEAREST => Between(Nearest)
    case NEAREST_MIPMAP_LINEAR | LINEAR_MIPMAP_LINEAR => Between(Linear)
  }

  /** The filter reads mipmap levels. */
  predicate UsesMipmaps(f: FilterType) {
    LevelSampling(f) != NoMipmap
  }

  /** Some stage of the filter interpolates linearly. */
  predicate HasLinearStage(f: FilterType) {
    TexelSampling(f) == Linear || LevelSampling(f) == Between(Linear)
  }

  /** Rebuilds a filter from its two stages. With FilterDecomposition it
      shows that TexelSampling and LevelSampling split each filter name
      exactly, so the two predicates above lose nothing of the name. */
  function FilterOf(texel: Sampling, level: MipSampling): (f: FilterType)
    ensures TexelSampling(f) == texel && LevelSampling(f) == level
  {
    match (texel, level)
    case (Nearest, NoMipmap) => NEAREST
    case (Linear, NoMipmap) => LINEAR
    case (Nearest, Between(Nearest)) => NEAREST_MIPMAP_NEAREST
    case (Linear, Between(Nearest)) => LINEAR_MIPMAP_NEAREST
    case (Nearest, Between(Linear)) => NEAREST_MIPMAP_LINEAR
    case (Linear, Between(Linear)) => LINEAR_MIPMAP_LINEAR
  }

  lemma FilterDecomposition(f: FilterType)
    ensures FilterOf(TexelSampling(f), LevelSampling(f)) == f
  {
  }

  // ---------------------------------------------------------------------
  // The conversion

  /** Builds the texture settings by the same setter calls, in the same
      order, as GetVTKTexture; defaults holds the settings of a newly created
      vtkTexture, which survive wherever no setter is called. warned is
      the "mirrored wrapping is not supported" warning. */
  method GetVTKTexture(gltf: Texture, defaults: TextureSettings) returns (texture: TextureSettings, warned: bool)
    ensures texture.colorMode == DirectScalars
    ensures texture.blendingMode == Modulate
    ensures texture.input == gltf.image
    ensures texture.mipmap <==> UsesMipmaps(gltf.sampler.minFilter)
    ensures (gltf.sampler.wrapS == CLAMP_TO_EDGE || gltf.sampler.wrapT == CLAMP_TO_EDGE) ==>
      !texture.repeat && texture.edgeClamp
    ensures (&& gltf.sampler.wrapS != CLAMP_TO_EDGE && gltf.sampler.wrapT != CLAMP_TO_EDGE
             && (gltf.sampler.wrapS == REPEAT || gltf.sampler.wrapT == REPEAT)) ==>
      texture.repeat && !texture.edgeClamp
    ensures warned <==> gltf.sampler.wrapS == MIRRORED_REPEAT && gltf.sampler.wrapT == MIRRORED_REPEAT
    ensures warned ==> texture.repeat == defaults.repeat && texture.edgeClamp == defaults.edgeClamp
    ensures texture.interpolate <==>
      HasLinearStage(gltf.sampler.minFilter) || HasLinearStage(gltf.sampler.magFilter) || defaults.interpolate
  {
    var sampler := gltf.sampler;
    texture := defaults;
    texture := texture.(colorMode := DirectScalars);
    texture := texture.(blendingMode := Modulate);
    // Mipmaps only for the mipmap minification filters.
    if sampler.minFilter == NEAREST || sampler.minFilter == LINEAR {
      texture := texture.(mipmap := false);
    } else {
      texture := texture.(mipmap := true);
    }

    warned := false;
    if sampler.wrapS == CLAMP_TO_EDGE || sampler.wrapT == CLAMP_TO_EDGE {
      texture := texture.(repeat := false);
      texture := texture.(edgeClamp := true);
    } else if sampler.wrapS == REPEAT || sampler.wrapT == REPEAT {
      texture := texture.(repeat := true);
      texture := texture.(edgeClamp := false);
    } else {
      warned := true;
    }

    if sampler.minFilter == LINEAR || sampler.minFilter == LINEAR_MIPMAP_NEAREST ||
       sampler.minFilter == NEAREST_MIPMAP_LINEAR || sampler.minFilter == LINEAR_MIPMAP_LINEAR ||
       sampler.magFilter == LINEAR || sampler.magFilter == LINEAR_MIPMAP_NEAREST ||
       sampler.magFilter == NEAREST_MIPMAP_LINEAR || sampler.magFilter == LINEAR_MIPMAP_LINEAR
    {
      texture := texture.(interpolate := true);
    }
    texture := texture.(input := gltf.image);
  }
}
