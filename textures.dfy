/**
 * The enumerations shared by the AwesomeBump pipeline: the texture
 * channels, the conversion modes of the 2D image widget and the input a
 * derived channel reads from.
 */
module Textures {

  /** One texture channel of a material set, in the order of the
      source's TextureType enumeration (which is also the tab order). */
  datatype TextureType =
    | Diffuse | Normal | Specular | Height | Occlusion
    | Roughness | Metallic | Material | Grunge

  /** Number of texture channels (TEXTURES in the source). */
  const TextureCount := 9

  /** The integer the source uses for a texture channel. */
  function Index(t: TextureType): (i: nat)
    ensures i < TextureCount
  {
    match t
    case Diffuse => 0
    case Normal => 1
    case Specular => 2
    case Height => 3
    case Occlusion => 4
    case Roughness => 5
    case Metallic => 6
    case Material => 7
    case Grunge => 8
  }

  /** The channel the integer `i` stands for (the cast `(TextureType)i`). */
  function TextureAt(i: nat): (t: TextureType)
    requires i < TextureCount
    ensures Index(t) == i
  {
    if i == 0 then Diffuse
    else if i == 1 then Normal
    else if i == 2 then Specular
    else if i == 3 then Height
    else if i == 4 then Occlusion
    else if i == 5 then Roughness
    else if i == 6 then Metallic
    else if i == 7 then Material
    else Grunge
  }

  /** The cast back from an integer undoes `Index`: no two channels share an integer. */
  lemma TextureAtIndex(t: TextureType)
    ensures TextureAt(Index(t)) == t
  {
  }

  /** The conversion the 2D widget applies when it renders a channel. */
  datatype ConversionType =
    | ConvertNone
    | HeightToNormal
    | NormalToHeight
    | DiffuseToOthers
    | HeightNormalToOcclusion

  /** Where a derived channel takes its input from. */
  datatype InputImageType =
    | OwnInput               // the channel's own loaded image
    | HeightInput            // the loaded height image
    | DiffuseInput           // the loaded diffuse image
    | NormalInput            // the loaded normal image
    | OcclusionInput         // the loaded occlusion image
    | HeightOutput           // the rendered height channel
    | DiffuseOutput          // the rendered diffuse channel
    | HeightNormalInputs     // the loaded height and normal images
    | HeightNormalOutputs    // the rendered height and normal channels
}
