/**
 * The small enumeration mappings of the main window: the contrast-input
 * combo box, the radio-button groups of the seamless modes and the
 * per-channel settings group loadImageSettings copies.
 */
module SeamlessSettings {
  import opened Wrappers
  import opened Textures

  /** The seamless tiling mode (Image::seamlessMode). */
  datatype SeamlessMode = SeamlessNone | SeamlessSimple | SeamlessMirror | SeamlessRandom

  // ---------------------------------------------------------------------
  // selectContrastInputImage

  /** The image the seamless contrast is applied to after choosing combo
      entry `mode`; an index outside the four entries keeps the current one. */
  function ContrastInputFor(mode: int, current: InputImageType): (r: InputImageType)
  {
    if mode == 0 then HeightInput
    else if mode == 1 then DiffuseInput
    else if mode == 2 then NormalInput
    else if mode == 3 then OcclusionInput
    else current
  }

  /** The combo entry that shows a contrast input, if any. */
  function ContrastEntry(t: InputImageType): (r: Option<int>)
    ensures r.Some? ==> 0 <= r.value < 4
  {
    match t
    case HeightInput => Some(0)
    case DiffuseInput => Some(1)
    case NormalInput => Some(2)
    case OcclusionInput => Some(3)
    case _ => None
  }

  /** Choosing an entry selects the input that entry shows, and selecting
      the entry of an input gives that input back: the four entries and
      the four contrast inputs correspond one to one. Any other index
      changes nothing. */
  lemma ContrastEntryRoundTrip(mode: int, current: InputImageType, t: InputImageType)
    ensures 0 <= mode < 4 ==> ContrastEntry(ContrastInputFor(mode, current)) == Some(mode)
    ensures !(0 <= mode < 4) ==> ContrastInputFor(mode, current) == current
    ensures ContrastEntry(t).Some? ==> ContrastInputFor(ContrastEntry(t).value, current) == t
  {
  }

  // ---------------------------------------------------------------------
  // The radio-button part of updateSliders

  /** The checked state of a group of three radio buttons (XY, X, Y). */
  datatype RadioButtons = RadioButtons(xy: bool, x: bool, y: bool)

  /** The code updateSliders stores for a group: the buttons are tested
      XY, X, Y in turn and each checked one overwrites the code (0, 1, 2);
      with none checked the code is kept. */
  function RadioCode(buttons: RadioButtons, current: int): (code: int)
    ensures buttons.xy || buttons.x || buttons.y ==> 0 <= code <= 2
    ensures !(buttons.xy || buttons.x || buttons.y) ==> code == current
  {
    var afterXY := if buttons.xy then 0 else current;
    var afterX := if buttons.x then 1 else afterXY;
    if buttons.y then 2 else afterX
  }

  /** A mirror axis or simple-mode direction as a tagged choice. */
  datatype Axis = BothAxes | XAxis | YAxis

  function AxisCode(a: Axis): int
  {
    match a
    case BothAxes => 0
    case XAxis => 1
    case YAxis => 2
  }

  /** The buttons of an exclusive group with only `a` checked. */
  function ExclusiveButtons(a: Axis): RadioButtons
  {
    RadioButtons(a == BothAxes, a == XAxis, a == YAxis)
  }

  /** With an exclusive group, the stored code is exactly the code of the
      checked button, whatever the previous code was. */
  lemma RadioCodeOfExclusiveGroup(a: Axis, current: int)
    ensures RadioCode(ExclusiveButtons(a), current) == AxisCode(a)
  {
  }

  // ---------------------------------------------------------------------
  // loadImageSettings

  /** The settings group loadImageSettings copies into the image widget of
      channel `t`: the group named after that channel. The material
      channel has no image widget, so it is rejected with a warning that
      carries the channel's integer. */
  function LoadImageSettings(t: TextureType): (r: Result<TextureType, nat>)
    ensures r.Failure? <==> t == Material
    ensures r.Success? ==> r.value == t
    ensures r.Failure? ==> r.error == Index(t)
  {
    match t
    case Diffuse => Success(Diffuse)
    case Normal => Success(Normal)
    case Specular => Success(Specular)
    case Height => Success(Height)
    case Occlusion => Success(Occlusion)
    case Roughness => Success(Roughness)
    case Metallic => Success(Metallic)
    case Grunge => Success(Grunge)
    case Material => Failure(Index(Material))
  }
}
