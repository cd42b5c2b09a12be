/**
 * The main window's orchestration of the texture pipeline. The window
 * holds the state its slots read and update (the diffuse image's
 * EnableConversion flag, the process-wide Image settings, the save flags
 * and check boxes, the input selectors of the channel widgets, the batch
 * list) and drives the 2D image widget, whose requests are recorded in
 * its trace. Loads and saves are recorded in `io`.
 */
module MainWindowModel {
  import opened Textures
  import opened ImageWidget2D
  import opened Pipeline
  import opened Saving
  import opened SeamlessSettings
  import opened Seqs

  class MainWindow {
    /** The 2D image widget the window drives. */
    const view: OpenGL2DImageWidget

    /** BaseMapToOthers.EnableConversion of the diffuse image. */
    var enableConversion: bool
    /** The function-static bLastValue of materialsToggled. */
    var lastConversionValue: bool
    /** Image::currentMaterialIndex. */
    var currentMaterialIndex: int
    /** Image::seamlessMode. */
    var seamlessMode: SeamlessMode
    /** Image::seamlessContrastImageType. */
    var seamlessContrastImageType: InputImageType
    /** Image::seamlessMirroModeType. */
    var mirrorModeType: int
    /** Image::seamlessSimpleModeDirection. */
    var simpleModeDirection: int
    /** bSaveCheckedImages and bSaveCompressedFormImages. */
    var saveChecked: bool
    var saveCompressed: bool
    /** The seven save check boxes. */
    var saveBoxes: SaveBoxes
    /** The input selectors of the derived channel widgets. */
    var inputs: Inputs
    /** The names listed in the batch list widget. */
    var batch: seq<string>
    /** The text of the output-name line edit. */
    var outputName: string
    /** Every load and save, in order. */
    ghost var io: seq<IoEvent>
    /** The value of EnableConversion in effect at each base conversion,
        in order: the flag the derivation of the other channels from the
        diffuse image runs under. */
    ghost var conversionFlags: seq<bool>

    constructor (conversionEnabled: bool, materialIndex: int, widgetInputs: Inputs, boxes: SaveBoxes)
      ensures fresh(view)
      ensures !view.shadowRender && view.trace == []
      ensures enableConversion == conversionEnabled && !lastConversionValue
      ensures currentMaterialIndex == materialIndex && inputs == widgetInputs && saveBoxes == boxes
      ensures !saveChecked && !saveCompressed && batch == [] && io == [] && conversionFlags == []
    {
      view := new OpenGL2DImageWidget();
      enableConversion := conversionEnabled;
      lastConversionValue := false;
      currentMaterialIndex := materialIndex;
      seamlessMode := SeamlessNone;
      seamlessContrastImageType := HeightInput;
      mirrorModeType, simpleModeDirection := 0, 0;
      saveChecked, saveCompressed := false, false;
      saveBoxes := boxes;
      inputs := widgetInputs;
      batch := [];
      outputName := "";
      io := [];
      conversionFlags := [];
    }

    /** updateImage: activates channel `t` in the 2D widget. */
    method UpdateImage(t: TextureType)
      modifies view
      ensures view.activeTexture == t
      ensures view.trace == old(view.trace) + [Render(t, view.shadowRender, view.conversionType)]
      ensures view.shadowRender == old(view.shadowRender) && view.conversionType == old(view.conversionType)
      ensures view.fboWidth == old(view.fboWidth) && view.fboHeight == old(view.fboHeight)
    {
      view.SetActiveTextureType(t);
    }

    /** One shadow render of a replot: `t` is rendered in shadow mode after
        the channels `done`. */
    method ShadowStep(ghost base: seq<Event>, ghost done: seq<TextureType>, t: TextureType)
      requires view.shadowRender
      requires view.trace == base + Renders(done, true, view.conversionType)
      modifies view
      ensures view.trace == base + Renders(done + [t], true, view.conversionType)
      ensures view.shadowRender && view.conversionType == old(view.conversionType)
      ensures view.fboWidth == old(view.fboWidth) && view.fboHeight == old(view.fboHeight)
    {
      UpdateImage(t);
      RendersSnoc(done, t, true, view.conversionType);
    }

    /** Four consecutive shadow renders of a replot. */
    method ShadowSteps(ghost base: seq<Event>, ghost done: seq<TextureType>,
                       t0: TextureType, t1: TextureType, t2: TextureType, t3: TextureType)
      requires view.shadowRender
      requires view.trace == base + Renders(done, true, view.conversionType)
      modifies view
      ensures view.trace == base + Renders(done + [t0, t1, t2, t3], true, view.conversionType)
      ensures view.shadowRender && view.conversionType == old(view.conversionType)
      ensures view.fboWidth == old(view.fboWidth) && view.fboHeight == old(view.fboHeight)
    {
      ShadowStep(base, done, t0);
      ShadowStep(base, done + [t0], t1);
      ShadowStep(base, done + [t0] + [t1], t2);
      ShadowStep(base, done + [t0] + [t1] + [t2], t3);
      assert done + [t0] + [t1] + [t2] + [t3] == done + [t0, t1, t2, t3];
    }

    /** replotAllImages: re-renders every channel in dependency order with
        shadow rendering on, then shows the channel active on entry. */
    method ReplotAllImages()
      modifies view
      ensures view.trace == old(view.trace) + ReplotEvents(old(view.activeTexture), old(view.conversionType))
      ensures view.activeTexture == old(view.activeTexture) && !view.shadowRender
      ensures view.conversionType == old(view.conversionType)
      ensures view.fboWidth == old(view.fboWidth) && view.fboHeight == old(view.fboHeight)
    {
      var lastActive := view.activeTexture;
      ghost var base := view.trace;
      view.EnableShadowRender(true);
      ghost var grunge: seq<TextureType> := [];
      if view.conversionType != DiffuseToOthers {
        ShadowStep(base, [], Grunge);
        grunge := [Grunge];
      }
      ShadowSteps(base, grunge, Diffuse, Roughness, Metallic, Height);
      ShadowSteps(base, grunge + [Diffuse, Roughness, Metallic, Height], Normal, Occlusion, Specular, Material);
      assert grunge + [Diffuse, Roughness, Metallic, Height] + [Normal, Occlusion, Specular, Material]
          == ReplotOrder(old(view.conversionType));
      view.EnableShadowRender(false);
      view.SetActiveTextureType(lastActive);
    }

    /** materialsToggled: turning materials on saves EnableConversion in
        the static, clears it and replots if it was set; turning them off
        restores the saved value. */
    method MaterialsToggled(toggle: bool)
      modifies this`enableConversion, this`lastConversionValue, view
      ensures toggle ==> lastConversionValue == old(enableConversion) && !enableConversion
      ensures !toggle ==> enableConversion == old(lastConversionValue) && lastConversionValue == old(lastConversionValue)
      ensures view.trace == old(view.trace)
        + (if toggle && old(enableConversion) then ReplotEvents(old(view.activeTexture), old(view.conversionType)) else [])
      ensures view.shadowRender == (old(view.shadowRender) && !(toggle && old(enableConversion)))
      ensures view.activeTexture == old(view.activeTexture) && view.conversionType == old(view.conversionType)
      ensures view.fboWidth == old(view.fboWidth) && view.fboHeight == old(view.fboHeight)
    {
      if toggle {
        lastConversionValue := enableConversion;
        enableConversion := false;
        if lastConversionValue {
          ReplotAllImages();
        }
      } else {
        enableConversion := lastConversionValue;
      }
    }

    /** One attached-mode refresh: `dep` rendered in shadow mode, then the
        changed channel `changed` shown again; `dep` joins the dependents
        already refreshed. */
    method RefreshDependent(ghost base: seq<Event>, ghost done: seq<TextureType>, dep: TextureType, changed: TextureType)
      requires view.trace == base + RefreshEvents(done, changed, view.conversionType)
      modifies view
      ensures view.trace == base + RefreshEvents(done + [dep], changed, view.conversionType)
      ensures view.activeTexture == changed && !view.shadowRender
      ensures view.conversionType == old(view.conversionType)
      ensures view.fboWidth == old(view.fboWidth) && view.fboHeight == old(view.fboHeight)
    {
      view.EnableShadowRender(true);
      UpdateImage(dep);
      view.EnableShadowRender(false);
      UpdateImage(changed);
      RefreshEventsSnoc(done, dep, changed, view.conversionType);
    }

    /** One guarded refresh of an update slot: performed when `attached`
        holds, nothing otherwise. */
    method RefreshWhen(ghost base: seq<Event>, ghost done: seq<TextureType>, attached: bool, dep: TextureType, changed: TextureType)
      requires view.trace == base + RefreshEvents(done, changed, view.conversionType)
      modifies view
      ensures view.trace == base + RefreshEvents(done + (if attached then [dep] else []), changed, view.conversionType)
      ensures attached ==> view.activeTexture == changed && !view.shadowRender
      ensures !attached ==> view.activeTexture == old(view.activeTexture) && view.shadowRender == old(view.shadowRender)
      ensures view.conversionType == old(view.conversionType)
      ensures view.fboWidth == old(view.fboWidth) && view.fboHeight == old(view.fboHeight)
    {
      if attached {
        RefreshDependent(base, done, dep, changed);
      } else {
        assert done + [] == done;
      }
    }

    /** updateHeightImage: refreshes normal, specular, occlusion, roughness
        and metallic, in that order, each when it depends on height. */
    method UpdateHeightImage()
      modifies view
      ensures view.trace == old(view.trace) + RefreshEvents(HeightDependents(inputs), Height, old(view.conversionType))
      ensures view.activeTexture == if HeightDependents(inputs) == [] then old(view.activeTexture) else Height
      ensures view.shadowRender == (old(view.shadowRender) && HeightDependents(inputs) == [])
      ensures view.conversionType == old(view.conversionType)
      ensures view.fboWidth == old(view.fboWidth) && view.fboHeight == old(view.fboHeight)
    {
      ghost var base := view.trace;
      var normal := inputs.normal == HeightOutput;
      var specular := inputs.specular == HeightOutput;
      var occlusion := inputs.occlusion == HeightNormalInputs || inputs.occlusion == HeightNormalOutputs;
      var roughness := inputs.roughness == HeightOutput;
      var metallic := inputs.metallic == HeightOutput;
      ghost var d0: seq<TextureType> := [];
      RefreshWhen(base, d0, normal, Normal, Height);
      ghost var d1 := d0 + (if normal then [Normal] else []);
      RefreshWhen(base, d1, specular, Specular, Height);
      ghost var d2 := d1 + (if specular then [Specular] else []);
      RefreshWhen(base, d2, occlusion, Occlusion, Height);
      ghost var d3 := d2 + (if occlusion then [Occlusion] else []);
      RefreshWhen(base, d3, roughness, Roughness, Height);
      ghost var d4 := d3 + (if roughness then [Roughness] else []);
      RefreshWhen(base, d4, metallic, Metallic, Height);
      assert d0 + (if normal then [Normal] else []) == (if normal then [Normal] else []);
    }

    /** updateDiffuseImage: refreshes specular, roughness and metallic, in
        that order, each when it reads the diffuse output. */
    method UpdateDiffuseImage()
      modifies view
      ensures view.trace == old(view.trace) + RefreshEvents(DiffuseDependents(inputs), Diffuse, old(view.conversionType))
      ensures view.activeTexture == if DiffuseDependents(inputs) == [] then old(view.activeTexture) else Diffuse
      ensures view.shadowRender == (old(view.shadowRender) && DiffuseDependents(inputs) == [])
      ensures view.conversionType == old(view.conversionType)
      ensures view.fboWidth == old(view.fboWidth) && view.fboHeight == old(view.fboHeight)
    {
      ghost var base := view.trace;
      var specular := inputs.specular == DiffuseOutput;
      var roughness := inputs.roughness == DiffuseOutput;
      var metallic := inputs.metallic == DiffuseOutput;
      ghost var d0: seq<TextureType> := [];
      RefreshWhen(base, d0, specular, Specular, Diffuse);
      ghost var d1 := d0 + (if specular then [Specular] else []);
      RefreshWhen(base, d1, roughness, Roughness, Diffuse);
      ghost var d2 := d1 + (if roughness then [Roughness] else []);
      RefreshWhen(base, d2, metallic, Metallic, Diffuse);
      assert d0 + (if specular then [Specular] else []) == (if specular then [Specular] else []);
    }

    /** updateNormalImage: refreshes occlusion when it reads the height and
        normal outputs. */
    method UpdateNormalImage()
      modifies view
      ensures view.trace == old(view.trace) + RefreshEvents(NormalDependents(inputs), Normal, old(view.conversionType))
      ensures view.activeTexture == if NormalDependents(inputs) == [] then old(view.activeTexture) else Normal
      ensures view.shadowRender == (old(view.shadowRender) && NormalDependents(inputs) == [])
      ensures view.conversionType == old(view.conversionType)
      ensures view.fboWidth == old(view.fboWidth) && view.fboHeight == old(view.fboHeight)
    {
      if inputs.occlusion == HeightNormalOutputs {
        RefreshDependent(view.trace, [], Occlusion, Normal);
      }
    }

    /** disableMaterials of the material manager. The manager is not part of
        this model; disabling is taken to leave no current material. */
    method DisableMaterials()
      modifies this`currentMaterialIndex
      ensures currentMaterialIndex == -1
    {
      currentMaterialIndex := -1;
    }

    /** The loop shared by the resize and rescale slots: for every channel
        index, a framebuffer resize and a shadow render of that channel,
        grunge passed over when `skipGrunge` is set. */
    method ResizeTextures(width: int, height: int, skipGrunge: bool)
      modifies view
      ensures view.trace == old(view.trace) + ResizeEvents(width, height, old(view.conversionType), skipGrunge, TextureCount)
      ensures view.shadowRender && view.conversionType == old(view.conversionType)
      ensures view.fboWidth == width && view.fboHeight == height
    {
      ghost var c := view.conversionType;
      view.EnableShadowRender(true);
      var i := 0;
      while i < TextureCount
        invariant 0 <= i <= TextureCount
        invariant view.shadowRender && view.conversionType == c
        invariant view.trace == old(view.trace) + ResizeEvents(width, height, c, skipGrunge, i)
        invariant i > 0 ==> view.fboWidth == width && view.fboHeight == height
      {
        if !(skipGrunge && TextureAt(i) == Grunge) {
          view.ResizeFbo(width, height);
          UpdateImage(TextureAt(i));
        }
        i := i + 1;
      }
    }

    /** applyResizeImage (both overloads; the one without arguments reads
        the two sizes from the resize combo boxes): resizes every channel
        but grunge, shows the entry channel again, replots, and restores
        the current material index. */
    method ApplyResizeImage(width: int, height: int)
      modifies view, this`currentMaterialIndex
      ensures view.trace == old(view.trace)
        + ResizeImageEvents(width, height, old(view.activeTexture), old(view.conversionType), true)
      ensures view.activeTexture == old(view.activeTexture) && !view.shadowRender
      ensures view.conversionType == old(view.conversionType)
      ensures view.fboWidth == width && view.fboHeight == height
      ensures currentMaterialIndex == old(currentMaterialIndex)
    {
      var materialIndex := currentMaterialIndex;
      DisableMaterials();
      var lastActive := view.activeTexture;
      ResizeTextures(width, height, true);
      view.EnableShadowRender(false);
      view.SetActiveTextureType(lastActive);
      ReplotAllImages();
      currentMaterialIndex := materialIndex;
    }

    /** applyScaleImage, given the scaled sizes: like a resize, but the
        grunge map is resized too. */
    method ApplyScaleImage(width: int, height: int)
      modifies view, this`currentMaterialIndex
      ensures view.trace == old(view.trace)
        + ResizeImageEvents(width, height, old(view.activeTexture), old(view.conversionType), false)
      ensures view.activeTexture == old(view.activeTexture) && !view.shadowRender
      ensures view.conversionType == old(view.conversionType)
      ensures view.fboWidth == width && view.fboHeight == height
      ensures currentMaterialIndex == old(currentMaterialIndex)
    {
      var materialIndex := currentMaterialIndex;
      DisableMaterials();
      var lastActive := view.activeTexture;
      ResizeTextures(width, height, false);
      view.EnableShadowRender(false);
      view.SetActiveTextureType(lastActive);
      ReplotAllImages();
      currentMaterialIndex := materialIndex;
    }

    /** convertFromHtoN. */
    method ConvertFromHtoN()
      modifies view
      ensures view.trace == old(view.trace) + HeightToNormalEvents()
      ensures view.activeTexture == Normal && !view.shadowRender && view.conversionType == ConvertNone
      ensures view.fboWidth == old(view.fboWidth) && view.fboHeight == old(view.fboHeight)
    {
      view.SetConversionType(HeightToNormal);
      view.EnableShadowRender(true);
      view.SetActiveTextureType(Height);
      view.EnableShadowRender(true);
      view.SetConversionType(HeightToNormal);
      view.SetActiveTextureType(Normal);
      view.EnableShadowRender(false);
      view.SetConversionType(ConvertNone);
      ReplotAllImages();
    }

    /** convertFromNtoH. The conversion type is left at normal-to-height. */
    method ConvertFromNtoH()
      modifies view
      ensures view.trace == old(view.trace) + NormalToHeightEvents()
      ensures view.activeTexture == Height && !view.shadowRender && view.conversionType == NormalToHeight
      ensures view.fboWidth == old(view.fboWidth) && view.fboHeight == old(view.fboHeight)
    {
      view.SetConversionType(HeightToNormal);
      view.EnableShadowRender(true);
      view.SetActiveTextureType(Height);
      view.SetConversionType(NormalToHeight);
      view.EnableShadowRender(true);
      view.SetActiveTextureType(Normal);
      view.SetConversionType(NormalToHeight);
      view.EnableShadowRender(true);
      view.SetActiveTextureType(Height);
      view.EnableShadowRender(false);
      ReplotAllImages();
    }

    /** convertFromHNtoOcc. */
    method ConvertFromHNtoOcc()
      modifies view
      ensures view.trace == old(view.trace) + HeightNormalToOcclusionEvents()
      ensures view.activeTexture == Occlusion && !view.shadowRender
      ensures view.conversionType == HeightNormalToOcclusion
      ensures view.fboWidth == old(view.fboWidth) && view.fboHeight == old(view.fboHeight)
    {
      view.SetConversionType(HeightNormalToOcclusion);
      view.EnableShadowRender(true);
      view.SetActiveTextureType(Height);
      view.SetConversionType(HeightNormalToOcclusion);
      view.EnableShadowRender(true);
      view.SetActiveTextureType(Normal);
      view.SetConversionType(HeightNormalToOcclusion);
      view.EnableShadowRender(true);
      view.SetActiveTextureType(Occlusion);
      view.EnableShadowRender(false);
      ReplotAllImages();
    }

    /** convertFromBase: derives the other channels from the diffuse image,
        restores the entry channel and leaves the diffuse-to-others
        conversion set. */
    method ConvertFromBase()
      modifies this`conversionFlags, view
      ensures conversionFlags == old(conversionFlags) + [enableConversion]
      ensures view.trace == old(view.trace)
        + FromBaseEvents(old(view.activeTexture), old(view.shadowRender), old(view.conversionType))
      ensures view.activeTexture == old(view.activeTexture) && !view.shadowRender
      ensures view.conversionType == DiffuseToOthers
      ensures view.fboWidth == old(view.fboWidth) && view.fboHeight == old(view.fboHeight)
    {
      var lastActive := view.activeTexture;
      view.SetActiveTextureType(Diffuse);
      conversionFlags := conversionFlags + [enableConversion];
      view.SetConversionType(DiffuseToOthers);
      view.SetConversionType(DiffuseToOthers);
      ReplotAllImages();
      view.SetActiveTextureType(lastActive);
    }

    /** selectSeamlessMode, as far as the pipeline sees it. */
    method SelectSeamlessMode(mode: SeamlessMode)
      modifies this`seamlessMode, view
      ensures seamlessMode == mode
      ensures view.trace == old(view.trace) + ReplotEvents(old(view.activeTexture), old(view.conversionType))
      ensures view.activeTexture == old(view.activeTexture) && !view.shadowRender
      ensures view.conversionType == old(view.conversionType)
      ensures view.fboWidth == old(view.fboWidth) && view.fboHeight == old(view.fboHeight)
    {
      seamlessMode := mode;
      ReplotAllImages();
    }

    /** resetTransform: the corner reset is widget state not modelled here;
        the replot is. */
    method ResetTransform()
      modifies view
      ensures view.trace == old(view.trace) + ReplotEvents(old(view.activeTexture), old(view.conversionType))
      ensures view.activeTexture == old(view.activeTexture) && !view.shadowRender
      ensures view.conversionType == old(view.conversionType)
      ensures view.fboWidth == old(view.fboWidth) && view.fboHeight == old(view.fboHeight)
    {
      ReplotAllImages();
    }

    /** applyCurrentUVsTransformations: resets the seamless mode and the
        transform, installs the transformed diffuse image, forces a base
        conversion and then restores EnableConversion. */
    method ApplyCurrentUVsTransformations()
      modifies this`seamlessMode, this`enableConversion, this`conversionFlags, view
      ensures conversionFlags == old(conversionFlags) + [true]
      ensures enableConversion == old(enableConversion)
      ensures seamlessMode == SeamlessNone
      ensures view.trace == old(view.trace)
        + ReplotEvents(old(view.activeTexture), old(view.conversionType))
        + ReplotEvents(old(view.activeTexture), old(view.conversionType))
        + [TextureReplaced(Diffuse)]
        + FromBaseEvents(old(view.activeTexture), false, old(view.conversionType))
      ensures view.activeTexture == old(view.activeTexture) && !view.shadowRender
      ensures view.conversionType == DiffuseToOthers
      ensures view.fboWidth == old(view.fboWidth) && view.fboHeight == old(view.fboHeight)
    {
      SelectSeamlessMode(SeamlessNone);
      ResetTransform();
      view.SetTextureImage(Diffuse);
      var conversionValue := enableConversion;
      enableConversion := true;
      ConvertFromBase();
      enableConversion := conversionValue;
    }

    /** selectContrastInputImage. */
    method SelectContrastInputImage(mode: int)
      modifies this`seamlessContrastImageType, view
      ensures seamlessContrastImageType == ContrastInputFor(mode, old(seamlessContrastImageType))
      ensures view.trace == old(view.trace) + ReplotEvents(old(view.activeTexture), old(view.conversionType))
      ensures view.activeTexture == old(view.activeTexture) && !view.shadowRender
      ensures view.conversionType == old(view.conversionType)
      ensures view.fboWidth == old(view.fboWidth) && view.fboHeight == old(view.fboHeight)
    {
      if mode == 0 {
        seamlessContrastImageType := HeightInput;
      } else if mode == 1 {
        seamlessContrastImageType := DiffuseInput;
      } else if mode == 2 {
        seamlessContrastImageType := NormalInput;
      } else if mode == 3 {
        seamlessContrastImageType := OcclusionInput;
      }
      ReplotAllImages();
    }

    /** The radio-button part of updateSliders. */
    method UpdateSliders(mirror: RadioButtons, simple: RadioButtons)
      modifies this`mirrorModeType, this`simpleModeDirection
      ensures mirrorModeType == RadioCode(mirror, old(mirrorModeType))
      ensures simpleModeDirection == RadioCode(simple, old(simpleModeDirection))
    {
      if mirror.xy { mirrorModeType := 0; }
      if mirror.x { mirrorModeType := 1; }
      if mirror.y { mirrorModeType := 2; }
      if simple.xy { simpleModeDirection := 0; }
      if simple.x { simpleModeDirection := 1; }
      if simple.y { simpleModeDirection := 2; }
    }

    /** One channel widget writes its image to `dir` under the output
        name, when its box lets it through. */
    method SaveGated(dir: string, ghost base: seq<IoEvent>, ghost done: seq<TextureType>, box: bool, t: TextureType)
      requires io == base + SaveEvents(dir, done, outputName, |view.trace|)
      modifies this`io
      ensures io == base + SaveEvents(dir, done + Gate(saveChecked, box, t), outputName, |view.trace|)
    {
      if !saveChecked || box {
        io := io + [Saved(dir, t, outputName, |view.trace|)];
        SaveEventsSnoc(dir, done, t, outputName, |view.trace|);
      } else {
        assert done + [] == done;
      }
    }

    /** The first four saves of saveAllImages: diffuse, normal, specular,
        and the occlusion widget under the Height box. */
    method SaveFirstChannels(dir: string) returns (ghost saved: seq<TextureType>)
      modifies this`io
      ensures saved == Gate(saveChecked, saveBoxes.diffuse, Diffuse)
        + Gate(saveChecked, saveBoxes.normal, Normal)
        + Gate(saveChecked, saveBoxes.specular, Specular)
        + Gate(saveChecked, saveBoxes.height, Occlusion)
      ensures io == old(io) + SaveEvents(dir, saved, outputName, |view.trace|)
    {
      ghost var io0 := io;
      SaveGated(dir, io0, [], saveBoxes.diffuse, Diffuse);
      ghost var d1 := Gate(saveChecked, saveBoxes.diffuse, Diffuse);
      assert [] + d1 == d1;
      SaveGated(dir, io0, d1, saveBoxes.normal, Normal);
      ghost var d2 := d1 + Gate(saveChecked, saveBoxes.normal, Normal);
      SaveGated(dir, io0, d2, saveBoxes.specular, Specular);
      ghost var d3 := d2 + Gate(saveChecked, saveBoxes.specular, Specular);
      SaveGated(dir, io0, d3, saveBoxes.height, Occlusion);
      saved := d3 + Gate(saveChecked, saveBoxes.height, Occlusion);
    }

    /** The last three saves of saveAllImages: the height widget under the
        Occlusion box, then roughness and metallic. */
    method SaveLastChannels(dir: string, ghost base: seq<IoEvent>, ghost done: seq<TextureType>)
      requires io == base + SaveEvents(dir, done, outputName, |view.trace|)
      modifies this`io
      ensures io == base + SaveEvents(dir, done
        + Gate(saveChecked, saveBoxes.occlusion, Height)
        + Gate(saveChecked, saveBoxes.roughness, Roughness)
        + Gate(saveChecked, saveBoxes.metallic, Metallic), outputName, |view.trace|)
    {
      SaveGated(dir, base, done, saveBoxes.occlusion, Height);
      ghost var d1 := done + Gate(saveChecked, saveBoxes.occlusion, Height);
      SaveGated(dir, base, d1, saveBoxes.roughness, Roughness);
      ghost var d2 := d1 + Gate(saveChecked, saveBoxes.roughness, Roughness);
      SaveGated(dir, base, d2, saveBoxes.metallic, Metallic);
    }

    /** The saving part of saveAllImages: each channel widget gated by
        its box in checked mode; nothing in compressed mode. */
    method SaveChannels(dir: string)
      modifies this`io
      ensures io == old(io) + SaveEvents(dir, SaveSet(saveChecked, saveCompressed, saveBoxes), outputName, |view.trace|)
    {
      if !saveCompressed {
        var first := SaveFirstChannels(dir);
        SaveLastChannels(dir, old(io), first);
        SaveSetExpanded(saveChecked, saveBoxes);
      }
    }

    /** saveAllImages: fails without saving when the directory does not
        exist; otherwise replots and saves the selected channel widgets. */
    method SaveAllImages(dir: string, dirExists: bool) returns (saved: bool)
      modifies this`io, view
      ensures saved == dirExists
      ensures !dirExists ==>
        io == old(io) && view.trace == old(view.trace) && view.shadowRender == old(view.shadowRender)
      ensures dirExists ==>
        io == old(io) + SaveEvents(dir, SaveSet(saveChecked, saveCompressed, saveBoxes), outputName, |view.trace|)
      ensures dirExists ==>
        view.trace == old(view.trace) + ReplotEvents(old(view.activeTexture), old(view.conversionType))
      ensures dirExists ==> !view.shadowRender
      ensures view.activeTexture == old(view.activeTexture) && view.conversionType == old(view.conversionType)
      ensures view.fboWidth == old(view.fboWidth) && view.fboHeight == old(view.fboHeight)
    {
      if !dirExists {
        return false;
      }
      ReplotAllImages();
      SaveChannels(dir);
      return true;
    }

    /** saveImages, given the directory the dialog returned ("" when
        cancelled). */
    method SaveImages(dir: string, dirExists: bool)
      modifies this`io, view
      ensures io == old(io)
        + (if dir != "" && dirExists then SaveEvents(dir, SaveSet(saveChecked, saveCompressed, saveBoxes), outputName, |view.trace|) else [])
      ensures view.trace == old(view.trace)
        + (if dir != "" && dirExists then ReplotEvents(old(view.activeTexture), old(view.conversionType)) else [])
      ensures view.activeTexture == old(view.activeTexture) && view.conversionType == old(view.conversionType)
      ensures view.shadowRender == (old(view.shadowRender) && !(dir != "" && dirExists))
      ensures view.fboWidth == old(view.fboWidth) && view.fboHeight == old(view.fboHeight)
    {
      if dir != "" {
        var _ := SaveAllImages(dir, dirExists);
      }
    }

    /** saveCheckedImages: saves with the check boxes counting, then clears
        bSaveCheckedImages, whatever it was before. */
    method SaveCheckedImages(dir: string, dirExists: bool)
      modifies this`saveChecked, this`io, view
      ensures !saveChecked
      ensures io == old(io)
        + (if dir != "" && dirExists then SaveEvents(dir, SaveSet(true, saveCompressed, saveBoxes), outputName, |view.trace|) else [])
      ensures view.trace == old(view.trace)
        + (if dir != "" && dirExists then ReplotEvents(old(view.activeTexture), old(view.conversionType)) else [])
      ensures view.activeTexture == old(view.activeTexture) && view.conversionType == old(view.conversionType)
      ensures view.shadowRender == (old(view.shadowRender) && !(dir != "" && dirExists))
      ensures view.fboWidth == old(view.fboWidth) && view.fboHeight == old(view.fboHeight)
    {
      saveChecked := true;
      SaveImages(dir, dirExists);
      saveChecked := false;
    }

    /** saveCompressedForm: the compressed form is not written, so no
        channel is saved; bSaveCompressedFormImages is cleared afterwards. */
    method SaveCompressedForm(dir: string, dirExists: bool)
      modifies this`saveCompressed, this`io, view
      ensures !saveCompressed && io == old(io)
      ensures view.trace == old(view.trace)
        + (if dir != "" && dirExists then ReplotEvents(old(view.activeTexture), old(view.conversionType)) else [])
      ensures view.activeTexture == old(view.activeTexture) && view.conversionType == old(view.conversionType)
      ensures view.shadowRender == (old(view.shadowRender) && !(dir != "" && dirExists))
      ensures view.fboWidth == old(view.fboWidth) && view.fboHeight == old(view.fboHeight)
    {
      saveCompressed := true;
      SaveImages(dir, dirExists);
      saveCompressed := false;
    }

    /** One pass of the batch loop: the image's name becomes the output
        name, the image is loaded into the diffuse widget, the other
        channels are derived from it and the texture set is saved. */
    method ProcessBatchItem(sourceFolder: string, outputFolder: string, imageName: string)
      modifies this`outputName, this`io, this`conversionFlags, view
      ensures conversionFlags == old(conversionFlags) + [enableConversion]
      ensures outputName == imageName
      ensures io == old(io)
        + ItemIo(sourceFolder, outputFolder, imageName, SaveSet(saveChecked, saveCompressed, saveBoxes), |old(view.trace)|, |view.trace|)
      ensures view.trace == old(view.trace)
        + ItemRenders(old(view.activeTexture), old(view.shadowRender), old(view.conversionType))
      ensures view.activeTexture == old(view.activeTexture) && !view.shadowRender
      ensures view.conversionType == DiffuseToOthers
      ensures view.fboWidth == old(view.fboWidth) && view.fboHeight == old(view.fboHeight)
    {
      ghost var fromBase := FromBaseEvents(view.activeTexture, view.shadowRender, view.conversionType);
      outputName := imageName;
      io := io + [Loaded(ImagePath(sourceFolder, imageName), |view.trace|)];
      ConvertFromBase();
      var _ := SaveAllImages(outputFolder, true);
      ghost var load := [Loaded(ImagePath(sourceFolder, imageName), |old(view.trace)|)];
      ghost var saveEvents := SaveEvents(outputFolder, SaveSet(saveChecked, saveCompressed, saveBoxes), imageName, |view.trace|);
      AppendAssoc(old(io), load, saveEvents);
      ghost var replot := ReplotEvents(old(view.activeTexture), DiffuseToOthers);
      AppendAssoc(old(view.trace), fromBase, replot);
    }

    /** What the first `k` passes of the batch loop have done, starting
        from I/O `io0`, trace `trace0` and the widget state `a`, `s`, `c`. */
    ghost predicate BatchedSoFar(io0: seq<IoEvent>, trace0: seq<Event>, flags0: seq<bool>, items: seq<string>, k: nat,
                                 sourceFolder: string, outputFolder: string, saves: seq<TextureType>,
                                 a: TextureType, s: bool, c: ConversionType)
      reads this, view
    {
      && k <= |items| && batch == items[k..]
      && io == io0 + BatchIo(sourceFolder, outputFolder, items[..k], saves, |trace0|)
      && conversionFlags == flags0 + Repeat(enableConversion, k)
      && view.trace == trace0 + BatchRenders(k, a, s, c)
      && view.activeTexture == a
      && (k == 0 ==> view.shadowRender == s && view.conversionType == c)
      && (k > 0 ==> !view.shadowRender && view.conversionType == DiffuseToOthers && outputName == items[k - 1])
    }

    /** One pass of the batch loop: the front image is taken off the list
        and processed. */
    method TakeAndProcess(sourceFolder: string, outputFolder: string,
                          ghost io0: seq<IoEvent>, ghost trace0: seq<Event>, ghost flags0: seq<bool>,
                          ghost items: seq<string>, ghost k: nat, ghost saves: seq<TextureType>,
                          ghost a: TextureType, ghost s: bool, ghost c: ConversionType)
      requires saves == SaveSet(saveChecked, saveCompressed, saveBoxes)
      requires BatchedSoFar(io0, trace0, flags0, items, k, sourceFolder, outputFolder, saves, a, s, c)
      requires |batch| > 0
      modifies this`batch, this`outputName, this`io, this`conversionFlags, view
      ensures BatchedSoFar(io0, trace0, flags0, items, k + 1, sourceFolder, outputFolder, saves, a, s, c)
      ensures saves == SaveSet(saveChecked, saveCompressed, saveBoxes)
      ensures view.fboWidth == old(view.fboWidth) && view.fboHeight == old(view.fboHeight)
    {
      ghost var io1, trace1, flags1 := io, view.trace, conversionFlags;
      ghost var checked, compressed, boxes := saveChecked, saveCompressed, saveBoxes;
      DropFront(items, k);
      var imageName := batch[0];
      batch := batch[1..];
      ProcessBatchItem(sourceFolder, outputFolder, imageName);
      assert saveChecked == checked && saveCompressed == compressed && saveBoxes == boxes;
      BatchRendersExtend(trace0, trace1, view.trace, k, a, s, c);
      BatchIoExtend(io0, io1, io, sourceFolder, outputFolder, items, k, saves, |trace0|, |trace1|, |view.trace|);
      RepeatExtend(flags0, flags1, conversionFlags, enableConversion, k);
    }

    /** The loop of runBatch, from the state before its first pass to the
        state after its last. */
    method DrainLoop(sourceFolder: string, outputFolder: string,
                     ghost io0: seq<IoEvent>, ghost trace0: seq<Event>, ghost flags0: seq<bool>, ghost items: seq<string>,
                     ghost saves: seq<TextureType>, ghost a: TextureType, ghost s: bool, ghost c: ConversionType)
      requires saves == SaveSet(saveChecked, saveCompressed, saveBoxes)
      requires BatchedSoFar(io0, trace0, flags0, items, 0, sourceFolder, outputFolder, saves, a, s, c)
      modifies this`batch, this`outputName, this`io, this`conversionFlags, view
      ensures batch == [] && saves == SaveSet(saveChecked, saveCompressed, saveBoxes)
      ensures BatchedSoFar(io0, trace0, flags0, items, |items|, sourceFolder, outputFolder, saves, a, s, c)
      ensures view.fboWidth == old(view.fboWidth) && view.fboHeight == old(view.fboHeight)
    {
      ghost var k := 0;
      ghost var checked, compressed, boxes := saveChecked, saveCompressed, saveBoxes;
      while |batch| > 0
        invariant saveChecked == checked && saveCompressed == compressed && saveBoxes == boxes
        invariant saves == SaveSet(checked, compressed, boxes)
        invariant BatchedSoFar(io0, trace0, flags0, items, k, sourceFolder, outputFolder, saves, a, s, c)
        invariant view.fboWidth == old(view.fboWidth) && view.fboHeight == old(view.fboHeight)
        decreases |batch|
      {
        TakeAndProcess(sourceFolder, outputFolder, io0, trace0, flags0, items, k, saves, a, s, c);
        k := k + 1;
      }
      assert |items[k..]| == 0;
    }

    /** The loop of runBatch: drains the batch list from the front, one
        image at a time. */
    method DrainBatch(sourceFolder: string, outputFolder: string)
      modifies this`batch, this`outputName, this`io, this`conversionFlags, view
      ensures batch == []
      ensures conversionFlags == old(conversionFlags) + Repeat(enableConversion, |old(batch)|)
      ensures io == old(io) + BatchIo(sourceFolder, outputFolder, old(batch), SaveSet(saveChecked, saveCompressed, saveBoxes),
          |old(view.trace)|)
      ensures view.trace == old(view.trace)
        + BatchRenders(|old(batch)|, old(view.activeTexture), old(view.shadowRender), old(view.conversionType))
      ensures old(batch) != [] ==> outputName == old(batch)[|old(batch)| - 1]
      ensures old(batch) != [] ==> !view.shadowRender && view.conversionType == DiffuseToOthers
      ensures old(batch) == [] ==>
        view.shadowRender == old(view.shadowRender) && view.conversionType == old(view.conversionType)
      ensures view.activeTexture == old(view.activeTexture)
      ensures view.fboWidth == old(view.fboWidth) && view.fboHeight == old(view.fboHeight)
    {
      ghost var items := batch;
      assert items[..0] == [];
      assert conversionFlags == old(conversionFlags) + Repeat(enableConversion, 0);
      DrainLoop(sourceFolder, outputFolder, old(io), old(view.trace), old(conversionFlags), items,
        SaveSet(saveChecked, saveCompressed, saveBoxes), view.activeTexture, view.shadowRender, view.conversionType);
      assert items[..|items|] == items;
    }

    /** runBatch: with no existing output folder nothing is processed.
        Otherwise the list is drained from the front; each image is loaded
        into the diffuse widget, converted from base and saved under its
        own name. */
    method RunBatch(sourceFolder: string, outputFolder: string, outputExists: bool)
      modifies this`batch, this`outputName, this`io, this`conversionFlags, view
      ensures !outputExists || outputFolder == "" ==>
        batch == old(batch) && io == old(io) && view.trace == old(view.trace) && outputName == old(outputName)
        && conversionFlags == old(conversionFlags)
        && view.shadowRender == old(view.shadowRender) && view.conversionType == old(view.conversionType)
      ensures outputExists && outputFolder != "" ==>
        && batch == []
        && io == old(io) + BatchIo(sourceFolder, outputFolder, old(batch), SaveSet(saveChecked, saveCompressed, saveBoxes),
          |old(view.trace)|)
        && view.trace == old(view.trace)
          + BatchRenders(|old(batch)|, old(view.activeTexture), old(view.shadowRender), old(view.conversionType))
        && conversionFlags == old(conversionFlags) + Repeat(enableConversion, |old(batch)|)
        && (old(batch) != [] ==> outputName == old(batch)[|old(batch)| - 1])
        && (old(batch) != [] ==> !view.shadowRender && view.conversionType == DiffuseToOthers)
        && (old(batch) == [] ==>
              view.shadowRender == old(view.shadowRender) && view.conversionType == old(view.conversionType))
      ensures view.activeTexture == old(view.activeTexture)
      ensures view.fboWidth == old(view.fboWidth) && view.fboHeight == old(view.fboHeight)
    {
      if !outputExists || outputFolder == "" {
        return;
      }
      DrainBatch(sourceFolder, outputFolder);
    }
  }

  /** A fresh window whose first materials signal is "off" clears
      EnableConversion: the static it restores from starts out false. */
  method FirstMaterialsToggleOff(conversionEnabled: bool, materialIndex: int, inputs: Inputs, boxes: SaveBoxes)
    returns (enabled: bool)
    ensures !enabled
  {
    var w := new MainWindow(conversionEnabled, materialIndex, inputs, boxes);
    w.MaterialsToggled(false);
    enabled := w.enableConversion;
  }

  /** Turning materials on and then off again leaves EnableConversion as
      it was, and it is off in between. */
  method MaterialsToggleRoundTrip(w: MainWindow) returns (before: bool, during: bool, after: bool)
    modifies w, w.view
    ensures !during && after == before
  {
    before := w.enableConversion;
    w.MaterialsToggled(true);
    during := w.enableConversion;
    w.MaterialsToggled(false);
    after := w.enableConversion;
  }
}
