# AwesomeBump texture pipeline orchestration, in Dafny

AwesomeBump derives a set of texture maps from a few source images. The maps
are normal, height, specular, occlusion, roughness and metallic, and they come
from a diffuse or height image. The main window owns one 2D OpenGL widget that
renders one channel at a time. The window's slots decide:

- which channels are rendered,
- in which order,
- with the shadow render flag on or off,
- under which conversion type.

They also decide which channel images are written to disk and which images a
batch run loads. This project models that orchestration and the start-up
helpers of the program.

- `Textures` (textures.dfy): the nine channels, with their tab indices, the
  conversion types and the input-image selectors.
- `ImageWidget2D` (widget2d.dfy): the 2D widget as a class. It holds the active
  channel, the shadow flag, the conversion type and the framebuffer size, plus
  a ghost trace of every request it receives:
  - `Render(channel, shadow, conversion)`: activating a channel renders it at
    once, with the flags set at that moment.
  - `FboResized`.
  - `TextureReplaced`.
- `Pipeline` (pipeline.dfy): the specification of the request sequences. It
  covers the replot order, the channel dependency edges given by the widgets'
  input selectors, the dependents each image-change slot refreshes, the resize
  loops and the four conversion drivers.
- `Saving` (saving.dfy): which channel widgets `saveAllImages` writes, in which
  order, under the "save checked" and "compressed" flags. Also what a batch run
  loads and saves.
- `SeamlessSettings` (seamless.dfy): the contrast-input combo box, the radio
  groups read by `updateSliders`, and the dispatch of `loadImageSettings`.
- `MainWindowModel` (mainwindow.dfy): the main window as a class. It holds the
  diffuse image's EnableConversion flag, the static `bLastValue`, the
  process-wide `Image::` settings, the save flags and check boxes, the input
  selectors, the batch list and the output name. It also keeps two ghost
  logs: the loads and saves, and the EnableConversion value in effect at each
  conversion from base. The widget reads that value while it derives the
  other channels, so the log shows which conversions ran with it forced on.
  Each load or save carries the length of the widget's trace at the moment
  it happens. That places it among the widget requests: a save stamped
  after a replot's last request comes after that replot.
  Every slot is a method whose postcondition gives the widget's new
  trace and state as a `Pipeline` or `Saving` function of the old state. The
  lemmas about those functions carry the properties.
- `Startup` (startup.dfy): `_find_data_dir`, the OpenGL version check, the log
  line written by the message handler, and the start-up guard of `main`.

Two things in the source are modelled as written:

- The "Height" save box gates the occlusion widget, and the "Occlusion" box
  gates the height widget (`AwesomeBump/mainwindow.cpp:696-702`).
- A replot renders roughness and metallic before height, although both can read
  the height output (`ReplotRendersHeightReadersFirst`). Every other dependency
  edge points forward in the replot order (`ReplotRespectsDependencies`).

The message handler keeps no text for info messages: such a line is the
timestamp prefix alone (`Sources/main.cpp:109-110`).

The texts of the two start-up message boxes and of the version warning are
the functions `MissingFilesText`, `UnsupportedText` and `WarningText` in
`Startup`. Lemmas show that each text names what it reports: the data
directory, or a required version that can be read back from the text. The start-up outcome and the check result carry their arguments,
not the texts.

## Model

| member | source | states |
|---|---|---|
| Textures.TextureAtIndex | AwesomeBump/mainwindow.cpp:1030-1034 | the integer passed to updateImage and the channel it names correspond one to one, over the nine tab indices |
| Pipeline.ReplotOrderShape | AwesomeBump/mainwindow.cpp:469-484 | a replot renders grunge exactly when the conversion is not diffuse-to-others, renders 8 or 9 channels, and renders none twice |
| Pipeline.ReplotCoversAllButGrunge | AwesomeBump/mainwindow.cpp:475-484 | every channel except grunge is rendered by every replot |
| Pipeline.ReplotShadowsAllButLast | AwesomeBump/mainwindow.cpp:464-489 | every replot request is a render under the unchanged conversion; all but the last are shadow renders; the last is the non-shadow render of the channel active on entry |
| Pipeline.ReplotRespectsDependencies | AwesomeBump/mainwindow.cpp:475-484 | every dependency edge except height to roughness or metallic has its source channel rendered before the reader |
| Pipeline.ReplotRendersHeightReadersFirst | AwesomeBump/mainwindow.cpp:476-478 | roughness and metallic can read the height output, yet both are rendered before height |
| Pipeline.HeightDependentsAreReaders | AwesomeBump/mainwindow.cpp:889-950 | updateHeightImage refreshes a channel iff it reads the height output, or occlusion set to the height and normal inputs |
| Pipeline.HeightDependentsIncreasing | AwesomeBump/mainwindow.cpp:889-950 | those refreshes happen in increasing channel order |
| Pipeline.DiffuseDependentsAreReaders | AwesomeBump/mainwindow.cpp:821-861 | updateDiffuseImage refreshes exactly the channels reading the diffuse output, in increasing channel order |
| Pipeline.NormalDependentsAreReaders | AwesomeBump/mainwindow.cpp:863-880 | updateNormalImage refreshes exactly the channels reading the normal output; occlusion set to the height and normal inputs is not refreshed |
| Pipeline.RefreshEventsAt | AwesomeBump/mainwindow.cpp:895-904 | the k-th refresh is a shadow render of the dependent followed by a plain render of the changed channel |
| Pipeline.ResizeRendersExactly | AwesomeBump/mainwindow.cpp:1092-1099 | the resize loop renders a channel iff it is not grunge (resize) or always (rescale) |
| Pipeline.ResizeEventsShape | AwesomeBump/mainwindow.cpp:1092-1099 | the resize loop issues only framebuffer resizes to the new size and shadow renders under the unchanged conversion |
| Pipeline.FromBaseSkipsGrunge | AwesomeBump/mainwindow.cpp:1393-1412 | the replot inside convertFromBase never renders grunge, and the conversion ends by showing the entry channel |
| Pipeline.HeightToNormalConvertsOnce | AwesomeBump/mainwindow.cpp:1360-1374 | only the two leading renders of convertFromHtoN carry the height-to-normal conversion |
| Saving.SaveSet | AwesomeBump/mainwindow.cpp:679-713 | the compressed form writes no channel; at most seven channels are written |
| Saving.SaveSetMembers | AwesomeBump/mainwindow.cpp:679-711 | a channel is written iff not compressed, it has a widget among the seven, and its gating box is checked or checking is off (with the height and occlusion boxes swapped) |
| Saving.SaveSetUnchecked | AwesomeBump/mainwindow.cpp:679-711 | with checking off all seven widgets are written: diffuse, normal, specular, occlusion, height, roughness, metallic |
| Saving.SaveSetKeepsOrder | AwesomeBump/mainwindow.cpp:679-711 | whatever is written, it is written in that fixed order |
| Saving.ItemRendersLength | AwesomeBump/mainwindow.cpp:1312-1313 | every batch item makes 20 widget requests (11 for the conversion from base, 9 for the replot of saveAllImages), whatever state it starts from |
| Saving.BatchRenders | AwesomeBump/mainwindow.cpp:1300-1319 | the first n items make n * 20 requests |
| Saving.BatchRendersExtend | AwesomeBump/mainwindow.cpp:1300-1319 | one more item appends its own requests, ending 20 requests later |
| Saving.BatchItemRenders | AwesomeBump/mainwindow.cpp:1300-1319 | requests k * 20 to (k + 1) * 20 of a batch are exactly item k's conversion from base and replot |
| Saving.BatchIoLength | AwesomeBump/mainwindow.cpp:1300-1319 | a batch performs one load and one full save per listed image |
| Saving.ItemLoadsOnce | AwesomeBump/mainwindow.cpp:1309-1314 | a batch item loads its own image path and nothing else |
| Saving.BatchLoadsInListOrder | AwesomeBump/mainwindow.cpp:1300-1319 | the images loaded are source folder + "/" + name, for the listed names in list order |
| Saving.BatchIoInTraceOrder | AwesomeBump/mainwindow.cpp:1311-1313 | the batch's loads and saves lie within its own requests, and none is placed before an earlier one |
| Saving.BatchIoItemEvents | AwesomeBump/mainwindow.cpp:1300-1314 | event k * (1 + number of saves) of a batch is the load of image k, stamped at request k * 20; the events after it are image k's saves, channel by channel under its name, stamped at request (k + 1) * 20 |
| SeamlessSettings.ContrastEntryRoundTrip | AwesomeBump/mainwindow.cpp:1216-1236 | combo entries 0..3 and the four contrast inputs correspond one to one; any other index keeps the current input |
| SeamlessSettings.RadioCode | AwesomeBump/mainwindow.cpp:1447-1454 | a group with a checked button stores a code in 0..2; a group with none checked keeps its code |
| SeamlessSettings.RadioCodeOfExclusiveGroup | AwesomeBump/mainwindow.cpp:1447-1454 | with exactly one button checked the code is that button's, whatever it was before |
| SeamlessSettings.LoadImageSettings | AwesomeBump/mainwindow.cpp:1480-1513 | every channel but material loads its own settings group; material takes the warning branch with its channel number |
| MainWindowModel.MainWindow.UpdateImage | AwesomeBump/mainwindow.cpp:1030-1034 | activates the channel; one render under the current flags; nothing else changes |
| MainWindowModel.MainWindow.ReplotAllImages | AwesomeBump/mainwindow.cpp:464-489 | the trace grows by exactly the replot sequence; the active channel and conversion are restored, shadow off |
| MainWindowModel.MainWindow.MaterialsToggled | AwesomeBump/mainwindow.cpp:491-509 | on: the flag is saved in the static and cleared, with a replot iff it was set; off: the flag is restored from the static |
| MainWindowModel.FirstMaterialsToggleOff | AwesomeBump/mainwindow.cpp:491-509 | a first "off" signal clears EnableConversion, since the static starts out false |
| MainWindowModel.MaterialsToggleRoundTrip | AwesomeBump/mainwindow.cpp:491-509 | on then off restores EnableConversion, and it is off in between |
| MainWindowModel.MainWindow.UpdateHeightImage | AwesomeBump/mainwindow.cpp:889-950 | the trace grows by the refreshes of the height dependents; the active channel ends on height iff some dependent was refreshed |
| MainWindowModel.MainWindow.UpdateDiffuseImage | AwesomeBump/mainwindow.cpp:821-861 | the same for the diffuse dependents |
| MainWindowModel.MainWindow.UpdateNormalImage | AwesomeBump/mainwindow.cpp:863-880 | the same for the normal dependents |
| MainWindowModel.MainWindow.ResizeTextures | AwesomeBump/mainwindow.cpp:1091-1099 | the loop over the nine channel indices issues exactly the resize sequence and leaves the framebuffer at the new size |
| MainWindowModel.MainWindow.ApplyResizeImage | AwesomeBump/mainwindow.cpp:1083-1112 | resize every channel but grunge, show the entry channel, replot; the material index is restored |
| MainWindowModel.MainWindow.ApplyScaleImage | AwesomeBump/mainwindow.cpp:1130-1160 | the same with grunge resized too |
| MainWindowModel.MainWindow.ConvertFromHtoN | AwesomeBump/mainwindow.cpp:1360-1374 | the trace grows by the height-to-normal sequence; ends on normal with no conversion set |
| MainWindowModel.MainWindow.ConvertFromNtoH | AwesomeBump/mainwindow.cpp:1376-1391 | the trace grows by the normal-to-height sequence; ends on height, the conversion left at normal-to-height |
| MainWindowModel.MainWindow.ConvertFromHNtoOcc | AwesomeBump/mainwindow.cpp:1414-1433 | the trace grows by the occlusion sequence; ends on occlusion |
| MainWindowModel.MainWindow.ConvertFromBase | AwesomeBump/mainwindow.cpp:1393-1412 | the trace grows by the from-base sequence; the entry channel is restored and the diffuse-to-others conversion stays set; the conversion runs under the EnableConversion value of the moment |
| MainWindowModel.MainWindow.SelectSeamlessMode | AwesomeBump/mainwindow.cpp:1179-1214 | the mode is stored and a replot follows |
| MainWindowModel.MainWindow.ResetTransform | AwesomeBump/mainwindow.cpp:1460-1466 | a replot |
| MainWindowModel.MainWindow.ApplyCurrentUVsTransformations | AwesomeBump/mainwindow.cpp:1162-1177 | seamless mode reset, two replots, the diffuse image replaced, then a conversion from base that runs with EnableConversion forced on; afterwards EnableConversion is what it was before |
| MainWindowModel.MainWindow.SelectContrastInputImage | AwesomeBump/mainwindow.cpp:1216-1236 | the contrast input becomes the entry's input (unchanged for other indices), then a replot |
| MainWindowModel.MainWindow.UpdateSliders | AwesomeBump/mainwindow.cpp:1447-1454 | the mirror type and simple direction become the radio codes of their groups |
| MainWindowModel.MainWindow.SaveChannels | AwesomeBump/mainwindow.cpp:679-713 | exactly the save set is written, in order, under the output name, with no widget request among the saves |
| MainWindowModel.MainWindow.SaveAllImages | AwesomeBump/mainwindow.cpp:656-805 | a missing directory fails with nothing saved or rendered; otherwise the replot is rendered and then the save set is written, every save placed after the replot's last request |
| MainWindowModel.MainWindow.SaveImages | AwesomeBump/mainwindow.cpp:646-654 | a cancelled dialog ("") does nothing; otherwise saveAllImages |
| MainWindowModel.MainWindow.SaveCheckedImages | AwesomeBump/mainwindow.cpp:807-812 | saves with the boxes counting, then leaves the flag cleared; the active channel and conversion are kept, and shadow rendering is off after a save |
| MainWindowModel.MainWindow.SaveCompressedForm | AwesomeBump/mainwindow.cpp:814-819 | writes nothing (only a replot), then leaves the flag cleared; the active channel and conversion are kept, and shadow rendering is off after a save |
| MainWindowModel.MainWindow.ProcessBatchItem | AwesomeBump/mainwindow.cpp:1301-1314 | the name becomes the output name; the image is loaded before any of the item's requests; the conversion from base (under the current EnableConversion) and the replot follow; the save set is written under that name after their last request |
| MainWindowModel.MainWindow.DrainBatch | AwesomeBump/mainwindow.cpp:1300-1319 | the list is emptied front to back; loads and saves and renders are exactly the batch sequences, each image's load before its conversion and its saves after its replot; every conversion runs under the unforced EnableConversion; the output name is the last image's, and after a non-empty batch shadow rendering is off and the diffuse-to-others conversion is set |
| MainWindowModel.MainWindow.DrainLoop | AwesomeBump/mainwindow.cpp:1300-1319 | after the loop the list is empty and every image has been processed once, in list order |
| MainWindowModel.MainWindow.RunBatch | AwesomeBump/mainwindow.cpp:1283-1322 | a missing or empty output folder changes nothing, widget flags included; otherwise the whole list is processed, each image loaded before its conversion and saved after its replot, and a non-empty batch leaves shadow rendering off and the diffuse-to-others conversion set |
| Startup.FindDataDirKeepsResourcePaths | Sources/main.cpp:71-72 | a path starting with ':' is returned unchanged |
| Startup.FindDataDirByPlatform | Sources/main.cpp:74-83 | off the Mac the result is the resource; on the Mac it is the application directory, "/../../../", then the resource |
| Startup.RequiredVersion | Sources/main.cpp:58-64 | 3.3 with USE_OPENGL_330, 4.1 otherwise |
| Startup.CheckOpenGL | Sources/main.cpp:154-159 | the check passes iff the version predicate holds; a warning is logged iff it fails, and it names the required version |
| Startup.VersionTextRoundTrip | Sources/main.cpp:156 | a version written "major.minor" reads back as that version |
| Startup.RequiredVersionText | Sources/main.cpp:58-64 | the two builds' versions are written "3.3" and "4.1" |
| Startup.WarningTextNamesVersion | Sources/main.cpp:156 | the warning opens with its fixed words, and the required version can be read back from the text after them |
| Startup.UnsupportedTextNamesVersion | Sources/main.cpp:248-250 | the message names "3.3" or "4.1" right after its opening words, reads back as the build's required version, and ends by pointing at the log file |
| Startup.VersionSupportedIsLexicographic | Sources/main.cpp:154 | the context is accepted iff (major, minor) is not lexicographically below the required version |
| Startup.VersionSupportedMonotone | Sources/main.cpp:154 | a newer context than an accepted one is accepted |
| Startup.Use330Relaxes | Sources/main.cpp:58-64 | a 3.3 build accepts everything a 4.1 build does, plus exactly the 3.3 to 4.0 contexts |
| Startup.TimestampRoundTrip | Sources/main.cpp:91 | the dd/MM/yyyy hh:mm:ss text is 19 characters, and the date and time can be read back from it |
| Startup.FormatMessage | Sources/main.cpp:92-111 | a fatal message aborts and nothing else does |
| Startup.FormatMessageShape | Sources/main.cpp:92-111 | every line starts with "[" timestamp "] "; debug, warning and critical lines go on with their tag and the message; an info line is the prefix alone |
| Startup.KindOfLineRoundTrip | Sources/main.cpp:94-111 | the kind of message and its text can be read back from a written line |
| Startup.FormatMessageInjective | Sources/main.cpp:94-111 | different kinds, or different texts of a tagged kind, give different lines |
| Startup.HandleMessage | Sources/main.cpp:105-124 | fatal aborts; otherwise the line plus a newline goes to the log file, else to the log's file name in the home directory, else nowhere |
| Startup.FileName | Sources/main.cpp:117 | the file name of a path is its longest suffix without '/', the whole path when it has none |
| Startup.StartApplication | Sources/main.cpp:187-256 | a missing-files report carries the data directory found for this platform; an unsupported-version report carries the build's version choice and the log file name |
| Startup.StartApplicationDecision | Sources/main.cpp:187-256 | the main window opens iff Configs and Core are both directories under the data directory and the version is supported; missing assets are reported first |
| Startup.MissingFilesTextNamesDirectory | Sources/main.cpp:189-194 | the message ends with "(resource path: " dir ")."; the Mac message is the title, a blank line, then the other builds' message |

## Left out

- The GPU work of the 2D and 3D widgets is not modelled: shaders, framebuffer
  contents, repaint and update calls, and the 3D widget as a whole. The bodies
  of `OpenGL2DImageWidget` are not part of this model. Two things about the
  widget are assumptions:
  - `setActiveTextureType` renders the channel at once, with the shadow flag
    and conversion set at that moment, and leaves both flags as they were.
  - `resizeFBO` only records the new size.
- All Qt GUI effects are left out: message boxes, progress bars, labels,
  cursors, warning buttons, `checkWarnings`, `switchState`, the group boxes
  shown by `selectSeamlessMode`, and the list widget's repaint. They have no
  effect on the pipeline.
- Floating-point settings are left out: the scale factors of `applyScaleImage`,
  the spin boxes and radian conversion in `updateSliders`, and
  `Display3DSettings::openGLVersion` (`Sources/main.cpp:149`).
- MainWindowModel.MainWindow.ApplyScaleImage: takes the scaled width and
  height as arguments, because the float product of size and spin-box value is
  not modelled.
- MainWindowModel.MainWindow.ApplyResizeImage: stands for both overloads. The
  one without arguments only reads the two sizes from the combo boxes; the
  text-to-int parsing is not modelled.
- The material manager is not part of this model:
  - `disableMaterials` is taken to set the current material index to -1.
  - `isEnabled` and `toggleMaterials(true)` after a resize are left out.
- `updateImageInformation`, the widgets' `setImageName` calls, and the output
  name line edit copied from a widget's image name in the update slots are left
  out. Per-widget image names are not modelled; the output name is modelled
  only where a batch sets it.
- `loadFile` is recorded as one load of the image path. Decoding the file and
  the signals it emits are not modelled.
- The compressed-form branch of `saveAllImages` writes nothing. The packing code
  in the source is commented out, so the model writes nothing there either.
- MainWindowModel.MainWindow.SelectSeamlessMode: records the mode, and the
  replot that follows. The widget's own `selectSeamlessMode` is not modelled.
- MainWindowModel.MainWindow.ResetTransform: the corner positions and weights it
  resets are widget state that is not modelled; only its replot is.
- MainWindowModel.MainWindow.UpdateSliders: only the radio-button part is
  modelled; the float settings it copies are not.
- `TEXTURES` is taken as 9. The channel order follows the tab indices of the
  select-tab slots; the header that defines the enumeration is not part of this
  model.
- In `main`, the following are left out: the splash screen, style and palette
  set-up, removal of the old log file, surface format set-up, the window
  placement after start-up, and the values `main` returns.
- Startup.HandleMessage: the clock, the log path `AB_LOG`, the home directory
  and whether each file opens are parameters; the fallback file name is
  derived from the log path. `abort()` is the outcome `ProgramAborted`.
- The log messages that `checkOpenGL` and `main` write with qDebug are left out.
