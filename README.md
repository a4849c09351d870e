# SASS camera parameters and image dataset, in Dafny

SASS is a simulator of a super-resolution fluorescence microscope. It
produces camera frames from simulated photoswitching emitters. This project
models two parts of it: the realtime generator's legacy camera record
(deprecated in favour of a newer camera class) and the image dataset
interface through which frames are stored. The model states the documented
behaviour, plus the modelling choices listed below, as contracts; Dafny
proves the model meets them. Nothing of the Java itself is proved, and the
dataset is an interface with no implementation here: its model is an
abstract specification.

- **The realtime generator's camera record** (`RealtimeCamera`, `camera.dfy`).
  `Camera` is a class. Its fields are `const`, because they are final in
  the source. The one exception is `stagePosition`, which starts at 0 and
  may change later. The record has two ways to be built:
  - The legacy constructor `Camera.Legacy` keeps its thirteen arguments.
    From them it derives two values. The thermal noise per frame is
    `ThermalNoise`: dark current divided by frame rate. The digital PSF
    FWHM is `FwhmDigital`: `0.61 * wavelength / NA * magnification /
    pixel size`.
  - `Builder` is a mutable record. Each of its setters overwrites one field
    and returns the same builder. `Build` makes a camera through
    `Camera.FromBuilder`. That constructor copies the builder's values. The
    thermal noise is copied as given, not derived. The deprecated optics are
    pinned to NA 1.4, FWHM 3, magnification 60 and wavelength 0.65.

  Each builder setter's contract is stated over `Builder.Settings()`, a
  `BuilderSettings` value that holds all eleven fields. Each setter
  promises that only its own field changed. The proved properties of the
  formulas are these:
  - the unit conversion `noise * frameRate == darkCurrent`;
  - the defining equation `fwhm * NA * pixelSize == 0.61 * wavelength * magnification`,
    and that it has exactly one solution;
  - the FWHM is linear in wavelength and in magnification, and inversely
    proportional to NA and to pixel size;
  - the conditions under which the builder path agrees with the legacy
    derivations.
- **The image dataset `ImageS`** (`Images`, `images.dfy`, with
  `Pixels`, `pixels.dfy`). The dataset is an append-only stack of 16-bit
  frames. All frames share one width and height. The dataset also has a
  title and an active slice, which is 0-indexed. `ImageS` is a class
  holding `images: seq<Frame>` and its metadata. Its invariant `Valid()`
  says that every frame has the dataset's shape.
  - `AddImage` and `Concatenate` append, or else return
    `ImageShapeException`.
  - `SetSlice` and `SetTitle` overwrite their own field.
  - The getters `GetSize`, `GetWidth`, `GetHeight`, `GetSlice` and
    `GetTitle` are functions on that state. The mutators' contracts are
    written in terms of these getters, and those contracts are what fix
    each getter's value over time.
  - `GetPixelData` returns one slice as a flat sequence. `Unflatten`
    rebuilds the frame from that sequence, and two round-trip lemmas
    connect the flat and the 2-D forms.
  - Pixels are Java `short`s (`Pixels.Short`). The `int[][]` form of
    `addImage` applies Java's narrowing cast, `TruncateToShort`.

Modelling choices where the source leaves things open:
- A frame is indexed `frame[x][y]`. The first index runs along X (the
  width).
- The interface does not fix the layout of `getPixelData`'s one-dimensional
  result. The model uses row-major order with X varying fastest, the layout
  of ImageJ's stacks (the backend the interface names). Pixel (x, y) is at
  `y * width + x` (`Pixels.Offset`).
- Width and height are fixed when a dataset is created. An image matches
  only if it is exactly `width` columns of `height` pixels. A ragged array
  never matches.
- A failed `addImage` or `concatenate` leaves the dataset unchanged. The
  interface's comments do not say what remains after the exception.
- `concatenate` fails exactly when the two datasets' width or height
  differ. This also applies when the other dataset is empty.
- "Truncated into shorts" is read as Java's `(short)` cast. The cast keeps
  the low 16 bits, read as two's complement. It does not clamp.
- The legacy constructor and the builder path are modelled as the code
  writes them. The builder path does not recompute thermal noise from dark
  current and frame rate. It also does not derive the FWHM from the optics.
  Two lemmas about a builder-made camera state when the two paths agree:
  `BuilderThermalNoiseMatchesLegacy`, and `PinnedFwhmMatchesFormula`.
  Under the second, a builder-made camera's FWHM of 3 matches the formula
  for its pinned optics only at the pixel size `0.61 * 0.65 * 60 / (1.4 * 3)`.

## Model

| member | source | states |
|---|---|---|
| `RealtimeCamera.ThermalNoise` | src/ch/epfl/leb/sass/simulator/generators/realtime/Camera.java:215 | thermal noise per frame times the frame rate gives back the dark current per second (the unit conversion electrons/second to electrons/frame) |
| `RealtimeCamera.FwhmDigital` | src/ch/epfl/leb/sass/simulator/generators/realtime/Camera.java:217-221 | the digital FWHM satisfies `fwhm * NA * pixelSize == 0.61 * wavelength * magnification` |
| `RealtimeCamera.FwhmUnique` | src/ch/epfl/leb/sass/simulator/generators/realtime/Camera.java:217-221 | that equation has exactly one solution, the computed FWHM |
| `RealtimeCamera.FwhmLinearInWavelength` | src/ch/epfl/leb/sass/simulator/generators/realtime/Camera.java:217-221 | scaling the wavelength by k scales the FWHM by k |
| `RealtimeCamera.FwhmLinearInMagnification` | src/ch/epfl/leb/sass/simulator/generators/realtime/Camera.java:217-221 | scaling the magnification by k scales the FWHM by k |
| `RealtimeCamera.FwhmInverseInNA` | src/ch/epfl/leb/sass/simulator/generators/realtime/Camera.java:217-221 | scaling the NA by k divides the FWHM by k |
| `RealtimeCamera.FwhmInverseInPixelSize` | src/ch/epfl/leb/sass/simulator/generators/realtime/Camera.java:217-221 | scaling the pixel size by k divides the FWHM by k |
| `RealtimeCamera.BuilderThermalNoiseMatchesLegacy` | src/ch/epfl/leb/sass/simulator/generators/realtime/Camera.java:215-233 | for a camera built from builder values, its thermal noise (copied verbatim) equals the legacy derivation from its dark current and frame rate iff the builder's thermal noise times its frame rate is the dark current |
| `RealtimeCamera.PinnedFwhmMatchesFormula` | src/ch/epfl/leb/sass/simulator/generators/realtime/Camera.java:217-241 | for a camera built from builder values, its pinned FWHM 3 equals the formula applied to its pinned optics and its pixel size iff `pixelSize * 1.4 * 3 == 0.61 * 0.65 * 60` |
| `RealtimeCamera.Camera.Legacy` | src/ch/epfl/leb/sass/simulator/generators/realtime/Camera.java:195-222 | every argument is stored unchanged in its field; thermal noise times frame rate is the dark current; the FWHM is `FwhmDigital` of the optics; stage position starts at 0 |
| `RealtimeCamera.Camera.FromBuilder` | src/ch/epfl/leb/sass/simulator/generators/realtime/Camera.java:224-242 | each builder field is copied into its camera field, thermal noise verbatim; NA 1.4, FWHM 3, magnification 60, wavelength 0.65 whatever the builder holds; stage position 0 |
| `RealtimeCamera.GettersReturnFields` | src/ch/epfl/leb/sass/simulator/generators/realtime/Camera.java:244-281 | the getters `GetResX`, `GetResY`, `GetNX`, `GetNY`, `GetAduPerElectron`, `GetAcqSpeed`, `GetBaseline`, `GetDarkCurrent`, `GetPixelSize`, `GetQuantumEfficiency`, `GetReadoutNoise` and `GetThermalNoise`: `GetNX() == GetResX() == resX`, `GetNY() == GetResY() == resY`, every other one returns its field |
| `RealtimeCamera.Builder.constructor` | src/ch/epfl/leb/sass/simulator/generators/realtime/Camera.java:121-132 | a new builder holds Java's zero defaults in every field |
| `RealtimeCamera.Builder.AcqSpeed` | src/ch/epfl/leb/sass/simulator/generators/realtime/Camera.java:134-137 | sets the frame rate only, every other field unchanged, returns the same builder |
| `RealtimeCamera.Builder.ReadoutNoise` | src/ch/epfl/leb/sass/simulator/generators/realtime/Camera.java:138-141 | sets the readout noise only, returns the same builder |
| `RealtimeCamera.Builder.DarkCurrent` | src/ch/epfl/leb/sass/simulator/generators/realtime/Camera.java:142-145 | sets the dark current only, returns the same builder |
| `RealtimeCamera.Builder.QuantumEfficiency` | src/ch/epfl/leb/sass/simulator/generators/realtime/Camera.java:146-149 | sets the quantum efficiency only, returns the same builder |
| `RealtimeCamera.Builder.AduPerElectron` | src/ch/epfl/leb/sass/simulator/generators/realtime/Camera.java:150-153 | sets the ADU factor only, returns the same builder |
| `RealtimeCamera.Builder.EmGain` | src/ch/epfl/leb/sass/simulator/generators/realtime/Camera.java:154-157 | sets the EM gain only, returns the same builder |
| `RealtimeCamera.Builder.Baseline` | src/ch/epfl/leb/sass/simulator/generators/realtime/Camera.java:158-161 | sets the baseline only, returns the same builder |
| `RealtimeCamera.Builder.PixelSize` | src/ch/epfl/leb/sass/simulator/generators/realtime/Camera.java:162-165 | sets the pixel size only, returns the same builder |
| `RealtimeCamera.Builder.ThermalNoise` | src/ch/epfl/leb/sass/simulator/generators/realtime/Camera.java:166-169 | sets the thermal noise only, returns the same builder |
| `RealtimeCamera.Builder.NX` | src/ch/epfl/leb/sass/simulator/generators/realtime/Camera.java:170 | sets the X resolution only, returns the same builder |
| `RealtimeCamera.Builder.NY` | src/ch/epfl/leb/sass/simulator/generators/realtime/Camera.java:171 | sets the Y resolution only, returns the same builder |
| `RealtimeCamera.Builder.Build` | src/ch/epfl/leb/sass/simulator/generators/realtime/Camera.java:173-175 | returns a new camera built from the builder's current values (as `FromBuilder`) |
| `Pixels.TruncateToShort` | src/main/java/ch/epfl/leb/sass/utils/images/ImageS.java:90-95 | the 16-bit result is congruent to the `int` modulo 2^16 |
| `Pixels.ShortCongruenceUnique` | src/main/java/ch/epfl/leb/sass/utils/images/ImageS.java:90-95 | two 16-bit values congruent modulo 2^16 are equal, so the cast's result is determined |
| `Pixels.TruncateKeepsShorts` | src/main/java/ch/epfl/leb/sass/utils/images/ImageS.java:90-95 | values already in 16-bit range are kept unchanged |
| `Pixels.TruncatePeriodic` | src/main/java/ch/epfl/leb/sass/utils/images/ImageS.java:90-95 | the cast depends only on the value modulo 2^16 |
| `Pixels.TruncateFrame` | src/main/java/ch/epfl/leb/sass/utils/images/ImageS.java:83-95 | an `int` image cast pixel by pixel keeps its shape (either has a given shape iff the other does); each pixel is congruent modulo 2^16 |
| `Pixels.Offset` | src/main/java/ch/epfl/leb/sass/utils/images/ImageS.java:119-125 | pixel (x, y)'s flat position lies inside the slice, and x and y are recovered from it by remainder and quotient |
| `Pixels.FlattenRowsAt` | src/main/java/ch/epfl/leb/sass/utils/images/ImageS.java:119-125 | after laying out the first rows, pixel (x, y) of those rows is at its offset |
| `Pixels.Flatten` | src/main/java/ch/epfl/leb/sass/utils/images/ImageS.java:119-125 | the flat slice has width times height pixels and pixel (x, y) at its offset |
| `Pixels.UnflattenFlatten` | src/main/java/ch/epfl/leb/sass/utils/images/ImageS.java:119-125 | the frame is rebuilt exactly from its flat layout |
| `Pixels.FlattenUnflatten` | src/main/java/ch/epfl/leb/sass/utils/images/ImageS.java:119-125 | every flat sequence of width times height pixels is the layout of the frame rebuilt from it |
| `Images.ImageS.SetTitle` | src/main/java/ch/epfl/leb/sass/utils/images/ImageS.java:36-48 | `GetTitle()` then returns the new title; frames, shape and slice unchanged |
| `Images.ImageS.GetBitDepth` | src/main/java/ch/epfl/leb/sass/utils/images/ImageS.java:50-55 | a pixel takes one of 2^bits values, i.e. the bit depth is that of a 16-bit pixel |
| `Images.ImageS.AddImage` | src/main/java/ch/epfl/leb/sass/utils/images/ImageS.java:71-81 | succeeds iff the image is width by height; on success the size grows by one, the image is the last slice and earlier slices are unchanged; otherwise `ImageShapeException` and nothing changes; width and height never change |
| `Images.ImageS.AddIntImage` | src/main/java/ch/epfl/leb/sass/utils/images/ImageS.java:83-95 | as `AddImage`, appending the image with every pixel cast to a 16-bit value |
| `Images.ImageS.Concatenate` | src/main/java/ch/epfl/leb/sass/utils/images/ImageS.java:111-117 | succeeds iff both datasets have the same width and height; then the other's frames follow this one's in order and the size is the sum; otherwise `ImageShapeException` and nothing changes |
| `Images.ImageS.GetPixelData` | src/main/java/ch/epfl/leb/sass/utils/images/ImageS.java:119-125 | for `0 <= index < GetSize()`, returns slice `index` flattened: pixel (x, y) at its offset, and the slice is rebuilt exactly from the result |
| `Images.ImageS.GetTitle` | src/main/java/ch/epfl/leb/sass/utils/images/ImageS.java:36-41 | returns the title; its value is the constructor's title or the last one given to `SetTitle`, and no other operation changes it |
| `Images.ImageS.GetWidth` | src/main/java/ch/epfl/leb/sass/utils/images/ImageS.java:164-170 | in a valid dataset every frame is that many columns wide; no operation changes it (`AddImage`, `AddIntImage`, `Concatenate`, `SetSlice`, `SetTitle` all keep it) |
| `Images.ImageS.GetHeight` | src/main/java/ch/epfl/leb/sass/utils/images/ImageS.java:172-178 | in a valid dataset every column of every frame is that many pixels high; no operation changes it |
| `Images.ImageS.GetSize` | src/main/java/ch/epfl/leb/sass/utils/images/ImageS.java:180-185 | the number of frames: 0 for a new dataset, +1 after a successful `AddImage`/`AddIntImage`, + the other's size after a successful `Concatenate`, unchanged otherwise |
| `Images.ImageS.GetSlice` | src/main/java/ch/epfl/leb/sass/utils/images/ImageS.java:139-146 | returns the active slice; 0 for a new dataset, then the last index given to `SetSlice`, and no other operation changes it |
| `Images.ImageS.SetSlice` | src/main/java/ch/epfl/leb/sass/utils/images/ImageS.java:139-155 | `GetSlice()` then returns the given index; frames, shape and title unchanged |

## Left out

- `RealtimeCamera.Camera.Legacy`: requires a non-zero frame rate, NA and pixel size. The Java code divides by them unguarded. With `double`s, a zero divisor gives Infinity or NaN. IEEE-754 rounding and non-finite values are not modelled: the formulas are over `real`.
- `RealtimeCamera.ThermalNoise`: requires a non-zero frame rate, for the same reason.
- `RealtimeCamera.FwhmDigital`: requires a non-zero NA and pixel size, for the same reason.
- Java's 32-bit `int` is modelled as an unbounded `int`. This covers camera resolutions, gain, baseline, a dataset's size and `width * height`. Overflow is not modelled.
- `Images.ImageS.AddImage`, `Images.ImageS.AddIntImage`, `Images.ImageS.GetPixelData`: frames are values (`seq`), so these are modelled with copy semantics. Whether `addImage` keeps a reference to the caller's array, and whether the array `getPixelData` returns shares storage with the stack, is not captured; nor is any aliasing between them.
- `addImage(float[][])`: not modelled, because its float-to-short conversion is not specified.
- `serializeToArray` and `serializeToBuffer`: not modelled. They produce TIFF bytes through an external image library.
- `saveAsTiffStack`: not modelled, because it is file I/O.
- `view` and `updateView`: not modelled, because they are GUI.
- Null arguments (a null image or dataset) are not modelled.
- The `ImageS` interface has no constructor. `Images.ImageS.constructor` is a stand-in for creating an empty dataset of a given shape with some backend.
- The simulator's RPC server, ImageJ plugin, particle analyser and obstructor interface are not part of this model. They are network, threading and GUI code, or a declaration without behaviour. The same holds for the server integration test, whose assertions concern other simulator classes, which are not part of this model either.
