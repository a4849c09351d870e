/**
 * The parameters of the simulated camera (the realtime generator's own,
 * deprecated camera record) and the builder that assembles them.
 *
 * Java `double` is modelled by `real`, Java `int` by `int`. A camera's
 * fields are fixed once it is constructed (`const`), except the stage
 * position, which is the one field that may change afterwards.
 */
module RealtimeCamera {

  /** Scale factor of the Airy disk radius, `0.61 * wavelength / NA`. */
  const AiryFactor: real := 0.61

  /** Optics a camera built from a `Builder` always reports. */
  const PinnedNA: real := 1.4
  const PinnedFwhmDigital: real := 3.0
  const PinnedMagnification: real := 60.0
  const PinnedWavelength: real := 0.65

  /**
   * Noise caused by dark current, per frame and pixel: the dark current
   * (electrons per second per pixel) over the frame rate (frames per
   * second). Accumulated over one second of frames it gives back the dark
   * current.
   */
  function ThermalNoise(darkCurrent: real, acqSpeed: int): (noise: real)
    requires acqSpeed != 0
    ensures noise * acqSpeed as real == darkCurrent
  {
    darkCurrent / acqSpeed as real
  }

  /**
   * Digital FWHM of the PSF in pixels: the Airy radius `0.61 * wavelength / NA`,
   * magnified, measured in pixels of size `pixelSize`.
   */
  function FwhmDigital(wavelength: real, na: real, magnification: real, pixelSize: real): (fwhm: real)
    requires na != 0.0 && pixelSize != 0.0
    ensures fwhm * na * pixelSize == AiryFactor * wavelength * magnification
  {
    var airyPsfRadius := AiryFactor * wavelength / na;
    var airyPsfRadiusDigital := airyPsfRadius * magnification;
    airyPsfRadiusDigital / pixelSize
  }

  /** Any result of the FWHM formula is the one its defining equation allows. */
  lemma FwhmUnique(wavelength: real, na: real, magnification: real, pixelSize: real, fwhm: real)
    requires na != 0.0 && pixelSize != 0.0
    requires fwhm * na * pixelSize == AiryFactor * wavelength * magnification
    ensures fwhm == FwhmDigital(wavelength, na, magnification, pixelSize)
  {
  }

  /** The FWHM grows linearly with the wavelength. */
  lemma FwhmLinearInWavelength(k: real, wavelength: real, na: real, magnification: real, pixelSize: real)
    requires na != 0.0 && pixelSize != 0.0
    ensures FwhmDigital(k * wavelength, na, magnification, pixelSize)
         == k * FwhmDigital(wavelength, na, magnification, pixelSize)
  {
  }

  /** The FWHM grows linearly with the magnification. */
  lemma FwhmLinearInMagnification(k: real, wavelength: real, na: real, magnification: real, pixelSize: real)
    requires na != 0.0 && pixelSize != 0.0
    ensures FwhmDigital(wavelength, na, k * magnification, pixelSize)
         == k * FwhmDigital(wavelength, na, magnification, pixelSize)
  {
  }

  /** Scaling the numerical aperture by `k` divides the FWHM by `k`. */
  lemma FwhmInverseInNA(k: real, wavelength: real, na: real, magnification: real, pixelSize: real)
    requires k != 0.0 && na != 0.0 && pixelSize != 0.0
    ensures k * FwhmDigital(wavelength, k * na, magnification, pixelSize)
         == FwhmDigital(wavelength, na, magnification, pixelSize)
  {
  }

  /** Scaling the pixel size by `k` divides the FWHM by `k`. */
  lemma FwhmInverseInPixelSize(k: real, wavelength: real, na: real, magnification: real, pixelSize: real)
    requires k != 0.0 && na != 0.0 && pixelSize != 0.0
    ensures k * FwhmDigital(wavelength, na, magnification, k * pixelSize)
         == FwhmDigital(wavelength, na, magnification, pixelSize)
  {
  }

  /** The values a `Builder` holds, field by field. */
  datatype BuilderSettings = BuilderSettings(
    acqSpeed: int,
    readoutNoise: real,
    darkCurrent: real,
    quantumEfficiency: real,
    aduPerElectron: real,
    emGain: int,
    baseline: int,
    pixelSize: real,
    thermalNoise: real,
    nX: int,
    nY: int)

  /**
   * A builder-made camera reproduces the legacy thermal-noise derivation
   * exactly when the thermal noise it was given is already the dark current
   * per frame.
   */
  lemma BuilderThermalNoiseMatchesLegacy(c: Camera, s: BuilderSettings)
    requires c.BuiltFrom(s) && s.acqSpeed != 0
    ensures c.thermalNoise == ThermalNoise(c.darkCurrent, c.acqSpeed)
        <==> s.thermalNoise * s.acqSpeed as real == s.darkCurrent
  {
  }

  /**
   * The pinned FWHM of a builder-made camera agrees with the FWHM formula
   * applied to its pinned optics only for one pixel size,
   * `0.61 * 0.65 * 60 / (1.4 * 3)`.
   */
  lemma PinnedFwhmMatchesFormula(c: Camera, s: BuilderSettings)
    requires c.BuiltFrom(s) && s.pixelSize != 0.0
    ensures c.fwhmDigital == FwhmDigital(c.wavelength, c.na, c.magnification, c.pixelSize)
        <==> s.pixelSize * PinnedNA * PinnedFwhmDigital == AiryFactor * PinnedWavelength * PinnedMagnification
  {
  }

  class Camera {
    /** Frame rate [frames/second]. */
    const acqSpeed: int
    /** Readout noise [RMS]. */
    const readoutNoise: real
    /** Dark current [electrons/second/pixel]. */
    const darkCurrent: real
    /** Quantum efficiency [0.0-1.0]. */
    const quantumEfficiency: real
    /** Analog-to-digital units per electron. */
    const aduPerElectron: real
    /** Electron multiplication gain; zero for sensors without one. */
    const emGain: int
    /** Zero-signal mean of a pixel [ADU]. */
    const baseline: int
    /** Physical size of a pixel. */
    const pixelSize: real
    /** Numerical aperture (deprecated). */
    const na: real
    /** Light wavelength (deprecated). */
    const wavelength: real
    /** Magnification (deprecated). */
    const magnification: real
    /** Noise caused by dark current [electrons/frame/pixel]. */
    const thermalNoise: real
    /** Digital FWHM of the PSF (deprecated). */
    const fwhmDigital: real
    /** Image size in pixels along X and along Y. */
    const resX: int
    const resY: int
    /** Displacement of the coverslip from the focal plane; the one mutable field. */
    var stagePosition: real

    /**
     * The legacy constructor: keeps every argument and derives the thermal
     * noise per frame and the digital FWHM from them.
     */
    constructor Legacy(resX: int, resY: int, acqSpeed: int, readoutNoise: real,
                       darkCurrent: real, quantumEfficiency: real,
                       aduPerElectron: real, emGain: int, baseline: int,
                       pixelSize: real, na: real, wavelength: real,
                       magnification: real)
      requires acqSpeed != 0 && na != 0.0 && pixelSize != 0.0
      ensures this.resX == resX && this.resY == resY && this.acqSpeed == acqSpeed
      ensures this.readoutNoise == readoutNoise && this.darkCurrent == darkCurrent
      ensures this.quantumEfficiency == quantumEfficiency && this.aduPerElectron == aduPerElectron
      ensures this.emGain == emGain && this.baseline == baseline && this.pixelSize == pixelSize
      ensures this.na == na && this.wavelength == wavelength && this.magnification == magnification
      ensures thermalNoise * acqSpeed as real == darkCurrent
      ensures fwhmDigital == FwhmDigital(wavelength, na, magnification, pixelSize)
      ensures stagePosition == 0.0
    {
      this.resX := resX;
      this.resY := resY;
      this.acqSpeed := acqSpeed;
      this.readoutNoise := readoutNoise;
      this.darkCurrent := darkCurrent;
      this.quantumEfficiency := quantumEfficiency;
      this.aduPerElectron := aduPerElectron;
      this.emGain := emGain;
      this.baseline := baseline;
      this.pixelSize := pixelSize;
      this.na := na;
      this.wavelength := wavelength;
      this.magnification := magnification;
      thermalNoise := ThermalNoise(darkCurrent, acqSpeed);
      fwhmDigital := FwhmDigital(wavelength, na, magnification, pixelSize);
      stagePosition := 0.0;
    }

    /**
     * This camera holds the builder's values field for field (the thermal
     * noise included, verbatim) and the pinned optics.
     */
    ghost predicate BuiltFrom(s: BuilderSettings)
    {
      && aduPerElectron == s.aduPerElectron && emGain == s.emGain
      && acqSpeed == s.acqSpeed && baseline == s.baseline
      && darkCurrent == s.darkCurrent && pixelSize == s.pixelSize
      && quantumEfficiency == s.quantumEfficiency && readoutNoise == s.readoutNoise
      && thermalNoise == s.thermalNoise && resX == s.nX && resY == s.nY
      && na == PinnedNA && fwhmDigital == PinnedFwhmDigital
      && magnification == PinnedMagnification && wavelength == PinnedWavelength
    }

    /** The builder-based constructor: copies the builder's values. */
    constructor FromBuilder(builder: Builder)
      ensures BuiltFrom(builder.Settings())
      ensures stagePosition == 0.0
    {
      aduPerElectron := builder.aduPerElectron;
      emGain := builder.emGain;
      acqSpeed := builder.acqSpeed;
      baseline := builder.baseline;
      darkCurrent := builder.darkCurrent;
      pixelSize := builder.pixelSize;
      quantumEfficiency := builder.quantumEfficiency;
      readoutNoise := builder.readoutNoise;
      thermalNoise := builder.thermalNoise;
      resX := builder.nX;
      resY := builder.nY;
      na := PinnedNA;
      fwhmDigital := PinnedFwhmDigital;
      magnification := PinnedMagnification;
      wavelength := PinnedWavelength;
      stagePosition := 0.0;
    }

    function GetResX(): (n: int) { resX }
    function GetResY(): (n: int) { resY }
    function GetNX(): (n: int) { resX }
    function GetNY(): (n: int) { resY }
    function GetAduPerElectron(): (v: real) { aduPerElectron }
    function GetAcqSpeed(): (speed: int) { acqSpeed }
    function GetBaseline(): (adu: int) { baseline }
    function GetDarkCurrent(): (v: real) { darkCurrent }
    function GetPixelSize(): (v: real) { pixelSize }
    function GetQuantumEfficiency(): (v: real) { quantumEfficiency }
    function GetReadoutNoise(): (v: real) { readoutNoise }
    function GetThermalNoise(): (v: real) { thermalNoise }
  }

  /** The deprecated resolution getters are aliases of the current ones; every getter returns its field. */
  lemma GettersReturnFields(c: Camera)
    ensures c.GetNX() == c.GetResX() == c.resX && c.GetNY() == c.GetResY() == c.resY
    ensures c.GetAduPerElectron() == c.aduPerElectron && c.GetAcqSpeed() == c.acqSpeed
    ensures c.GetBaseline() == c.baseline && c.GetDarkCurrent() == c.darkCurrent
    ensures c.GetPixelSize() == c.pixelSize && c.GetQuantumEfficiency() == c.quantumEfficiency
    ensures c.GetReadoutNoise() == c.readoutNoise && c.GetThermalNoise() == c.thermalNoise
  {
  }

  /**
   * Collects camera parameters one at a time. Every setter overwrites its
   * own field only and returns this same builder, so calls can be chained.
   */
  class Builder {
    var acqSpeed: int
    var readoutNoise: real
    var darkCurrent: real
    var quantumEfficiency: real
    var aduPerElectron: real
    var emGain: int
    var baseline: int
    var pixelSize: real
    var thermalNoise: real
    var nX: int
    var nY: int

    function Settings(): (s: BuilderSettings)
      reads this
    {
      BuilderSettings(acqSpeed, readoutNoise, darkCurrent, quantumEfficiency, aduPerElectron,
                      emGain, baseline, pixelSize, thermalNoise, nX, nY)
    }

    /** A new builder holds Java's default values: every field is zero. */
    constructor ()
      ensures Settings() == BuilderSettings(0, 0.0, 0.0, 0.0, 0.0, 0, 0, 0.0, 0.0, 0, 0)
    {
      acqSpeed, readoutNoise, darkCurrent, quantumEfficiency := 0, 0.0, 0.0, 0.0;
      aduPerElectron, emGain, baseline, pixelSize := 0.0, 0, 0, 0.0;
      thermalNoise, nX, nY := 0.0, 0, 0;
    }

    method AcqSpeed(acqSpeed: int) returns (b: Builder)
      modifies this
      ensures b == this && Settings() == old(Settings()).(acqSpeed := acqSpeed)
    {
      this.acqSpeed := acqSpeed;
      b := this;
    }

    method ReadoutNoise(readoutNoise: real) returns (b: Builder)
      modifies this
      ensures b == this && Settings() == old(Settings()).(readoutNoise := readoutNoise)
    {
      this.readoutNoise := readoutNoise;
      b := this;
    }

    method DarkCurrent(darkCurrent: real) returns (b: Builder)
      modifies this
      ensures b == this && Settings() == old(Settings()).(darkCurrent := darkCurrent)
    {
      this.darkCurrent := darkCurrent;
      b := this;
    }

    method QuantumEfficiency(quantumEfficiency: real) returns (b: Builder)
      modifies this
      ensures b == this && Settings() == old(Settings()).(quantumEfficiency := quantumEfficiency)
    {
      this.quantumEfficiency := quantumEfficiency;
      b := this;
    }

    method AduPerElectron(aduPerElectron: real) returns (b: Builder)
      modifies this
      ensures b == this && Settings() == old(Settings()).(aduPerElectron := aduPerElectron)
    {
      this.aduPerElectron := aduPerElectron;
      b := this;
    }

    method EmGain(emGain: int) returns (b: Builder)
      modifies this
      ensures b == this && Settings() == old(Settings()).(emGain := emGain)
    {
      this.emGain := emGain;
      b := this;
    }

    method Baseline(baseline: int) returns (b: Builder)
      modifies this
      ensures b == this && Settings() == old(Settings()).(baseline := baseline)
    {
      this.baseline := baseline;
      b := this;
    }

    method PixelSize(pixelSize: real) returns (b: Builder)
      modifies this
      ensures b == this && Settings() == old(Settings()).(pixelSize := pixelSize)
    {
      this.pixelSize := pixelSize;
      b := this;
    }

    method ThermalNoise(thermalNoise: real) returns (b: Builder)
      modifies this
      ensures b == this && Settings() == old(Settings()).(thermalNoise := thermalNoise)
    {
      this.thermalNoise := thermalNoise;
      b := this;
    }

    method NX(nX: int) returns (b: Builder)
      modifies this
      ensures b == this && Settings() == old(Settings()).(nX := nX)
    {
      this.nX := nX;
      b := this;
    }

    method NY(nY: int) returns (b: Builder)
      modifies this
      ensures b == this && Settings() == old(Settings()).(nY := nY)
    {
      this.nY := nY;
      b := this;
    }

    /** A new camera holding this builder's values; the builder is left as it was. */
    method Build() returns (c: Camera)
      ensures fresh(c) && c.BuiltFrom(Settings()) && c.stagePosition == 0.0
    {
      c := new Camera.FromBuilder(this);
    }
  }
}
