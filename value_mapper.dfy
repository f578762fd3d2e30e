/**
 * ValueMapper: the conversions between the values the filter panel shows and
 * the values the gamma-ramp calculation uses, the configuration check, and
 * the suggestion of safe values.
 */
module ValueMapper {
  import opened FilterModels

  const BrightnessUiMin: real := -100.0
  const BrightnessUiMax: real := 100.0
  const BrightnessAlgoMin: real := -0.5
  const BrightnessAlgoMax: real := 0.5
  const GammaMin: real := 0.5
  const GammaMax: real := 3.0
  const ContrastUiMin: real := -50.0
  const ContrastUiMax: real := 50.0
  const ContrastAlgoMin: real := -0.5
  const ContrastAlgoMax: real := 0.5
  const RgbUiMax: real := 255.0

  /** _clamp: max(lo, min(hi, v)). */
  function Clamp(v: real, lo: real, hi: real): (r: real)
    ensures lo <= hi ==> lo <= r <= hi
    ensures lo <= v <= hi ==> r == v
    ensures v < lo ==> r == lo
    ensures lo <= hi < v ==> r == hi
  {
    var upper := if hi < v then hi else v;
    if lo > upper then lo else upper
  }

  /** Linear interpolation of v from [fromLo, fromHi] onto [toLo, toHi], clamped to the target range. */
  function Rescale(v: real, fromLo: real, fromHi: real, toLo: real, toHi: real): real
    requires fromLo < fromHi
  {
    var normalized := (v - fromLo) / (fromHi - fromLo);
    Clamp(toLo + normalized * (toHi - toLo), toLo, toHi)
  }

  function UiToAlgoBrightness(ui: real): (a: real)
    ensures BrightnessAlgoMin <= a <= BrightnessAlgoMax
  {
    Rescale(ui, BrightnessUiMin, BrightnessUiMax, BrightnessAlgoMin, BrightnessAlgoMax)
  }

  function AlgoToUiBrightness(a: real): (ui: real)
    ensures BrightnessUiMin <= ui <= BrightnessUiMax
  {
    Rescale(a, BrightnessAlgoMin, BrightnessAlgoMax, BrightnessUiMin, BrightnessUiMax)
  }

  /** Brightness: the panel's [-100, 100] is [-0.5, 0.5] scaled by 1/200, and out-of-range values saturate. */
  lemma BrightnessMapping(ui: real)
    ensures BrightnessUiMin <= ui <= BrightnessUiMax ==> UiToAlgoBrightness(ui) == ui / 200.0
    ensures ui < BrightnessUiMin ==> UiToAlgoBrightness(ui) == BrightnessAlgoMin
    ensures ui > BrightnessUiMax ==> UiToAlgoBrightness(ui) == BrightnessAlgoMax
  {
  }

  /** UI -> algorithm -> UI gives the UI value back on the whole UI range, and the other way round. */
  lemma BrightnessRoundTrip(ui: real, a: real)
    ensures BrightnessUiMin <= ui <= BrightnessUiMax ==> AlgoToUiBrightness(UiToAlgoBrightness(ui)) == ui
    ensures BrightnessAlgoMin <= a <= BrightnessAlgoMax ==> UiToAlgoBrightness(AlgoToUiBrightness(a)) == a
  {
  }

  function UiToAlgoGamma(ui: real): (g: real)
    ensures GammaMin <= g <= GammaMax
  {
    Clamp(ui, GammaMin, GammaMax)
  }

  function AlgoToUiGamma(g: real): (ui: real)
    ensures GammaMin <= ui <= GammaMax
  {
    Clamp(g, GammaMin, GammaMax)
  }

  /** Gamma is shown as it is: both directions are the same clamp, so each is idempotent and they compose to it. */
  lemma GammaIdentity(v: real)
    ensures UiToAlgoGamma(UiToAlgoGamma(v)) == UiToAlgoGamma(v)
    ensures AlgoToUiGamma(UiToAlgoGamma(v)) == UiToAlgoGamma(v) == AlgoToUiGamma(v)
    ensures GammaMin <= v <= GammaMax ==> UiToAlgoGamma(v) == v
  {
  }

  function UiToAlgoContrast(ui: real): (a: real)
    ensures ContrastAlgoMin <= a <= ContrastAlgoMax
  {
    Rescale(ui, ContrastUiMin, ContrastUiMax, ContrastAlgoMin, ContrastAlgoMax)
  }

  function AlgoToUiContrast(a: real): (ui: real)
    ensures ContrastUiMin <= ui <= ContrastUiMax
  {
    Rescale(a, ContrastAlgoMin, ContrastAlgoMax, ContrastUiMin, ContrastUiMax)
  }

  /** Contrast: [-50, 50] is [-0.5, 0.5] scaled by 1/100; both directions clamp and invert each other on their ranges. */
  lemma ContrastRoundTrip(ui: real, a: real)
    ensures ContrastUiMin <= ui <= ContrastUiMax ==> UiToAlgoContrast(ui) == ui / 100.0
    ensures ContrastUiMin <= ui <= ContrastUiMax ==> AlgoToUiContrast(UiToAlgoContrast(ui)) == ui
    ensures ContrastAlgoMin <= a <= ContrastAlgoMax ==> UiToAlgoContrast(AlgoToUiContrast(a)) == a
  {
  }

  /** ui / 255 clamped to [0, 1]. */
  function UiToAlgoRgb(ui: real): (a: real)
    ensures 0.0 <= a <= 1.0
  {
    Clamp(ui / RgbUiMax, 0.0, 1.0)
  }

  /** algo * 255 clamped to [0, 255]. */
  function AlgoToUiRgb(a: real): (ui: real)
    ensures 0.0 <= ui <= RgbUiMax
  {
    Clamp(a * RgbUiMax, 0.0, RgbUiMax)
  }

  lemma RgbRoundTrip(ui: real, a: real)
    ensures 0.0 <= ui <= RgbUiMax ==> AlgoToUiRgb(UiToAlgoRgb(ui)) == ui
    ensures 0.0 <= a <= 1.0 ==> UiToAlgoRgb(AlgoToUiRgb(a)) == a
  {
  }

  const TestPoints: seq<real> := [0.0, 0.25, 0.5, 0.75, 1.0]

  /**
   * What validate_config decides: every intermediate value of the pipeline is
   * clamped, so the only rejection is a gamma below 0.01.
   */
  function Validity(c: FilterConfig): (r: (bool, string))
  {
    if c.gamma < 0.01 then (false, "Gamma value too low") else (true, "")
  }

  /**
   * validate_config: runs the pipeline on the five test points and returns at
   * the first failure. The clamped values it computes are discarded, so only
   * the gamma check can end the loop early.
   */
  method ValidateConfig(c: FilterConfig) returns (ok: bool, message: string)
    ensures (ok, message) == Validity(c)
    ensures ok <==> c.gamma >= 0.01
  {
    for i := 0 to |TestPoints|
      invariant c.gamma >= 0.01 || i == 0
    {
      var contrasted := Clamp((TestPoints[i] - 0.5) * (1.0 + c.contrast) + 0.5, 0.0, 1.0);
      if c.gamma < 0.01 {
        return false, "Gamma value too low";
      }
    }
    if c.gamma < 0.01 {
      return false, "Gamma value too low";
    }
    return true, "";
  }

  /**
   * The configuration suggest_safe_values returns: a copy of the six main
   * fields with the overlay offsets back at zero, and brightness and contrast
   * also zeroed when the gamma is rejected.
   */
  function SafeValues(c: FilterConfig): (r: FilterConfig)
    ensures r.overlayBrightnessOffset == 0.0 && r.overlayGammaOffset == 0.0 && r.overlayContrastOffset == 0.0
    ensures r.gamma == c.gamma && r.redScale == c.redScale && r.greenScale == c.greenScale && r.blueScale == c.blueScale
    ensures Validity(c).0 ==> r.brightness == c.brightness && r.contrast == c.contrast
    ensures !Validity(c).0 ==> r.brightness == 0.0 && r.contrast == 0.0
  {
    var copy := DefaultFilterConfig.(brightness := c.brightness, gamma := c.gamma, contrast := c.contrast,
                                      redScale := c.redScale, greenScale := c.greenScale, blueScale := c.blueScale);
    if Validity(c).0 then copy else copy.(brightness := 0.0, contrast := 0.0)
  }

  function Abs(x: real): real
  {
    if x < 0.0 then -x else x
  }

  const ScaleFactors: seq<real> := [0.9, 0.8, 0.7, 0.6, 0.5]

  /**
   * suggest_safe_values: check the copy; reduce brightness, then contrast,
   * then both together by the scale factors, re-checking after each step;
   * last, fall back to zero brightness and contrast. None of the steps changes
   * the gamma, which is all the check looks at.
   */
  method SuggestSafeValues(c: FilterConfig) returns (r: FilterConfig)
    ensures r == SafeValues(c)
  {
    var test := DefaultFilterConfig.(brightness := c.brightness, gamma := c.gamma, contrast := c.contrast,
                                      redScale := c.redScale, greenScale := c.greenScale, blueScale := c.blueScale);
    var ok, message := ValidateConfig(test);
    if ok {
      return test;
    }
    if Abs(test.brightness) > 0.6 {
      test := test.(brightness := test.brightness * 0.75);
      ok, message := ValidateConfig(test);
      if ok {
        return test;
      }
    }
    if Abs(test.contrast) > 0.3 {
      test := test.(contrast := test.contrast * 0.75);
      ok, message := ValidateConfig(test);
      if ok {
        return test;
      }
    }
    for i := 0 to |ScaleFactors|
      invariant test.gamma == c.gamma
    {
      test := test.(brightness := c.brightness * ScaleFactors[i], contrast := c.contrast * ScaleFactors[i]);
      ok, message := ValidateConfig(test);
      if ok {
        return test;
      }
    }
    return DefaultFilterConfig.(gamma := c.gamma, redScale := c.redScale, greenScale := c.greenScale,
                                blueScale := c.blueScale);
  }

  /**
   * get_safe_max_brightness: the UI brightness that keeps a full-scale input
   * from exceeding 1 after contrast and gamma; `pow` is the float power. With
   * almost no signal left the answer is the UI maximum.
   */
  function SafeMaxBrightness(gamma: real, contrast: real, pow: (real, real) -> real): (ui: real)
    ensures BrightnessUiMin <= ui <= BrightnessUiMax
    ensures var g := if gamma < 0.01 then 0.01 else gamma;
      pow(Clamp(0.5 * (1.0 + contrast) + 0.5, 0.0, 1.0), 1.0 / g) <= 0.01 ==> ui == BrightnessUiMax
  {
    var contrasted := Clamp((1.0 - 0.5) * (1.0 + contrast) + 0.5, 0.0, 1.0);
    var g := if gamma < 0.01 then 0.01 else gamma;
    var corrected := pow(contrasted, 1.0 / g);
    if corrected > 0.01 then
      AlgoToUiBrightness(Clamp(1.0 / corrected - 1.0, -1.0, 1.0))
    else
      BrightnessUiMax
  }
}
