/**
 * The Python gamma controller: the value pipeline (contrast about 0.5, gamma,
 * brightness factor 1 + brightness) and the 256-entry, three-channel ramp it
 * fills for SetDeviceGammaRamp. `pow` stands for math.pow; the device calls
 * are reduced to the ramp each device was given.
 */
module GammaControllerPy {
  import opened FilterModels
  import opened ValueMapper

  const RampSize: nat := 256
  const MaxWord: int := 65535

  /** int() on a float: truncation toward zero. */
  function Trunc(x: real): (n: int)
    ensures 0.0 <= x ==> n == x.Floor
    ensures x < 0.0 ==> n == -((-x).Floor)
    ensures (n as real) <= x + 1.0 && x - 1.0 <= n as real
  {
    if 0.0 <= x then x.Floor else -((-x).Floor)
  }

  /** min(65535, max(0, v)). */
  function ClampWord(v: int): (r: int)
    ensures 0 <= r <= MaxWord
    ensures 0 <= v <= MaxWord ==> r == v
  {
    if v < 0 then 0 else if v > MaxWord then MaxWord else v
  }

  /** The gamma actually used: anything below 0.01 becomes 0.01. */
  function EffectiveGamma(gamma: real): (g: real)
    ensures g >= 0.01
    ensures gamma >= 0.01 ==> g == gamma
  {
    if gamma < 0.01 then 0.01 else gamma
  }

  /**
   * _calculate_value: contrast by 1 + contrast about 0.5 and clamped to
   * [0, 1], then pow(·, 1/gamma), then multiplied by 1 + brightness and clamped
   * to [0, 1], then int(· × 65535).
   */
  function CalculateValue(value: real, gamma: real, contrast: real, brightness: real,
                          pow: (real, real) -> real): (n: int)
    ensures 0 <= n <= MaxWord
  {
    var contrasted := Clamp((value - 0.5) * (1.0 + contrast) + 0.5, 0.0, 1.0);
    var corrected := pow(contrasted, 1.0 / EffectiveGamma(gamma));
    var brightened := Clamp(corrected * (1.0 + brightness), 0.0, 1.0);
    Trunc(brightened * 65535.0)
  }

  /** A gamma below 0.01 gives the same values as 0.01 itself. */
  lemma LowGammaReplaced(value: real, gamma: real, contrast: real, brightness: real, pow: (real, real) -> real)
    requires gamma < 0.01
    ensures CalculateValue(value, gamma, contrast, brightness, pow) == CalculateValue(value, 0.01, contrast, brightness, pow)
  {
  }

  /** One channel's entry from the pipeline's value: int(value × scale) kept within a WORD. */
  function Scaled(value: int, scale: real): (w: int)
    ensures 0 <= w <= MaxWord
  {
    ClampWord(Trunc(value as real * scale))
  }

  /** Entry i of a channel with the given scale. */
  function Entry(c: FilterConfig, i: nat, scale: real, pow: (real, real) -> real): (w: int)
    ensures 0 <= w <= MaxWord
  {
    Scaled(CalculateValue(i as real / 255.0, c.gamma, c.contrast, c.brightness, pow), scale)
  }

  /** The three channels of a RAMP structure. */
  datatype Ramp = Ramp(red: seq<int>, green: seq<int>, blue: seq<int>)

  /** The ramp _generate_ramp fills, entry by entry. */
  predicate IsRampFor(r: Ramp, c: FilterConfig, pow: (real, real) -> real)
  {
    && |r.red| == RampSize && |r.green| == RampSize && |r.blue| == RampSize
    && (forall i :: 0 <= i < RampSize ==> r.red[i] == Entry(c, i, c.redScale, pow))
    && (forall i :: 0 <= i < RampSize ==> r.green[i] == Entry(c, i, c.greenScale, pow))
    && (forall i :: 0 <= i < RampSize ==> r.blue[i] == Entry(c, i, c.blueScale, pow))
  }

  /** The first n entries of a channel with the given scale. */
  function ChannelPrefix(c: FilterConfig, scale: real, pow: (real, real) -> real, n: nat): (s: seq<int>)
    ensures |s| == n
  {
    if n == 0 then [] else ChannelPrefix(c, scale, pow, n - 1) + [Entry(c, n - 1, scale, pow)]
  }

  /** Entry k of a channel prefix is the channel's entry k. */
  lemma {:induction false} ChannelPrefixAt(c: FilterConfig, scale: real, pow: (real, real) -> real, n: nat, k: nat)
    requires k < n
    ensures ChannelPrefix(c, scale, pow, n)[k] == Entry(c, k, scale, pow)
  {
    if k < n - 1 {
      ChannelPrefixAt(c, scale, pow, n - 1, k);
    }
  }

  /** _generate_ramp: for each of the 256 inputs, the three channels in turn. */
  method GenerateRamp(c: FilterConfig, pow: (real, real) -> real) returns (r: Ramp)
    ensures IsRampFor(r, c, pow)
  {
    var red := new int[RampSize];
    var green := new int[RampSize];
    var blue := new int[RampSize];
    for i := 0 to RampSize
      invariant red[..i] == ChannelPrefix(c, c.redScale, pow, i)
      invariant green[..i] == ChannelPrefix(c, c.greenScale, pow, i)
      invariant blue[..i] == ChannelPrefix(c, c.blueScale, pow, i)
    {
      // Each channel: _calculate_value of i / 255, times the channel's scale, clamped to a WORD.
      red[i] := Entry(c, i, c.redScale, pow);
      green[i] := Entry(c, i, c.greenScale, pow);
      blue[i] := Entry(c, i, c.blueScale, pow);
      assert red[..i + 1] == red[..i] + [red[i]];
      assert green[..i + 1] == green[..i] + [green[i]];
      assert blue[..i + 1] == blue[..i] + [blue[i]];
    }
    r := Ramp(red[..], green[..], blue[..]);
    forall k | 0 <= k < RampSize
      ensures r.red[k] == Entry(c, k, c.redScale, pow)
      ensures r.green[k] == Entry(c, k, c.greenScale, pow)
      ensures r.blue[k] == Entry(c, k, c.blueScale, pow)
    {
      ChannelPrefixAt(c, c.redScale, pow, RampSize, k);
      ChannelPrefixAt(c, c.greenScale, pow, RampSize, k);
      ChannelPrefixAt(c, c.blueScale, pow, RampSize, k);
    }
  }

  /** Every entry of a generated ramp is a WORD, and channels with equal scales are equal. */
  lemma {:induction false} RampShape(r: Ramp, c: FilterConfig, pow: (real, real) -> real)
    requires IsRampFor(r, c, pow)
    ensures forall i :: 0 <= i < RampSize ==> 0 <= r.red[i] <= MaxWord && 0 <= r.green[i] <= MaxWord && 0 <= r.blue[i] <= MaxWord
    ensures c.redScale == c.greenScale ==> r.red == r.green
    ensures c.greenScale == c.blueScale ==> r.green == r.blue
  {
    forall i | 0 <= i < RampSize
      ensures 0 <= r.red[i] <= MaxWord && 0 <= r.green[i] <= MaxWord && 0 <= r.blue[i] <= MaxWord
    {
      assert r.red[i] == Entry(c, i, c.redScale, pow);
    }
  }

  /**
   * The default configuration gives the linear ramp: with pow(x, 1) = x,
   * entry i is int(i/255 × 65535) = 257·i on every channel.
   */
  lemma {:induction false} DefaultEntryLinear(i: nat, scale: real, pow: (real, real) -> real)
    requires i < RampSize && scale == 1.0
    requires forall x :: 0.0 <= x <= 1.0 ==> pow(x, 1.0) == x
    ensures Entry(DefaultFilterConfig, i, scale, pow) == 257 * i
  {
    var x := i as real / 255.0;
    assert 0.0 <= x <= 1.0;
    assert Clamp((x - 0.5) * (1.0 + 0.0) + 0.5, 0.0, 1.0) == x;
    assert pow(x, 1.0 / EffectiveGamma(1.0)) == x;
    assert x * 65535.0 == (257 * i) as real;
    assert CalculateValue(x, 1.0, 0.0, 0.0, pow) == 257 * i;
  }

  lemma {:induction false} DefaultRampLinear(r: Ramp, pow: (real, real) -> real)
    requires IsRampFor(r, DefaultFilterConfig, pow)
    requires forall x :: 0.0 <= x <= 1.0 ==> pow(x, 1.0) == x
    ensures forall i :: 0 <= i < RampSize ==> r.red[i] == 257 * i && r.green[i] == 257 * i && r.blue[i] == 257 * i
    ensures r.red[255] == MaxWord
  {
    forall i | 0 <= i < RampSize
      ensures r.red[i] == 257 * i && r.green[i] == 257 * i && r.blue[i] == 257 * i
    {
      DefaultEntryLinear(i, 1.0, pow);
    }
  }

  /** GammaController: `deviceRamps` is the ramp each device was last given. */
  class GammaController {
    var deviceRamps: map<string, Ramp>

    constructor ()
      ensures deviceRamps == map[]
    {
      deviceRamps := map[];
    }

    /** apply_config: one ramp for the configuration, given to every listed device. */
    method ApplyConfig(c: FilterConfig, deviceNames: seq<string>, pow: (real, real) -> real)
      modifies this
      ensures forall d :: d in deviceNames ==> d in deviceRamps && IsRampFor(deviceRamps[d], c, pow)
      ensures forall d :: d !in deviceNames ==> (d in deviceRamps <==> d in old(deviceRamps))
      ensures forall d :: d !in deviceNames && d in deviceRamps ==> deviceRamps[d] == old(deviceRamps)[d]
    {
      var ramp := GenerateRamp(c, pow);
      for k := 0 to |deviceNames|
        invariant forall d :: d in deviceNames[..k] ==> d in deviceRamps && deviceRamps[d] == ramp
        invariant forall d :: d !in deviceNames[..k] ==> (d in deviceRamps <==> d in old(deviceRamps))
        invariant forall d :: d !in deviceNames[..k] && d in deviceRamps ==> deviceRamps[d] == old(deviceRamps)[d]
      {
        assert forall d :: d in deviceNames[..k + 1] <==> d in deviceNames[..k] || d == deviceNames[k];
        deviceRamps := deviceRamps[deviceNames[k] := ramp];
      }
      assert deviceNames[..|deviceNames|] == deviceNames;
    }

    /** reset_monitors: apply FilterConfig(), the linear ramp. */
    method ResetMonitors(deviceNames: seq<string>, pow: (real, real) -> real)
      modifies this
      ensures forall d :: d in deviceNames ==> d in deviceRamps && IsRampFor(deviceRamps[d], DefaultFilterConfig, pow)
      ensures forall d :: d !in deviceNames ==> (d in deviceRamps <==> d in old(deviceRamps))
      ensures forall d :: d !in deviceNames && d in deviceRamps ==> deviceRamps[d] == old(deviceRamps)[d]
    {
      ApplyConfig(DefaultFilterConfig, deviceNames, pow);
    }
  }
}
