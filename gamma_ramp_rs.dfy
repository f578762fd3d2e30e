/**
 * The Rust gamma ramp: the default linear ramp, the ramp a configuration
 * gives, and the controller that remembers each display's original ramp so
 * that it can be put back.
 *
 * The displays are modelled by `deviceRamps`, the ramp each device currently
 * shows: reading a device's ramp succeeds exactly when it is in that map, and
 * `writable` is the set of devices whose SetDeviceGammaRamp call succeeds.
 */
module GammaRampRs {
  import opened Wrappers
  import opened FilterTypes

  const RampSize: nat := 256

  /** GammaRamp: three channels of 256 WORDs. */
  datatype GammaRamp = GammaRamp(red: seq<int>, green: seq<int>, blue: seq<int>)

  /** ((i / 255) * 65535) as u16. */
  function LinearEntry(i: nat): (w: int)
    requires i < RampSize
    ensures w == 257 * i && 0 <= w <= MaxWord
  {
    assert (i as real / 255.0) * 65535.0 == (257 * i) as real;
    ToWord((i as real / 255.0) * 65535.0)
  }

  /** The linear ramp: entry i is 257·i on every channel. */
  predicate IsLinearRamp(r: GammaRamp)
  {
    && |r.red| == RampSize && |r.green| == RampSize && |r.blue| == RampSize
    && forall i :: 0 <= i < RampSize ==> r.red[i] == 257 * i && r.green[i] == 257 * i && r.blue[i] == 257 * i
  }

  /** GammaRamp::default: the same value on the three channels for each of the 256 inputs. */
  method DefaultRamp() returns (r: GammaRamp)
    ensures IsLinearRamp(r)
    ensures r.red[0] == 0 && r.red[255] == MaxWord
  {
    var red := new int[RampSize];
    var green := new int[RampSize];
    var blue := new int[RampSize];
    for i := 0 to RampSize
      invariant forall j :: 0 <= j < i ==> red[j] == 257 * j && green[j] == 257 * j && blue[j] == 257 * j
    {
      var value := LinearEntry(i);
      red[i] := value;
      green[i] := value;
      blue[i] := value;
    }
    r := GammaRamp(red[..], green[..], blue[..]);
  }

  /** The linear ramp as a value, for the places that use GammaRamp::default() without a loop of their own. */
  function LinearRamp(): (r: GammaRamp)
    ensures IsLinearRamp(r)
  {
    GammaRamp(seq(RampSize, i requires 0 <= i < RampSize => LinearEntry(i)),
              seq(RampSize, i requires 0 <= i < RampSize => LinearEntry(i)),
              seq(RampSize, i requires 0 <= i < RampSize => LinearEntry(i)))
  }

  /** There is one linear ramp. */
  lemma {:induction false} LinearRampUnique(r: GammaRamp)
    requires IsLinearRamp(r)
    ensures r == LinearRamp()
  {
    var l := LinearRamp();
    assert r.red == l.red;
    assert r.green == l.green;
    assert r.blue == l.blue;
  }

  /** The ramp from_config fills, entry by entry. */
  predicate IsRampFor(r: GammaRamp, c: FilterConfig, gammaCorrect: (real, real) -> real)
  {
    && |r.red| == RampSize && |r.green| == RampSize && |r.blue| == RampSize
    && (forall i :: 0 <= i < RampSize ==> r.red[i] == CalculateColorValue(c, c.redScale, i, gammaCorrect))
    && (forall i :: 0 <= i < RampSize ==> r.green[i] == CalculateColorValue(c, c.greenScale, i, gammaCorrect))
    && (forall i :: 0 <= i < RampSize ==> r.blue[i] == CalculateColorValue(c, c.blueScale, i, gammaCorrect))
  }

  /** GammaRamp::from_config. */
  method FromConfig(c: FilterConfig, gammaCorrect: (real, real) -> real) returns (r: GammaRamp)
    ensures IsRampFor(r, c, gammaCorrect)
  {
    var red := new int[RampSize];
    var green := new int[RampSize];
    var blue := new int[RampSize];
    for i := 0 to RampSize
      invariant forall j :: 0 <= j < i ==> red[j] == CalculateColorValue(c, c.redScale, j, gammaCorrect)
      invariant forall j :: 0 <= j < i ==> green[j] == CalculateColorValue(c, c.greenScale, j, gammaCorrect)
      invariant forall j :: 0 <= j < i ==> blue[j] == CalculateColorValue(c, c.blueScale, j, gammaCorrect)
    {
      red[i] := CalculateColorValue(c, c.redScale, i, gammaCorrect);
      green[i] := CalculateColorValue(c, c.greenScale, i, gammaCorrect);
      blue[i] := CalculateColorValue(c, c.blueScale, i, gammaCorrect);
    }
    r := GammaRamp(red[..], green[..], blue[..]);
  }

  /** The ramp from_config gives as a value. */
  function RampFor(c: FilterConfig, gammaCorrect: (real, real) -> real): (r: GammaRamp)
    ensures IsRampFor(r, c, gammaCorrect)
  {
    GammaRamp(seq(RampSize, i requires 0 <= i < RampSize => CalculateColorValue(c, c.redScale, i, gammaCorrect)),
              seq(RampSize, i requires 0 <= i < RampSize => CalculateColorValue(c, c.greenScale, i, gammaCorrect)),
              seq(RampSize, i requires 0 <= i < RampSize => CalculateColorValue(c, c.blueScale, i, gammaCorrect)))
  }

  /** Every entry of a configured ramp is a WORD. */
  lemma {:induction false} RampEntriesAreWords(r: GammaRamp, c: FilterConfig, gammaCorrect: (real, real) -> real)
    requires IsRampFor(r, c, gammaCorrect)
    ensures forall i :: 0 <= i < RampSize ==> 0 <= r.red[i] <= MaxWord && 0 <= r.green[i] <= MaxWord && 0 <= r.blue[i] <= MaxWord
  {
    forall i | 0 <= i < RampSize
      ensures 0 <= r.red[i] <= MaxWord && 0 <= r.green[i] <= MaxWord && 0 <= r.blue[i] <= MaxWord
    {
      assert r.red[i] == CalculateColorValue(c, c.redScale, i, gammaCorrect);
      assert r.green[i] == CalculateColorValue(c, c.greenScale, i, gammaCorrect);
      assert r.blue[i] == CalculateColorValue(c, c.blueScale, i, gammaCorrect);
    }
  }

  /**
   * With an identity gamma correction the default configuration gives the
   * linear ramp, so entry 128 is 32896, between 30000 and 35000.
   */
  lemma {:induction false} DefaultConfigRampIsLinear(r: GammaRamp, gammaCorrect: (real, real) -> real)
    requires IsRampFor(r, DefaultConfig, gammaCorrect)
    requires forall x :: 0.0 <= x <= 1.0 ==> gammaCorrect(x, 1.0) == x
    ensures IsLinearRamp(r)
    ensures 30000 < r.red[128] < 35000
  {
    forall i | 0 <= i < RampSize
      ensures r.red[i] == 257 * i && r.green[i] == 257 * i && r.blue[i] == 257 * i
    {
      NeutralColorValue(i, gammaCorrect);
    }
  }

  /** The message for a device whose ramp could not be written or read. */
  function DeviceError(device: string): string
  {
    "无法为显示器 " + device + " 设置 Gamma Ramp"
  }

  /**
   * After apply_filter has handled the displays in `seen` (starting from saved
   * ramps o0 and device ramps d0), of which those in `again` came up more than
   * once: nothing saved before was overwritten; each display that could be
   * read has its earlier ramp saved; and a display that could not be read at
   * first but was written, and then came up again, has the new ramp saved as
   * its "original", since the second pass reads back what the first wrote.
   */
  ghost predicate SavedSoFar(o0: map<string, GammaRamp>, d0: map<string, GammaRamp>,
                             o: map<string, GammaRamp>, seen: set<string>, again: set<string>,
                             writable: set<string>, ramp: GammaRamp)
  {
    && o.Keys == o0.Keys + (seen * d0.Keys) + (again * writable)
    && (forall d :: d in o0 ==> o[d] == o0[d])
    && (forall d :: d in o && d !in o0 && d in d0 ==> o[d] == d0[d])
    && (forall d :: d in o && d !in o0 && d !in d0 ==> o[d] == ramp)
  }

  /** ... and each writable display in `seen` holds the new ramp, every other one its earlier ramp. */
  ghost predicate WrittenSoFar(d0: map<string, GammaRamp>, dr: map<string, GammaRamp>, seen: set<string>,
                               writable: set<string>, ramp: GammaRamp)
  {
    && dr.Keys == d0.Keys + (seen * writable)
    && (forall d :: d in seen && d in writable ==> dr[d] == ramp)
    && (forall d :: d in d0 && !(d in seen && d in writable) ==> dr[d] == d0[d])
  }

  /**
   * Handling one more display keeps both descriptions true; a display handled
   * before joins `again`.
   */
  lemma HandleStep(o0: map<string, GammaRamp>, d0: map<string, GammaRamp>,
                   o: map<string, GammaRamp>, dr: map<string, GammaRamp>,
                   o': map<string, GammaRamp>, dr': map<string, GammaRamp>,
                   seen: set<string>, again: set<string>, writable: set<string>, ramp: GammaRamp, device: string)
    requires again <= seen
    requires SavedSoFar(o0, d0, o, seen, again, writable, ramp) && WrittenSoFar(d0, dr, seen, writable, ramp)
    requires o' == (if device in o || device !in dr then o else o[device := dr[device]])
    requires device in writable ==> dr' == dr[device := ramp]
    requires device !in writable ==> dr' == dr
    ensures SavedSoFar(o0, d0, o', seen + {device}, if device in seen then again + {device} else again, writable, ramp)
    ensures WrittenSoFar(d0, dr', seen + {device}, writable, ramp)
  {
    WriteStep(d0, dr, dr', seen, writable, ramp, device);
    if device in seen {
      SaveRepeat(o0, d0, o, dr, o', seen, again, writable, ramp, device);
    } else {
      SaveFirst(o0, d0, o, dr, o', seen, again, writable, ramp, device);
    }
  }

  /** Writing one display keeps the description of the written ramps. */
  lemma WriteStep(d0: map<string, GammaRamp>, dr: map<string, GammaRamp>, dr': map<string, GammaRamp>,
                  seen: set<string>, writable: set<string>, ramp: GammaRamp, device: string)
    requires WrittenSoFar(d0, dr, seen, writable, ramp)
    requires device in writable ==> dr' == dr[device := ramp]
    requires device !in writable ==> dr' == dr
    ensures WrittenSoFar(d0, dr', seen + {device}, writable, ramp)
  {
    assert forall d :: d in dr'.Keys <==> d in d0.Keys || d in (seen + {device}) * writable;
  }

  /** The first pass over a display saves its ramp iff it has none saved and can be read. */
  lemma SaveFirst(o0: map<string, GammaRamp>, d0: map<string, GammaRamp>,
                  o: map<string, GammaRamp>, dr: map<string, GammaRamp>, o': map<string, GammaRamp>,
                  seen: set<string>, again: set<string>, writable: set<string>, ramp: GammaRamp, device: string)
    requires again <= seen && device !in seen
    requires SavedSoFar(o0, d0, o, seen, again, writable, ramp) && WrittenSoFar(d0, dr, seen, writable, ramp)
    requires o' == (if device in o || device !in dr then o else o[device := dr[device]])
    ensures SavedSoFar(o0, d0, o', seen + {device}, again, writable, ramp)
  {
    assert device in dr <==> device in d0;
    assert device in o <==> device in o0;
    assert forall d :: d in o'.Keys <==> d in o0.Keys || d in (seen + {device}) * d0.Keys || d in again * writable;
  }

  /**
   * A later pass over a display saves nothing, except for one that had no
   * saved ramp and could not be read but was written: it now saves the new ramp.
   */
  lemma SaveRepeat(o0: map<string, GammaRamp>, d0: map<string, GammaRamp>,
                   o: map<string, GammaRamp>, dr: map<string, GammaRamp>, o': map<string, GammaRamp>,
                   seen: set<string>, again: set<string>, writable: set<string>, ramp: GammaRamp, device: string)
    requires again <= seen && device in seen
    requires SavedSoFar(o0, d0, o, seen, again, writable, ramp) && WrittenSoFar(d0, dr, seen, writable, ramp)
    requires o' == (if device in o || device !in dr then o else o[device := dr[device]])
    ensures SavedSoFar(o0, d0, o', seen, again + {device}, writable, ramp)
  {
    if device !in o {
      assert device !in d0 && device !in o0;
      assert device in dr <==> device in writable;
    }
    assert forall d :: d in o'.Keys <==> d in o0.Keys || d in seen * d0.Keys || d in (again + {device}) * writable;
  }

  /** The displays that occur more than once in the list. */
  function Repeated(monitors: seq<string>): set<string>
  {
    set d | d in monitors && multiset(monitors)[d] >= 2
  }

  /** One more display in the list: it becomes repeated iff it was listed already. */
  lemma RepeatedSnoc(s: seq<string>, x: string)
    ensures Repeated(s + [x]) == Repeated(s) + (if x in s then {x} else {})
    ensures (set d | d in s + [x]) == (set d | d in s) + {x}
  {
    assert multiset(s + [x]) == multiset(s) + multiset{x};
    assert x in s <==> multiset(s)[x] >= 1;
    assert forall d :: d in s + [x] <==> d in s || d == x;
  }

  /** After the displays of `prefix`: what the saved and written ramps and the failure flag are. */
  ghost predicate Progress(o0: map<string, GammaRamp>, d0: map<string, GammaRamp>,
                           o: map<string, GammaRamp>, dr: map<string, GammaRamp>,
                           prefix: seq<string>, failed: bool, writable: set<string>, ramp: GammaRamp)
  {
    && SavedSoFar(o0, d0, o, (set d | d in prefix), Repeated(prefix), writable, ramp)
    && WrittenSoFar(d0, dr, (set d | d in prefix), writable, ramp)
    && (failed <==> exists d :: d in prefix && d !in writable)
  }

  /** Handling one more display extends the progress to the longer prefix. */
  lemma ProgressStep(o0: map<string, GammaRamp>, d0: map<string, GammaRamp>,
                     o: map<string, GammaRamp>, dr: map<string, GammaRamp>,
                     o': map<string, GammaRamp>, dr': map<string, GammaRamp>,
                     prefix: seq<string>, device: string, failed: bool, failed': bool,
                     writable: set<string>, ramp: GammaRamp)
    requires Progress(o0, d0, o, dr, prefix, failed, writable, ramp)
    requires o' == (if device in o || device !in dr then o else o[device := dr[device]])
    requires device in writable ==> dr' == dr[device := ramp]
    requires device !in writable ==> dr' == dr
    requires failed' == (failed || device !in writable)
    ensures Progress(o0, d0, o', dr', prefix + [device], failed', writable, ramp)
  {
    var seen := set d | d in prefix;
    var again := Repeated(prefix);
    RepeatedSnoc(prefix, device);
    assert again <= seen;
    HandleStep(o0, d0, o, dr, o', dr', seen, again, writable, ramp, device);
    assert seen + {device} == set d | d in prefix + [device];
    assert (if device in seen then again + {device} else again) == Repeated(prefix + [device]);
    assert (exists d :: d in prefix + [device] && d !in writable) <==> failed' by {
      assert forall d :: d in prefix + [device] <==> d in prefix || d == device;
    }
  }

  /** The progress over the whole list, in the terms of WriteAll's contract. */
  lemma ProgressDone(o0: map<string, GammaRamp>, d0: map<string, GammaRamp>,
                     o: map<string, GammaRamp>, dr: map<string, GammaRamp>,
                     monitors: seq<string>, failed: bool, writable: set<string>, ramp: GammaRamp)
    requires Progress(o0, d0, o, dr, monitors, failed, writable, ramp)
    ensures failed <==> exists d :: d in monitors && d !in writable
    ensures o.Keys == o0.Keys + ((set d | d in monitors) * d0.Keys) + (Repeated(monitors) * writable)
    ensures forall d :: d in o0 ==> o[d] == o0[d]
    ensures forall d :: d in o && d !in o0 ==> o[d] == if d in d0 then d0[d] else ramp
    ensures dr.Keys == d0.Keys + ((set d | d in monitors) * writable)
    ensures forall d :: d in monitors && d in writable ==> dr[d] == ramp
    ensures forall d :: d in d0 && !(d in monitors && d in writable) ==> dr[d] == d0[d]
  {
  }

  /** GammaRampController: the original ramp of each display it has changed. */
  class GammaRampController {
    var originalRamps: map<string, GammaRamp>
    var deviceRamps: map<string, GammaRamp>

    constructor (displays: map<string, GammaRamp>)
      ensures originalRamps == map[] && deviceRamps == displays
    {
      originalRamps := map[];
      deviceRamps := displays;
    }

    /** set_ramp_for_monitor. */
    method SetRamp(ramp: GammaRamp, device: string, writable: set<string>) returns (r: Result<(), string>)
      modifies this
      ensures originalRamps == old(originalRamps)
      ensures device in writable ==> r.Ok? && deviceRamps == old(deviceRamps)[device := ramp]
      ensures device !in writable ==> r == Err(DeviceError(device)) && deviceRamps == old(deviceRamps)
    {
      if device !in writable {
        return Err(DeviceError(device));
      }
      deviceRamps := deviceRamps[device := ramp];
      return Ok(());
    }

    /**
     * apply_filter_to_monitor: an invalid configuration is refused before
     * anything is recorded; the device's original ramp is saved the first time
     * only (an unreadable device is refused); then the configured ramp is written.
     */
    method ApplyFilterToMonitor(c: FilterConfig, device: string, writable: set<string>,
                                gammaCorrect: (real, real) -> real) returns (r: Result<(), string>)
      modifies this
      ensures Validate(c).Err? ==> r == Validate(c) && originalRamps == old(originalRamps) && deviceRamps == old(deviceRamps)
      ensures Validate(c).Ok? && device !in old(originalRamps) && device !in old(deviceRamps) ==>
        r.Err? && originalRamps == old(originalRamps) && deviceRamps == old(deviceRamps)
      ensures Validate(c).Ok? && (device in old(originalRamps) || device in old(deviceRamps)) ==>
        && originalRamps == (if device in old(originalRamps) then old(originalRamps)
                             else old(originalRamps)[device := old(deviceRamps)[device]])
        && (device in writable ==> r.Ok? && deviceRamps == old(deviceRamps)[device := RampFor(c, gammaCorrect)])
        && (device !in writable ==> r.Err? && deviceRamps == old(deviceRamps))
      ensures forall d :: d in old(originalRamps) ==> d in originalRamps && originalRamps[d] == old(originalRamps)[d]
    {
      var valid := Validate(c);
      if valid.Err? {
        return valid;
      }
      if device !in originalRamps {
        if device !in deviceRamps {
          return Err(DeviceError(device));
        }
        originalRamps := originalRamps[device := deviceRamps[device]];
      }
      var ramp := FromConfig(c, gammaCorrect);
      RampForUnique(ramp, c, gammaCorrect);
      r := SetRamp(ramp, device, writable);
    }

    /** One display of apply_filter: save its original ramp if it has none saved and can be read, then write. */
    method SaveAndWrite(c: FilterConfig, device: string, writable: set<string>,
                        gammaCorrect: (real, real) -> real) returns (r: Result<(), string>)
      modifies this
      ensures originalRamps == (if device in old(originalRamps) || device !in old(deviceRamps) then old(originalRamps)
                                else old(originalRamps)[device := old(deviceRamps)[device]])
      ensures device in writable ==> r.Ok? && deviceRamps == old(deviceRamps)[device := RampFor(c, gammaCorrect)]
      ensures device !in writable ==> r.Err? && deviceRamps == old(deviceRamps)
    {
      if device !in originalRamps && device in deviceRamps {
        originalRamps := originalRamps[device := deviceRamps[device]];
      }
      var ramp := FromConfig(c, gammaCorrect);
      RampForUnique(ramp, c, gammaCorrect);
      r := SetRamp(ramp, device, writable);
    }

    /**
     * The loop of apply_filter over the displays; `failed` says whether some
     * write failed. A display may come up more than once (the enumeration
     * lists an adapter once per monitor it drives).
     */
    method WriteAll(c: FilterConfig, monitors: seq<string>, writable: set<string>,
                    gammaCorrect: (real, real) -> real) returns (failed: bool, errors: string)
      modifies this
      ensures failed <==> exists d :: d in monitors && d !in writable
      ensures originalRamps.Keys == old(originalRamps).Keys + ((set d | d in monitors) * old(deviceRamps).Keys)
                                    + (Repeated(monitors) * writable)
      ensures forall d :: d in old(originalRamps) ==> originalRamps[d] == old(originalRamps)[d]
      ensures forall d :: d in originalRamps && d !in old(originalRamps) ==>
        originalRamps[d] == if d in old(deviceRamps) then old(deviceRamps)[d] else RampFor(c, gammaCorrect)
      ensures deviceRamps.Keys == old(deviceRamps).Keys + ((set d | d in monitors) * writable)
      ensures forall d :: d in monitors && d in writable ==> deviceRamps[d] == RampFor(c, gammaCorrect)
      ensures forall d :: d in old(deviceRamps) && !(d in monitors && d in writable) ==> deviceRamps[d] == old(deviceRamps)[d]
    {
      failed := false;
      errors := "";
      for k := 0 to |monitors|
        invariant Progress(old(originalRamps), old(deviceRamps), originalRamps, deviceRamps, monitors[..k],
                           failed, writable, RampFor(c, gammaCorrect))
      {
        var device := monitors[k];
        ghost var o, dr, failed0 := originalRamps, deviceRamps, failed;
        var result := SaveAndWrite(c, device, writable, gammaCorrect);
        if result.Err? {
          failed := true;
          errors := errors + result.error + "; ";
        }
        assert monitors[..k + 1] == monitors[..k] + [device];
        ProgressStep(old(originalRamps), old(deviceRamps), o, dr, originalRamps, deviceRamps,
                     monitors[..k], device, failed0, failed, writable, RampFor(c, gammaCorrect));
      }
      assert monitors[..|monitors|] == monitors;
      ProgressDone(old(originalRamps), old(deviceRamps), originalRamps, deviceRamps, monitors,
                   failed, writable, RampFor(c, gammaCorrect));
    }

    /**
     * apply_filter: the configuration is checked first and an empty display
     * list refused; then for each display its original ramp is saved the first
     * time only (an unreadable display is skipped with a warning) and the
     * configured ramp written. A failed write is collected and the loop goes on;
     * the call fails iff some write failed. A display listed twice that could
     * not be read at first but was written gets the new ramp saved on its
     * second pass.
     */
    method ApplyFilter(c: FilterConfig, monitors: seq<string>, writable: set<string>,
                       gammaCorrect: (real, real) -> real) returns (r: Result<(), string>)
      modifies this
      ensures Validate(c).Err? ==> r == Validate(c) && originalRamps == old(originalRamps) && deviceRamps == old(deviceRamps)
      ensures Validate(c).Ok? && monitors == [] ==> r.Err? && originalRamps == old(originalRamps) && deviceRamps == old(deviceRamps)
      ensures Validate(c).Ok? && monitors != [] ==>
        && (r.Ok? <==> forall d :: d in monitors ==> d in writable)
        && originalRamps.Keys == old(originalRamps).Keys + ((set d | d in monitors) * old(deviceRamps).Keys)
                                 + (Repeated(monitors) * writable)
        && (forall d :: d in originalRamps && d !in old(originalRamps) ==>
              originalRamps[d] == if d in old(deviceRamps) then old(deviceRamps)[d] else RampFor(c, gammaCorrect))
        && deviceRamps.Keys == old(deviceRamps).Keys + ((set d | d in monitors) * writable)
        && (forall d :: d in monitors && d in writable ==> deviceRamps[d] == RampFor(c, gammaCorrect))
        && (forall d :: d in old(deviceRamps) && !(d in monitors && d in writable) ==> deviceRamps[d] == old(deviceRamps)[d])
      ensures forall d :: d in old(originalRamps) ==> d in originalRamps && originalRamps[d] == old(originalRamps)[d]
    {
      var valid := Validate(c);
      if valid.Err? {
        return valid;
      }
      if monitors == [] {
        return Err("未找到任何显示器");
      }
      var failed, errors := WriteAll(c, monitors, writable, gammaCorrect);
      if failed {
        return Err("应用滤镜失败: " + errors);
      }
      return Ok(());
    }

    /**
     * reset: every saved display is written back in the map's own order, a
     * failure is collected and the others still run; the saved ramps are
     * forgotten whatever happened.
     */
    method Reset(writable: set<string>) returns (r: Result<(), string>)
      modifies this
      ensures originalRamps == map[]
      ensures r.Ok? <==> old(originalRamps).Keys <= writable
      ensures deviceRamps.Keys == old(deviceRamps).Keys + (old(originalRamps).Keys * writable)
      ensures forall d :: d in old(originalRamps) && d in writable ==> deviceRamps[d] == old(originalRamps)[d]
      ensures forall d :: d in old(deviceRamps) && !(d in old(originalRamps) && d in writable) ==>
        deviceRamps[d] == old(deviceRamps)[d]
    {
      var remaining := originalRamps.Keys;
      var failed := false;
      var errors := "";
      while remaining != {}
        invariant remaining <= originalRamps.Keys && originalRamps == old(originalRamps)
        invariant failed <==> exists d :: d in originalRamps && d !in remaining && d !in writable
        invariant deviceRamps.Keys == old(deviceRamps).Keys + ((originalRamps.Keys - remaining) * writable)
        invariant forall d :: d in originalRamps && d !in remaining && d in writable ==> deviceRamps[d] == originalRamps[d]
        invariant forall d :: d in old(deviceRamps) && !(d in originalRamps && d !in remaining && d in writable) ==>
          deviceRamps[d] == old(deviceRamps)[d]
        decreases |remaining|
      {
        var device :| device in remaining;
        remaining := remaining - {device};
        var result := SetRamp(originalRamps[device], device, writable);
        if result.Err? {
          failed := true;
          errors := errors + "无法重置显示器 " + device + ": " + result.error + "; ";
        }
      }
      originalRamps := map[];
      if failed {
        return Err(errors);
      }
      return Ok(());
    }

    /** reset_monitor: the saved original if there is one, else the linear ramp. */
    method ResetMonitor(device: string, writable: set<string>) returns (r: Result<(), string>)
      modifies this
      ensures originalRamps == old(originalRamps)
      ensures r.Ok? <==> device in writable
      ensures device in writable ==>
        deviceRamps == old(deviceRamps)[device := if device in originalRamps then originalRamps[device] else LinearRamp()]
      ensures device !in writable ==> deviceRamps == old(deviceRamps)
    {
      if device in originalRamps {
        r := SetRamp(originalRamps[device], device, writable);
      } else {
        var linear := DefaultRamp();
        LinearRampUnique(linear);
        r := SetRamp(linear, device, writable);
      }
    }
  }

  /**
   * An adapter driving two monitors is listed twice. If it could not be read
   * but can be written, apply_filter saves as its "original" the ramp it has
   * just written, so a later reset writes the filter back instead of undoing it.
   */
  method RepeatedAdapterSavesNewRamp(gammaCorrect: (real, real) -> real) returns (saved: map<string, GammaRamp>)
    ensures saved == map["DISPLAY1" := RampFor(DefaultConfig, gammaCorrect)]
  {
    var ctl := new GammaRampController(map[]);
    var monitors := ["DISPLAY1", "DISPLAY1"];
    assert multiset(monitors)["DISPLAY1"] == 2;
    assert Repeated(monitors) == {"DISPLAY1"};
    assert (set d | d in monitors) == {"DISPLAY1"};
    var r := ctl.ApplyFilter(DefaultConfig, monitors, {"DISPLAY1"}, gammaCorrect);
    saved := ctl.originalRamps;
  }

  /** The ramp from_config fills is the one `RampFor` describes. */
  lemma {:induction false} RampForUnique(r: GammaRamp, c: FilterConfig, gammaCorrect: (real, real) -> real)
    requires IsRampFor(r, c, gammaCorrect)
    ensures r == RampFor(c, gammaCorrect)
  {
    var f := RampFor(c, gammaCorrect);
    assert r.red == f.red;
    assert r.green == f.green;
    assert r.blue == f.blue;
  }
}
