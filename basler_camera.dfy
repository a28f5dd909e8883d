/**
 * The camera session: configuration export and import, device discovery by IP address or
 * user-defined name, parameter application, and the open / grab / close state machine.
 */
module Camera {
  import opened Outcomes
  import opened Config
  import opened Pylon

  // ---------------------------------------------------------------- device discovery

  /** What a connect call looks for: a device with this IP address, or with this name. */
  datatype Selector = ByIp(ip: Value) | ByName(name: string)

  /**
   * A device matches an IP selector when its address equals the stored `ip_address` value,
   * so a stored address that is not a string matches no device.
   */
  predicate Matches(d: DeviceInfo, sel: Selector): (m: bool)
    ensures sel.ByIp? && !sel.ip.Str? ==> !m
    ensures m && sel.ByIp? ==> sel.ip.s == d.ip
    ensures m && sel.ByName? ==> d.userName == sel.name
  {
    match sel
    case ByIp(v) => Str(d.ip) == v
    case ByName(n) => d.userName == n
  }

  /** The index of the first enumerated device that matches, if any. */
  function FirstMatch(devices: seq<DeviceInfo>, sel: Selector): (r: Option<nat>)
    ensures r.Some? ==> r.value < |devices| && Matches(devices[r.value], sel)
    ensures r.Some? ==> forall j :: 0 <= j < r.value ==> !Matches(devices[j], sel)
    ensures r.None? <==> forall j :: 0 <= j < |devices| ==> !Matches(devices[j], sel)
  {
    if devices == [] then None
    else if Matches(devices[0], sel) then Some(0)
    else match FirstMatch(devices[1..], sel)
      case None => None
      case Some(k) => Some(k + 1)
  }

  /** The scan of the enumerated devices that stops at the first match. */
  method FindDevice(devices: seq<DeviceInfo>, sel: Selector) returns (success: bool, index: nat)
    ensures success <==> FirstMatch(devices, sel).Some?
    ensures success ==> index == FirstMatch(devices, sel).value
  {
    success, index := false, 0;
    while index < |devices|
      invariant index <= |devices|
      invariant !success
      invariant forall j :: 0 <= j < index ==> !Matches(devices[j], sel)
    {
      success := Matches(devices[index], sel);
      if success {
        return;
      }
      index := index + 1;
    }
  }

  // ---------------------------------------------------------------- parameter policy

  /**
   * The registers after set_parameters reads the four stored values, and whether it raised.
   * The writes happen in the source's order; a value that is not a number raises at the
   * point where it is used, after the writes that precede it.
   */
  function ApplyParameters(regs: Registers, gamma: Value, gain: Value, exposure: Value, frameRate: Value): (r: (Registers, Result<()>))
    ensures r.1 == Err(NotNumeric("gamma")) ==> r.0 == regs
    ensures r.1.Err? && r.1 != Err(NotNumeric("gamma")) ==> r.0.gainAuto == Off
    ensures r.1 == Err(NotNumeric("gain")) ==> r.0.gain == regs.gain
    ensures r.1.Err? ==> r.0.frameRateEnable == regs.frameRateEnable && r.0.frameRate == regs.frameRate
  {
    match AsReal(gamma)
    case None => (regs, Err(NotNumeric("gamma")))
    case Some(g) =>
      var r1 := regs.(gamma := g, gainAuto := Off);
      match AsInt(gain)
      case None => (r1, Err(NotNumeric("gain")))
      case Some(n) =>
        var r2 := r1.(gain := n);
        match AsReal(exposure)
        case None => (r2, Err(NotNumeric("exposure_time")))
        case Some(e) =>
          var r3 := if e > 0.0 then r2.(exposureAuto := Off, exposureTime := e)
                    else r2.(exposureAuto := Continuous);
          match AsReal(frameRate)
          case None => (r3, Err(NotNumeric("frame_rate")))
          case Some(f) =>
            var r4 := if f > 0.0 then r3.(frameRateEnable := true, frameRate := f)
                      else r3.(frameRateEnable := false);
            (r4, Ok(()))
  }

  /**
   * With numeric values: gain auto is off and the gain is the truncated value; exposure is
   * manual at the given time exactly when the time is positive, otherwise continuous auto
   * with the time untouched; the frame-rate limiter is on at the given rate exactly when the
   * rate is positive, otherwise off with the rate untouched.
   */
  lemma ParameterPolicy(regs: Registers, gamma: Value, gain: Value, exposure: Value, frameRate: Value)
    requires AsReal(gamma).Some? && AsReal(gain).Some? && AsReal(exposure).Some? && AsReal(frameRate).Some?
    ensures var (r, out) := ApplyParameters(regs, gamma, gain, exposure, frameRate);
      var e, f := AsReal(exposure).value, AsReal(frameRate).value;
      && out == Ok(())
      && r.gamma == AsReal(gamma).value
      && r.gainAuto == Off
      && r.gain == Trunc(AsReal(gain).value)
      && (r.exposureAuto == Off <==> e > 0.0)
      && (r.exposureAuto == Continuous <==> e <= 0.0)
      && r.exposureTime == (if e > 0.0 then e else regs.exposureTime)
      && (r.frameRateEnable <==> f > 0.0)
      && r.frameRate == (if f > 0.0 then f else regs.frameRate)
  {
  }

  /** set_parameters raises exactly when one of the four values is a string. */
  lemma ParametersRaiseIffNotNumeric(regs: Registers, gamma: Value, gain: Value, exposure: Value, frameRate: Value)
    ensures ApplyParameters(regs, gamma, gain, exposure, frameRate).1.Err? <==>
      (gamma.Str? || gain.Str? || exposure.Str? || frameRate.Str?)
  {
  }

  /** Applying the same values twice leaves the registers as applying them once. */
  lemma ApplyParametersIdempotent(regs: Registers, gamma: Value, gain: Value, exposure: Value, frameRate: Value)
    ensures var once := ApplyParameters(regs, gamma, gain, exposure, frameRate).0;
      ApplyParameters(once, gamma, gain, exposure, frameRate).0 == once
  {
  }

  /** The timeout get_image passes to the device: `grab_timeout` when the argument is not positive. */
  function EffectiveTimeout(timeOut: int, grabTimeout: Value): (r: Option<int>)
    ensures timeOut > 0 ==> r == Some(timeOut)
    ensures r.None? <==> timeOut <= 0 && grabTimeout.Str?
    ensures timeOut <= 0 && r.Some? ==> r.value == Trunc(AsReal(grabTimeout).value)
  {
    if timeOut <= 0 then AsInt(grabTimeout) else Some(timeOut)
  }

  // ---------------------------------------------------------------- the session

  class BaslerCamera {
    var camera: InstantCamera?
    var converter: ImageFormatConverter?
    var isConnected: bool
    var isOpened: bool
    /** The persistable attributes by name (`ip_address`, `gamma`, `gain`, ...). */
    var attrs: map<string, Value>
    const configAttrs: seq<string>

    /** The bound camera as a frame: empty before a device is bound. */
    ghost function Bound(): set<InstantCamera>
      reads this
    {
      if camera == null then {} else {camera}
    }

    /** The session invariant. */
    ghost predicate Valid()
      reads this, camera
    {
      && configAttrs == ConfigAttrs
      && Declared(attrs, configAttrs)
      && (isOpened ==> isConnected)
      && (isConnected <==> camera != null)
      && (isOpened ==> camera != null && camera.isOpen && converter != null)
    }

    constructor ()
      ensures Valid()
      ensures camera == null && converter == null && !isConnected && !isOpened
      ensures attrs == DefaultAttrs
    {
      camera := null;
      converter := null;
      isConnected := false;
      isOpened := false;
      attrs := DefaultAttrs;
      configAttrs := ConfigAttrs;
    }

    // ---------------------------------------------------------- configuration

    /** The declared attributes as a mapping; raises on the first declared name that is missing. */
    method GetAsDict() returns (r: Result<map<string, Value>>)
      ensures r.Ok? <==> Declared(attrs, configAttrs)
      ensures Valid() ==> r.Ok?
      ensures r.Ok? ==> r.value == Exported(attrs, configAttrs)
      ensures r.Err? ==> exists i :: (0 <= i < |configAttrs| && r.error == MissingAttribute(configAttrs[i])
        && configAttrs[i] !in attrs && forall j :: 0 <= j < i ==> configAttrs[j] in attrs)
    {
      var ret: map<string, Value> := map[];
      for i := 0 to |configAttrs|
        invariant forall j :: 0 <= j < i ==> configAttrs[j] in attrs
        invariant ret == map k | k in configAttrs[..i] && k in attrs :: attrs[k]
      {
        var key := configAttrs[i];
        if key in attrs {
          ret := ret[key := attrs[key]];
        } else {
          return Err(MissingAttribute(key));
        }
      }
      assert configAttrs[..|configAttrs|] == configAttrs;
      return Ok(ret);
    }

    /** Overwrites the declared, existing attributes named in `data`; other keys are ignored. */
    method SetFromDict(data: map<string, Value>)
      requires Valid()
      modifies this`attrs
      ensures Valid()
      ensures attrs == Overlay(old(attrs), data, configAttrs)
    {
      var pending := data.Keys;
      while pending != {}
        invariant pending <= data.Keys
        invariant attrs.Keys == old(attrs).Keys
        invariant forall k :: k in attrs ==>
          attrs[k] == if k in data && k !in pending && k in configAttrs then data[k] else old(attrs)[k]
        decreases pending
      {
        var key :| key in pending;
        if key in configAttrs && key in attrs {
          attrs := attrs[key := data[key]];
        }
        pending := pending - {key};
      }
    }

    // ---------------------------------------------------------- parameters

    /** Writes gamma, gain, exposure and frame rate into the bound camera's registers. */
    method SetParameters() returns (r: Result<()>)
      requires Valid() && camera != null
      modifies camera`regs
      ensures Valid()
      ensures (camera.regs, r) == ApplyParameters(old(camera.regs), attrs["gamma"], attrs["gain"],
                                                   attrs["exposure_time"], attrs["frame_rate"])
    {
      var gamma := AsReal(attrs["gamma"]);
      if gamma.None? {
        return Err(NotNumeric("gamma"));
      }
      camera.regs := camera.regs.(gamma := gamma.value);
      camera.regs := camera.regs.(gainAuto := Off);
      var gain := AsInt(attrs["gain"]);
      if gain.None? {
        return Err(NotNumeric("gain"));
      }
      camera.regs := camera.regs.(gain := gain.value);
      var exposure := AsReal(attrs["exposure_time"]);
      if exposure.None? {
        return Err(NotNumeric("exposure_time"));
      }
      if exposure.value > 0.0 {
        camera.regs := camera.regs.(exposureAuto := Off);
        camera.regs := camera.regs.(exposureTime := exposure.value);
      } else {
        camera.regs := camera.regs.(exposureAuto := Continuous);
      }
      var frameRate := AsReal(attrs["frame_rate"]);
      if frameRate.None? {
        return Err(NotNumeric("frame_rate"));
      }
      if frameRate.value > 0.0 {
        camera.regs := camera.regs.(frameRateEnable := true);
        camera.regs := camera.regs.(frameRate := frameRate.value);
      } else {
        camera.regs := camera.regs.(frameRateEnable := false);
      }
      return Ok(());
    }

    // ---------------------------------------------------------- connection

    /**
     * Resets the session, stores a non-empty `ipAddr`, and binds the first enumerated device
     * whose IP address equals the stored one. Raises without enumerating when no address is
     * stored; raises when nothing is enumerated or nothing matches.
     */
    method ConnectByIp(ipAddr: string, tl: TlFactory) returns (r: Result<()>)
      requires Valid()
      modifies this, tl`enumerations
      ensures Valid()
      ensures !isOpened && (r.Ok? <==> isConnected)
      ensures converter == old(converter)
      ensures attrs == if ipAddr != "" then old(attrs)["ip_address" := Str(ipAddr)] else old(attrs)
      ensures attrs["ip_address"] == Str("") ==>
        r == Err(Undefined("IP address")) && tl.enumerations == old(tl.enumerations)
      ensures attrs["ip_address"] != Str("") ==> tl.enumerations == old(tl.enumerations) + 1
      ensures attrs["ip_address"] != Str("") && tl.devices == [] ==> r == Err(NoCameraDetected)
      ensures r.Err? ==> camera == null
      ensures r.Ok? <==> attrs["ip_address"] != Str("") && FirstMatch(tl.devices, ByIp(attrs["ip_address"])).Some?
      ensures r.Err? && attrs["ip_address"] != Str("") && tl.devices != [] ==> r == Err(CameraNotFound)
      ensures r.Ok? ==> (fresh(camera) && camera.maxNumBuffer == 5 && !camera.isOpen && !camera.isGrabbing
        && camera.device == tl.devices[FirstMatch(tl.devices, ByIp(attrs["ip_address"])).value])
    {
      isOpened := false;
      isConnected := false;
      camera := null;
      if ipAddr != "" {
        attrs := attrs["ip_address" := Str(ipAddr)];
      }
      if attrs["ip_address"] != Str("") {
        var devices := tl.EnumerateDevices();
        if |devices| == 0 {
          return Err(NoCameraDetected);
        }
        var success, index := FindDevice(devices, ByIp(attrs["ip_address"]));
        if !success {
          return Err(CameraNotFound);
        }
        camera := new InstantCamera(devices[index]);
        camera.maxNumBuffer := 5;
        isConnected := true;
        r := Ok(());
      } else {
        return Err(Undefined("IP address"));
      }
    }

    /**
     * Resets the session and binds the first enumerated device whose user-defined name is
     * `name`. Raises without enumerating when `name` is empty; raises when nothing is
     * enumerated or nothing matches. The stored IP address is left as it was.
     */
    method ConnectByName(name: string, tl: TlFactory) returns (r: Result<()>)
      requires Valid()
      modifies this, tl`enumerations
      ensures Valid()
      ensures !isOpened && (r.Ok? <==> isConnected)
      ensures converter == old(converter) && attrs == old(attrs)
      ensures name == "" ==> r == Err(Undefined("device name")) && tl.enumerations == old(tl.enumerations)
      ensures name != "" ==> tl.enumerations == old(tl.enumerations) + 1
      ensures name != "" && tl.devices == [] ==> r == Err(NoCameraDetected)
      ensures r.Err? ==> camera == null
      ensures r.Ok? <==> name != "" && FirstMatch(tl.devices, ByName(name)).Some?
      ensures r.Err? && name != "" && tl.devices != [] ==> r == Err(CameraNotFound)
      ensures r.Ok? ==> (fresh(camera) && camera.maxNumBuffer == 5 && !camera.isOpen && !camera.isGrabbing
        && camera.device == tl.devices[FirstMatch(tl.devices, ByName(name)).value]
        && camera.device.userName == name)
    {
      isOpened := false;
      isConnected := false;
      camera := null;
      if name != "" {
        var devices := tl.EnumerateDevices();
        if |devices| == 0 {
          return Err(NoCameraDetected);
        }
        var success, index := FindDevice(devices, ByName(name));
        if !success {
          return Err(CameraNotFound);
        }
        camera := new InstantCamera(devices[index]);
        camera.maxNumBuffer := 5;
        isConnected := true;
        r := Ok(());
      } else {
        return Err(Undefined("device name"));
      }
    }

    /**
     * When isConnected, opens the camera (again, if it is already open), marks the session
     * isOpened and builds a fresh converter to BGR8 packed, MSB aligned. Otherwise does nothing.
     */
    method Open()
      requires Valid()
      modifies this`isOpened, this`converter, Bound()`isOpen, Bound()`opens
      ensures Valid()
      ensures isOpened == isConnected
      ensures isConnected ==> (camera.isOpen && camera.opens == old(camera.opens) + 1
        && fresh(converter) && converter.outputPixelFormat == BGR8packed
        && converter.outputBitAlignment == MsbAligned)
      ensures !isConnected ==> converter == old(converter)
    {
      if isConnected {
        camera.Open();
        isOpened := true;
      }
      if isOpened {
        converter := new ImageFormatConverter();
        converter.outputPixelFormat := BGR8packed;
        converter.outputBitAlignment := MsbAligned;
      }
    }

    // ---------------------------------------------------------- acquisition

    /** Internal: starts streaming when isOpened and not already streaming. */
    method Start()
      requires Valid()
      modifies Bound()`isGrabbing, Bound()`starts
      ensures Valid()
      ensures isOpened ==> (camera.isGrabbing
        && camera.starts == old(camera.starts) + (if old(camera.isGrabbing) then 0 else 1))
      ensures !isOpened && camera != null ==>
        camera.isGrabbing == old(camera.isGrabbing) && camera.starts == old(camera.starts)
    {
      if isOpened {
        if !camera.isGrabbing {
          camera.StartGrabbing();
        }
      }
    }

    /** Internal: stops streaming when isOpened and streaming. */
    method Stop()
      requires Valid()
      modifies Bound()`isGrabbing, Bound()`stops
      ensures Valid()
      ensures isOpened ==> (!camera.isGrabbing
        && camera.stops == old(camera.stops) + (if old(camera.isGrabbing) then 1 else 0))
      ensures !isOpened && camera != null ==>
        camera.isGrabbing == old(camera.isGrabbing) && camera.stops == old(camera.stops)
    {
      if isOpened {
        if camera.isGrabbing {
          camera.StopGrabbing();
        }
      }
    }

    /**
     * What one get_image call on a streaming camera yields, given the retrieve log and the
     * release count before it: when the timeout can be computed there is exactly one more
     * retrieve, with that timeout; a failed grab gives the empty image, a grabbed frame its
     * conversion; the result is released unless converting raised.
     */
    ghost predicate RetrieveOutcome(timeOut: int, before: seq<Retrieval>, releasedBefore: nat, r: Result<Image>): (b: bool)
      reads this, camera, converter
      requires camera != null && attrs.Keys >= {"grab_timeout"}
      ensures b && r.Ok? && r.value != Empty ==>
        |camera.retrievals| > |before| && camera.retrievals[|before|].result.Grabbed?
      ensures b && r.Ok? ==> camera.released == releasedBefore + |camera.retrievals| - |before|
    {
      match EffectiveTimeout(timeOut, attrs["grab_timeout"])
      case None =>
        r == Err(NotNumeric("grab_timeout"))
          && camera.retrievals == before && camera.released == releasedBefore
      case Some(t) =>
        && |camera.retrievals| == |before| + 1
        && camera.retrievals[..|before|] == before
        && var last := camera.retrievals[|before|];
        && last.timeout == t
        && match last.result
           case GrabFailed =>
             r == Ok(Empty) && camera.released == releasedBefore + 1
           case Grabbed(frame) =>
             if converter == null then
               r == Err(NoConverter) && camera.released == releasedBefore
             else
               r == Ok(converter.Convert(frame)) && camera.released == releasedBefore + 1
    }

    /**
     * Retrieves one frame when the camera is streaming; otherwise returns the empty image
     * without retrieving. Never changes whether the camera is streaming.
     */
    method GetImage(timeOut: int) returns (r: Result<Image>)
      requires Valid() && camera != null
      modifies camera`retrievals, camera`released
      ensures Valid()
      ensures camera.isGrabbing == old(camera.isGrabbing)
      ensures !camera.isGrabbing ==>
        r == Ok(Empty) && camera.retrievals == old(camera.retrievals) && camera.released == old(camera.released)
      ensures camera.isGrabbing ==> RetrieveOutcome(timeOut, old(camera.retrievals), old(camera.released), r)
    {
      r := Ok(Empty);
      if camera.isGrabbing {
        var t := timeOut;
        if t <= 0 {
          var grabTimeout := AsInt(attrs["grab_timeout"]);
          if grabTimeout.None? {
            return Err(NotNumeric("grab_timeout"));
          }
          t := grabTimeout.value;
        }
        var res := camera.RetrieveResult(t);
        if res.Grabbed? {
          if converter == null {
            return Err(NoConverter);
          }
          r := Ok(converter.Convert(res.frame));
        }
        camera.Release(res);
      }
    }

    /**
     * Retrieves one frame, starting the stream first when it is not running and stopping it
     * afterwards. When get_image raises, the stream it started is left running.
     */
    method GrabImage(timeOut: int) returns (r: Result<Image>)
      requires Valid() && camera != null
      modifies camera`isGrabbing, camera`starts, camera`stops, camera`retrievals, camera`released
      ensures Valid()
      ensures r.Ok? ==> camera.isGrabbing == old(camera.isGrabbing)
      ensures r.Err? ==> camera.isGrabbing
      ensures camera.starts == old(camera.starts) + (if old(camera.isGrabbing) then 0 else 1)
      ensures camera.stops == old(camera.stops) + (if !old(camera.isGrabbing) && r.Ok? then 1 else 0)
      ensures RetrieveOutcome(timeOut, old(camera.retrievals), old(camera.released), r)
    {
      var stopGrab := false;
      if !camera.isGrabbing {
        camera.StartGrabbing();
        stopGrab := true;
      }
      r := GetImage(timeOut);
      if r.Err? {
        return;
      }
      if stopGrab {
        camera.StopGrabbing();
      }
    }

    /** When isOpened: stops any stream, clears `isOpened` and closes the camera. Otherwise nothing. */
    method Close()
      requires Valid()
      modifies this`isOpened, Bound()`isGrabbing, Bound()`stops, Bound()`isOpen
      ensures Valid()
      ensures !isOpened && isConnected == old(isConnected)
      ensures old(isOpened) ==> (!camera.isGrabbing && !camera.isOpen
        && camera.stops == old(camera.stops) + (if old(camera.isGrabbing) then 1 else 0))
      ensures !old(isOpened) && camera != null ==> (camera.isGrabbing == old(camera.isGrabbing)
        && camera.isOpen == old(camera.isOpen) && camera.stops == old(camera.stops))
    {
      if isOpened {
        if camera.isGrabbing {
          camera.StopGrabbing();
        }
        isOpened := false;
        camera.Close();
      }
    }
  }
}
