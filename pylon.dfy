/**
 * An abstract stand-in for the vendor camera SDK the wrapper is written against: a transport
 * layer that enumerates reachable devices, a camera handle with its open and grabbing flags,
 * its buffer count and the parameter registers the wrapper writes, and an image converter.
 * Only what the wrapper observes is modelled; the grab outcome is chosen nondeterministically.
 */
module Pylon {

  /** One enumerated device: its IP address and its user-defined name. */
  datatype DeviceInfo = DeviceInfo(ip: string, userName: string)

  /** An opaque frame in the sensor's native format. */
  datatype RawFrame = RawFrame(data: seq<int>)

  /** The outcome of one retrieve: a frame, or a grab the device reports as failed. */
  datatype GrabResult = Grabbed(frame: RawFrame) | GrabFailed

  /** One retrieve call as the device saw it: the timeout it was given and what it returned. */
  datatype Retrieval = Retrieval(timeout: int, result: GrabResult)

  /** The values of the GainAuto and ExposureAuto enumerations. */
  datatype AutoMode = Off | Once | Continuous

  /** The parameter registers the wrapper writes. */
  datatype Registers = Registers(
    gamma: real,
    gainAuto: AutoMode,
    gain: int,
    exposureAuto: AutoMode,
    exposureTime: real,
    frameRateEnable: bool,
    frameRate: real)

  datatype PixelType = PixelTypeUndefined | BGR8packed
  datatype BitAlignment = LsbAligned | MsbAligned

  /** An image handed to the caller: the empty array, or a converted frame. */
  datatype Image = Empty | Converted(frame: RawFrame, format: PixelType, alignment: BitAlignment)

  /** The transport layer: the devices currently reachable, and how often they were enumerated. */
  class TlFactory {
    var devices: seq<DeviceInfo>
    ghost var enumerations: nat

    constructor (reachable: seq<DeviceInfo>)
      ensures devices == reachable && enumerations == 0
    {
      devices := reachable;
      enumerations := 0;
    }

    method EnumerateDevices() returns (found: seq<DeviceInfo>)
      modifies this`enumerations
      ensures found == devices
      ensures enumerations == old(enumerations) + 1
    {
      found := devices;
      enumerations := enumerations + 1;
    }
  }

  /** A camera handle bound to one device. The ghost counters record the calls made on it. */
  class InstantCamera {
    const device: DeviceInfo
    var isOpen: bool
    var isGrabbing: bool
    var maxNumBuffer: int
    var regs: Registers
    ghost var opens: nat
    ghost var starts: nat
    ghost var stops: nat
    ghost var retrievals: seq<Retrieval>
    ghost var released: nat

    /** Binds a handle to `info`; the device's current register values are not known. */
    constructor (info: DeviceInfo)
      ensures device == info
      ensures !isOpen && !isGrabbing && maxNumBuffer == 10
      ensures opens == 0 && starts == 0 && stops == 0 && retrievals == [] && released == 0
    {
      device := info;
      isOpen, isGrabbing := false, false;
      maxNumBuffer := 10;
      regs := Registers(1.0, Continuous, 0, Continuous, 0.0, false, 0.0);
      opens, starts, stops, retrievals, released := 0, 0, 0, [], 0;
    }

    method Open()
      modifies this`isOpen, this`opens
      ensures isOpen && opens == old(opens) + 1
    {
      isOpen := true;
      opens := opens + 1;
    }

    method Close()
      modifies this`isOpen
      ensures !isOpen
    {
      isOpen := false;
    }

    method StartGrabbing()
      modifies this`isGrabbing, this`starts
      ensures isGrabbing && starts == old(starts) + 1
    {
      isGrabbing := true;
      starts := starts + 1;
    }

    method StopGrabbing()
      modifies this`isGrabbing, this`stops
      ensures !isGrabbing && stops == old(stops) + 1
    {
      isGrabbing := false;
      stops := stops + 1;
    }

    /** Waits up to `timeout` for one frame; whether a frame arrives is up to the device. */
    method RetrieveResult(timeout: int) returns (res: GrabResult)
      requires isGrabbing
      modifies this`retrievals
      ensures retrievals == old(retrievals) + [Retrieval(timeout, res)]
    {
      var succeeded: bool :| true;
      if succeeded {
        var frame: RawFrame :| true;
        res := Grabbed(frame);
      } else {
        res := GrabFailed;
      }
      retrievals := retrievals + [Retrieval(timeout, res)];
    }

    /** Hands the buffer of a grab result back to the device. */
    method Release(res: GrabResult)
      modifies this`released
      ensures released == old(released) + 1
    {
      released := released + 1;
    }
  }

  /** Converts native frames to the configured output format. */
  class ImageFormatConverter {
    var outputPixelFormat: PixelType
    var outputBitAlignment: BitAlignment

    constructor ()
      ensures outputPixelFormat == PixelTypeUndefined && outputBitAlignment == LsbAligned
    {
      outputPixelFormat := PixelTypeUndefined;
      outputBitAlignment := LsbAligned;
    }

    function Convert(frame: RawFrame): Image
      reads this
    {
      Converted(frame, outputPixelFormat, outputBitAlignment)
    }
  }
}
