/** The camera component (src/components/camera.py): it opens either the
    device itself or a GStreamer pipeline built from its settings, and then
    publishes every frame it reads. Frames are opaque values; OpenCV and the
    device are not modelled. */
module Camera {
  import opened Py
  import opened Components

  /** The device that selects the CSI (nvarguscamerasrc) pipeline. */
  const CsiDevice: string := "/dev/video0"

  /** start() returns True; shutdown() only logs; on_message is the base one. */
  const CameraBehaviour: Behaviour := Behaviour(Returns(true), None, Some(TypeError))

  /** What cv2.VideoCapture is opened on: the device path, or a pipeline string. */
  datatype Source = Device(path: string) | Pipeline(description: string)

  /** The last piece every pipeline ends with: frames go to the application. */
  const Sink: string := " ! appsink"

  /** `_gstreamer_pipeline(device, ...)`: the branch is chosen by the
      component's own device (`selfDevice`), not by the `device` argument,
      which only the USB branch prints. The CSI branch prints capture size,
      frame rate, flip method and output size; the USB branch only the output
      size. Each `%d` is the decimal form of an integer. */
  function GstreamerPipeline(selfDevice: string, device: string, captureWidth: int, captureHeight: int,
                             outputWidth: int, outputHeight: int, framerate: int, flipMethod: int): (r: string)
    ensures EndsWith(r, Sink)
  {
    if selfDevice == CsiDevice then
      var tail := CsiCaps(captureWidth, captureHeight, outputWidth, outputHeight, framerate, flipMethod) + Sink;
      Split(tail[..|tail| - |Sink|], Sink);
      EndsWithAppend(CsiHead, tail, Sink);
      CsiHead + tail
    else
      var tail := UsbCaps(outputWidth, outputHeight) + Sink;
      Split(tail[..|tail| - |Sink|], Sink);
      EndsWithAppend(device, tail, Sink);
      EndsWithAppend(UsbHead, device + tail, Sink);
      UsbHead + (device + tail)
  }

  predicate EndsWith(s: string, suffix: string)
  {
    |s| >= |suffix| && s[|s| - |suffix|..] == suffix
  }

  /** A string keeps its ending when something is put in front of it. */
  lemma EndsWithAppend(a: string, t: string, suffix: string)
    requires EndsWith(t, suffix)
    ensures EndsWith(a + t, suffix)
  {
    assert (a + t)[|a + t| - |suffix|..] == t[|t| - |suffix|..];
  }

  /** What follows nvarguscamerasrc: capture size, frame rate, flip method,
      then the converted output size. */
  function CsiCaps(captureWidth: int, captureHeight: int, outputWidth: int, outputHeight: int,
                   framerate: int, flipMethod: int): string
  {
    " sensor-id=0 ! video/x-raw(memory:NVMM), width=" + DecimalString(captureWidth)
    + ", height=" + DecimalString(captureHeight)
    + ", format=(string)NV12, framerate=(fraction)" + DecimalString(framerate)
    + "/1 ! nvvidconv flip-method=" + DecimalString(flipMethod)
    + " ! nvvidconv ! video/x-raw, width=(int)" + DecimalString(outputWidth)
    + ", height=(int)" + DecimalString(outputHeight)
    + ", format=(string)BGRx ! videoconvert"
  }

  /** What follows the v4l2src device: only the output size. */
  function UsbCaps(outputWidth: int, outputHeight: int): string
  {
    " ! videoconvert ! videoscale ! video/x-raw,width=" + DecimalString(outputWidth)
    + ",height=" + DecimalString(outputHeight)
  }

  /** The two halves of a concatenation can be read back from it. */
  lemma Split(a: string, b: string)
    ensures (a + b)[..|a|] == a && (a + b)[|a|..] == b
  {
  }

  const CsiHead: string := "nvarguscamerasrc"
  const UsbHead: string := "v4l2src device="

  /** The CSI device's pipeline starts with nvarguscamerasrc. */
  lemma CsiPipelineHead(device: string, captureWidth: int, captureHeight: int,
                        outputWidth: int, outputHeight: int, framerate: int, flipMethod: int)
    ensures var r := GstreamerPipeline(CsiDevice, device, captureWidth, captureHeight, outputWidth, outputHeight, framerate, flipMethod);
      |r| >= |CsiHead| && r[..|CsiHead|] == CsiHead
  {
    Split(CsiHead, CsiCaps(captureWidth, captureHeight, outputWidth, outputHeight, framerate, flipMethod) + Sink);
  }

  /** Any other device gets a v4l2src pipeline that names the device
      argument. */
  lemma UsbPipelineHead(selfDevice: string, device: string, captureWidth: int, captureHeight: int,
                        outputWidth: int, outputHeight: int, framerate: int, flipMethod: int)
    requires selfDevice != CsiDevice
    ensures var r := GstreamerPipeline(selfDevice, device, captureWidth, captureHeight, outputWidth, outputHeight, framerate, flipMethod);
      |r| >= |UsbHead| + |device| && r[..|UsbHead|] == UsbHead && r[|UsbHead|..|UsbHead| + |device|] == device
  {
    var tail := UsbCaps(outputWidth, outputHeight) + Sink;
    Split(UsbHead, device + tail);
    Split(device, tail);
  }

  /** A v4l2src pipeline does not start with nvarguscamerasrc. */
  lemma UsbPipelineNotCsi(selfDevice: string, device: string, captureWidth: int, captureHeight: int,
                          outputWidth: int, outputHeight: int, framerate: int, flipMethod: int)
    requires selfDevice != CsiDevice
    ensures var r := GstreamerPipeline(selfDevice, device, captureWidth, captureHeight, outputWidth, outputHeight, framerate, flipMethod);
      !(|r| >= |CsiHead| && r[..|CsiHead|] == CsiHead)
  {
    var r := GstreamerPipeline(selfDevice, device, captureWidth, captureHeight, outputWidth, outputHeight, framerate, flipMethod);
    UsbPipelineHead(selfDevice, device, captureWidth, captureHeight, outputWidth, outputHeight, framerate, flipMethod);
    assert r[0] == UsbHead[0];
  }

  /** A USB camera's pipeline depends only on the device argument and the
      output size: capture size, frame rate and flip method are ignored. */
  lemma UsbIgnoresCaptureSettings(selfDevice: string, device: string, outputWidth: int, outputHeight: int,
                                  w1: int, h1: int, f1: int, m1: int, w2: int, h2: int, f2: int, m2: int)
    requires selfDevice != CsiDevice
    ensures GstreamerPipeline(selfDevice, device, w1, h1, outputWidth, outputHeight, f1, m1)
         == GstreamerPipeline(selfDevice, device, w2, h2, outputWidth, outputHeight, f2, m2)
  {
  }

  /** The CSI pipeline does not print the device argument at all. */
  lemma CsiIgnoresDeviceArgument(device1: string, device2: string, captureWidth: int, captureHeight: int,
                                 outputWidth: int, outputHeight: int, framerate: int, flipMethod: int)
    ensures GstreamerPipeline(CsiDevice, device1, captureWidth, captureHeight, outputWidth, outputHeight, framerate, flipMethod)
         == GstreamerPipeline(CsiDevice, device2, captureWidth, captureHeight, outputWidth, outputHeight, framerate, flipMethod)
  {
  }

  /** ASCII lower case, as `str.lower()` acts on a platform name. */
  function Lower(s: string): (r: string)
    ensures |r| == |s|
    ensures forall i :: 0 <= i < |s| ==> r[i] == (if 'A' <= s[i] <= 'Z' then (s[i] as int + 32) as char else s[i])
  {
    if s == [] then []
    else [if 'A' <= s[0] <= 'Z' then (s[0] as int + 32) as char else s[0]] + Lower(s[1..])
  }

  /** What start() opens: the device itself on macOS and Windows (a platform
      name containing "darwin" or "windows" in any case), the GStreamer
      pipeline of the component's settings elsewhere. */
  function CaptureSource(platform: string, device: string, width: int, height: int, frameRate: int,
                         flipMode: int, captureWidth: int, captureHeight: int): (r: Source)
    ensures r.Device? <==> IsSubstring("darwin", Lower(platform)) || IsSubstring("windows", Lower(platform))
    ensures r.Device? ==> r.path == device
    ensures r.Pipeline? ==>
      r.description == GstreamerPipeline(device, device, captureWidth, captureHeight, width, height, frameRate, flipMode)
  {
    var p := Lower(platform);
    if IsSubstring("darwin", p) || IsSubstring("windows", p) then Device(device)
    else Pipeline(GstreamerPipeline(device, device, captureWidth, captureHeight, width, height, frameRate, flipMode))
  }

  /** Python's own names for the two platforms: "darwin" and "win32" contains
      no "windows", so only macOS opens the device directly; Linux builds a
      pipeline. */
  lemma PlatformChoice(device: string, width: int, height: int, frameRate: int, flipMode: int,
                       captureWidth: int, captureHeight: int)
    ensures CaptureSource("darwin", device, width, height, frameRate, flipMode, captureWidth, captureHeight).Device?
    ensures CaptureSource("linux", device, width, height, frameRate, flipMode, captureWidth, captureHeight).Pipeline?
    ensures CaptureSource("win32", device, width, height, frameRate, flipMode, captureWidth, captureHeight).Pipeline?
  {
    assert Lower("darwin") == "darwin";
    assert OccursAt("darwin", "darwin", 0);
    TooShortToContain("darwin", Lower("linux"));
    TooShortToContain("windows", Lower("linux"));
    TooShortToContain("darwin", Lower("win32"));
    TooShortToContain("windows", Lower("win32"));
  }

  /** A string shorter than a pattern does not contain it. */
  lemma TooShortToContain(p: string, s: string)
    requires |s| < |p|
    ensures !IsSubstring(p, s)
  {
  }

  class Camera {
    /** The component part: channels and bus. */
    const base: Component
    const device: string
    const width: int
    const height: int
    const frameRate: int
    const flipMode: int
    const captureWidth: int
    const captureHeight: int
    /** What the capture was opened on; None until start(). */
    var source: Option<Source>

    /** The settings given to the constructor, and no capture yet. */
    constructor(device: string, width: int, height: int, frameRate: int, flipMode: int,
                captureWidth: int, captureHeight: int)
      ensures this.device == device && this.width == width && this.height == height
      ensures this.frameRate == frameRate && this.flipMode == flipMode
      ensures this.captureWidth == captureWidth && this.captureHeight == captureHeight
      ensures source == None
      ensures fresh(base) && base.kind == Plain && base.behaviour == CameraBehaviour
      ensures base.subscription == [] && base.publication == [] && base.can == null && !base.channelNumWarned
    {
      base := new Component(Plain, CameraBehaviour);
      this.device, this.width, this.height := device, width, height;
      this.frameRate, this.flipMode := frameRate, flipMode;
      this.captureWidth, this.captureHeight := captureWidth, captureHeight;
      source := None;
    }

    /** Camera() with its default settings: the CSI device at 1280x720 from
        a 3280x2464 capture, 21 frames per second, no flip. */
    static method Default() returns (c: Camera)
      ensures fresh(c) && fresh(c.base) && c.source == None
      ensures c.device == CsiDevice && c.width == 1280 && c.height == 720 && c.frameRate == 21
      ensures c.flipMode == 0 && c.captureWidth == 3280 && c.captureHeight == 2464
    {
      c := new Camera(CsiDevice, 1280, 720, 21, 0, 3280, 2464);
    }

    /** start(): open the capture for the platform, return True. */
    method Start(platform: string) returns (longRunning: bool)
      modifies this`source
      ensures longRunning
      ensures source == Some(CaptureSource(platform, device, width, height, frameRate, flipMode, captureWidth, captureHeight))
    {
      source := Some(CaptureSource(platform, device, width, height, frameRate, flipMode, captureWidth, captureHeight));
      longRunning := true;
    }

    /** One iteration of run(): publish the frame just read. */
    method RunOnce(frame: Value) returns (calls: seq<PublishCall>, err: Option<Exc>)
      modifies base`channelNumWarned
      ensures base.can == null ==> calls == [] && err == Some(ValueError)
      ensures base.can != null ==> (calls, err) == Publishes(base.can.kind, base.publication, [frame])
      ensures base.channelNumWarned == FlagStep(old(base.channelNumWarned), |base.publication|, Call(base.can != null, 1))
    {
      var warned;
      calls, warned, err := base.PublishMessage([frame]);
    }
  }
}
