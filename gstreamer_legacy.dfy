/**
  gstreamer.py, the older launch-string builders that the control-socket
  handler drives: the same `PipelinePart` addition, `Tee`, white-balance
  text and caps rendering as src/gstreamer.py (modelled once, in module
  GStreamer), with its own table of defaults, a camera that always sets
  iso and shutter speed, and a stream part that carries its own encoder.
*/
module GStreamerLegacy {

  import opened Common
  import opened Values
  import G = GStreamer

  /** `DEFAULTS`. */
  const Defaults: Dict := [
    ("width", VInt(640)),
    ("height", VInt(480)),
    ("bitrate", VInt(2000000)),
    ("framerate", VInt(15)),
    ("host", VStr("192.168.1.123")),
    ("port", VInt(5001)),
    ("iso", VInt(100)),
    ("shutter", VInt(2000)),
    ("awb", VBool(false)),
    ("ab", VFloat(2.5, "2.5")),
    ("ar", VInt(1)),
    ("expmode", VInt(0)),
    ("sink_name", VStr("pipesink")),
    ("socket_path", VStr("/tmp/foo"))
  ]

  /** `merge_defaults(k)`: `dict(DEFAULTS, **k)`. */
  function MergeDefaults(kwargs: Dict): Dict
  {
    Merge(Defaults, kwargs)
  }

  /** `Webcam(**kwargs)`. */
  function Webcam(kwargs: Dict): (r: G.Text)
    ensures r.part && "v4l2src ! video/x-raw, width=" + G.Fmt(MergeDefaults(kwargs), "width") <= r.s
  {
    var kw := MergeDefaults(kwargs);
    G.PrefixOfChain5("v4l2src ! video/x-raw, width=" + G.Fmt(kw, "width"), ",height=", G.Fmt(kw, "height"),
      ", framerate=", G.Fmt(kw, "framerate"), "/1");
    G.Part("v4l2src ! video/x-raw, width=" + G.Fmt(kw, "width") + ",height=" + G.Fmt(kw, "height")
      + ", framerate=" + G.Fmt(kw, "framerate") + "/1")
  }

  /** The text of `RaspiCam(**kwargs)` for the merged arguments `kw`. */
  function RaspiCamText(kw: Dict): (r: string)
    ensures "rpicamsrc preview=false exposure-mode=" + G.Fmt(kw, "expmode") + " " + G.AwbText(kw)
      + "iso=" + G.Fmt(kw, "iso") + " shutter-speed=" + G.Fmt(kw, "shutter") <= r
  {
    G.PrefixOfChain7("rpicamsrc preview=false exposure-mode=" + G.Fmt(kw, "expmode") + " " + G.AwbText(kw)
      + "iso=" + G.Fmt(kw, "iso") + " shutter-speed=" + G.Fmt(kw, "shutter"),
      " ! video/x-raw, format=I420, width=", G.Fmt(kw, "width"), ", height=", G.Fmt(kw, "height"),
      ", framerate=", G.Fmt(kw, "framerate"), "/1");
    "rpicamsrc preview=false exposure-mode=" + G.Fmt(kw, "expmode") + " " + G.AwbText(kw)
      + "iso=" + G.Fmt(kw, "iso") + " shutter-speed=" + G.Fmt(kw, "shutter")
      + " ! video/x-raw, format=I420, width=" + G.Fmt(kw, "width") + ", height=" + G.Fmt(kw, "height")
      + ", framerate=" + G.Fmt(kw, "framerate") + "/1"
  }

  /** `RaspiCam(**kwargs)`. */
  function RaspiCam(kwargs: Dict): (r: G.Text)
    ensures r.part && "rpicamsrc preview=false exposure-mode=" + G.Fmt(MergeDefaults(kwargs), "expmode") <= r.s
  {
    var kw := MergeDefaults(kwargs);
    G.PrefixOfChain6("rpicamsrc preview=false exposure-mode=" + G.Fmt(kw, "expmode"), " ", G.AwbText(kw),
      "iso=", G.Fmt(kw, "iso"), " shutter-speed=", G.Fmt(kw, "shutter"));
    G.Part(RaspiCamText(MergeDefaults(kwargs)))
  }

  /** The encoder, payloader and UDP sink of `H264Stream`, before the host and port. */
  const StreamHead: string := "omxh264enc ! h264parse ! "

  /** The text of `H264Stream(**kwargs)` for the merged arguments `kw`. */
  function H264StreamText(kw: Dict): (r: string)
    ensures StreamHead + "rtph264pay pt=96 config-interval=5 ! udpsink host=" + G.Fmt(kw, "host") <= r
  {
    G.PrefixOfChain2(StreamHead + "rtph264pay pt=96 config-interval=5 ! udpsink host=" + G.Fmt(kw, "host"),
      " port=", G.Fmt(kw, "port"));
    StreamHead + "rtph264pay pt=96 config-interval=5 ! udpsink host=" + G.Fmt(kw, "host")
      + " port=" + G.Fmt(kw, "port")
  }

  /** `H264Stream(**kwargs)`. */
  function H264Stream(kwargs: Dict): (r: G.Text)
    ensures r.part && StreamHead <= r.s
  {
    G.PrefixOfChain2(StreamHead, "rtph264pay pt=96 config-interval=5 ! udpsink host=",
      G.Fmt(MergeDefaults(kwargs), "host"));
    G.Part(H264StreamText(MergeDefaults(kwargs)))
  }

  /** `SHMSink(**kwargs)`: the same template as in src/gstreamer.py, over these defaults. */
  function SHMSink(kwargs: Dict): (r: G.Text)
    ensures r.part && "shmsink name=" + G.Fmt(MergeDefaults(kwargs), "sink_name") <= r.s
  {
    var kw := MergeDefaults(kwargs);
    G.PrefixOfChain2("shmsink name=" + G.Fmt(kw, "sink_name"), " socket-path=", G.Fmt(kw, "socket_path"));
    G.Part(G.SHMSinkText(MergeDefaults(kwargs)))
  }

  /** `SHMSrc(caps, **kwargs)`: the same template as in src/gstreamer.py, over these defaults. */
  function SHMSrc(caps: Value, kwargs: Dict): (r: G.Text)
    ensures r.part && "shmsrc socket-path=" + G.Fmt(MergeDefaults(kwargs), "socket_path") + " ! " + Str(caps) <= r.s
  {
    G.PrefixOfChain1("shmsrc socket-path=" + G.Fmt(MergeDefaults(kwargs), "socket_path") + " ! " + Str(caps),
      " ! videoconvert ! appsink");
    G.Part(G.SHMSrcText(caps, MergeDefaults(kwargs)))
  }

  // ---------------------------------------------------------------------
  // Properties
  // ---------------------------------------------------------------------

  /** `merge_defaults`: a given key overrides its default, every other default stays. */
  lemma MergeDefaultsGet(kwargs: Dict, key: string)
    requires UniqueKeys(kwargs)
    ensures Get(MergeDefaults(kwargs), key) == if key in Keys(kwargs) then Get(kwargs, key) else Get(Defaults, key)
  {
    MergeGet(Defaults, kwargs, key);
  }

  /** The arguments of the camera other than the iso and the shutter speed agree. */
  predicate SameCameraArgs(kw1: Dict, kw2: Dict)
  {
    && Get(kw1, "expmode") == Get(kw2, "expmode") && Get(kw1, "awb") == Get(kw2, "awb")
    && Get(kw1, "ab") == Get(kw2, "ab") && Get(kw1, "ar") == Get(kw2, "ar")
    && Get(kw1, "width") == Get(kw2, "width") && Get(kw1, "height") == Get(kw2, "height")
    && Get(kw1, "framerate") == Get(kw2, "framerate")
  }

  /** The frame size and rate format equally. */
  lemma SameFrame(kw1: Dict, kw2: Dict)
    requires Get(kw1, "width") == Get(kw2, "width") && Get(kw1, "height") == Get(kw2, "height")
    requires Get(kw1, "framerate") == Get(kw2, "framerate")
    ensures G.Fmt(kw1, "width") == G.Fmt(kw2, "width") && G.Fmt(kw1, "height") == G.Fmt(kw2, "height")
    ensures G.Fmt(kw1, "framerate") == G.Fmt(kw2, "framerate")
  {
    G.SameFmt(kw1, kw2, "width");
    G.SameFmt(kw1, kw2, "height");
    G.SameFmt(kw1, kw2, "framerate");
  }

  /**
    The camera always sets the iso, whatever the exposure mode: another iso
    gives another camera string.
  */
  lemma CameraShowsIso(kw1: Dict, kw2: Dict)
    requires SameCameraArgs(kw1, kw2) && Get(kw1, "shutter") == Get(kw2, "shutter")
    requires G.Fmt(kw1, "iso") != G.Fmt(kw2, "iso")
    ensures RaspiCamText(kw1) != RaspiCamText(kw2)
  {
    G.SameAwb(kw1, kw2);
    SameFrame(kw1, kw2);
    G.SameFmt(kw1, kw2, "expmode");
    G.SameFmt(kw1, kw2, "shutter");
    var a := "rpicamsrc preview=false exposure-mode=" + G.Fmt(kw1, "expmode") + " " + G.AwbText(kw1) + "iso=";
    var w, h, f := G.Fmt(kw1, "width"), G.Fmt(kw1, "height"), G.Fmt(kw1, "framerate");
    PieceShows9(a, G.Fmt(kw1, "iso"), G.Fmt(kw2, "iso"), " shutter-speed=", G.Fmt(kw1, "shutter"),
      " ! video/x-raw, format=I420, width=", w, ", height=", h, ", framerate=", f, "/1");
  }

  /** The camera always sets the shutter speed: another one gives another camera string. */
  lemma CameraShowsShutter(kw1: Dict, kw2: Dict)
    requires SameCameraArgs(kw1, kw2) && Get(kw1, "iso") == Get(kw2, "iso")
    requires G.Fmt(kw1, "shutter") != G.Fmt(kw2, "shutter")
    ensures RaspiCamText(kw1) != RaspiCamText(kw2)
  {
    G.SameAwb(kw1, kw2);
    SameFrame(kw1, kw2);
    G.SameFmt(kw1, kw2, "expmode");
    G.SameFmt(kw1, kw2, "iso");
    var a := "rpicamsrc preview=false exposure-mode=" + G.Fmt(kw1, "expmode") + " " + G.AwbText(kw1)
      + "iso=" + G.Fmt(kw1, "iso") + " shutter-speed=";
    var w, h, f := G.Fmt(kw1, "width"), G.Fmt(kw1, "height"), G.Fmt(kw1, "framerate");
    G.PieceShows7(a, G.Fmt(kw1, "shutter"), G.Fmt(kw2, "shutter"),
      " ! video/x-raw, format=I420, width=", w, ", height=", h, ", framerate=", f, "/1");
  }

  /** With automatic white balance the camera string does not depend on the gains. */
  lemma AutoWhiteBalanceIgnoresGains(kw1: Dict, kw2: Dict)
    requires Get(kw1, "awb") == Get(kw2, "awb") && Get(kw1, "expmode") == Get(kw2, "expmode")
    requires Get(kw1, "iso") == Get(kw2, "iso") && Get(kw1, "shutter") == Get(kw2, "shutter")
    requires Get(kw1, "width") == Get(kw2, "width") && Get(kw1, "height") == Get(kw2, "height")
    requires Get(kw1, "framerate") == Get(kw2, "framerate")
    requires Truthy(G.Arg(kw1, "awb"))
    ensures RaspiCamText(kw1) == RaspiCamText(kw2)
  {
    assert G.AwbText(kw1) == G.AwbText(kw2) == "";
    G.SameFmt(kw1, kw2, "expmode");
    G.SameFmt(kw1, kw2, "iso");
    G.SameFmt(kw1, kw2, "shutter");
    SameFrame(kw1, kw2);
  }

  lemma PieceShows9(a: string, e1: string, e2: string, r1: string, r2: string, r3: string, r4: string,
                    r5: string, r6: string, r7: string, r8: string, r9: string)
    requires e1 != e2
    ensures a + e1 + r1 + r2 + r3 + r4 + r5 + r6 + r7 + r8 + r9 != a + e2 + r1 + r2 + r3 + r4 + r5 + r6 + r7 + r8 + r9
  {
    if |e1| == |e2| {
      var t1 := a + e1 + r1 + r2 + r3 + r4 + r5 + r6 + r7 + r8 + r9;
      var t2 := a + e2 + r1 + r2 + r3 + r4 + r5 + r6 + r7 + r8 + r9;
      assert t1[..|a| + |e1|] == a + e1 && (a + e1)[|a|..] == e1;
      assert t2[..|a| + |e2|] == a + e2 && (a + e2)[|a|..] == e2;
    }
  }
}
