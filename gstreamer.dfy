/**
  src/gstreamer.py: GStreamer launch strings built from `PipelinePart`s,
  a subclass of `str` whose `+` inserts the link operator " ! ", and
  formatted from the keyword arguments merged over a table of defaults;
  and the rendering of negotiated capabilities as launch-line text.
  Launching, bus messages and the caps objects of the GStreamer library
  are not modelled: a caps structure is given as its name and fields.
*/
module GStreamer {

  import opened Common
  import opened Values

  /** A Python `str`, tagged with whether it is a `PipelinePart`. */
  datatype Text = Text(s: string, part: bool)

  function Part(s: string): Text { Text(s, true) }
  function Plain(s: string): Text { Text(s, false) }

  /**
    `a + b`. A `PipelinePart` on the left runs `__add__`; a `PipelinePart`
    on the right runs `__radd__`, which Python tries first because the
    right operand's class is a subclass of the left one's; both give
    str(a) + ' ! ' + str(b) as a plain `str`. Two plain strings concatenate.
  */
  function Add(a: Text, b: Text): (r: Text)
    ensures !r.part
  {
    if a.part || b.part then Plain(a.s + " ! " + b.s) else Plain(a.s + b.s)
  }

  /** `DEFAULTS`. */
  const Defaults: Dict := [
    ("width", VInt(640)),
    ("height", VInt(480)),
    ("bitrate", VInt(1000000)),
    ("quant_param", VInt(0)),
    ("framerate", VInt(15)),
    ("device", VStr("/dev/video0")),
    ("host", VStr("127.0.0.1")),
    ("port", VInt(5001)),
    ("iso", VInt(100)),
    ("shutter", VInt(2000)),
    ("awb", VBool(false)),
    ("ab", VFloat(2.5, "2.5")),
    ("ar", VInt(1)),
    ("expmode", VInt(6)),
    ("sink_name", VStr("pipesink")),
    ("src_name", VStr("pipesrc")),
    ("udp_name", VStr("udpsink0")),
    ("socket_path", VStr("/tmp/foo")),
    ("h264encoder", VStr("omxh264enc"))
  ]

  /** `merge_defaults(k)`: `dict(DEFAULTS, **k)`. */
  function MergeDefaults(kwargs: Dict): Dict
  {
    Merge(Defaults, kwargs)
  }

  /**
    `kw[key]`. Every key the templates read is a key of `DEFAULTS`, so the
    merged arguments always hold it; `None` stands for the `KeyError` that
    cannot happen.
  */
  function Arg(kw: Dict, key: string): Value
  {
    match Get(kw, key)
    case Some(v) => v
    case None => VNull
  }

  /** `{key}` in a template formatted with `**kw`. */
  function Fmt(kw: Dict, key: string): string
  {
    Str(Arg(kw, key))
  }

  /** `Webcam(**kwargs)`. */
  function Webcam(kwargs: Dict): (r: Text)
    ensures r.part && "v4l2src name=" + Fmt(MergeDefaults(kwargs), "src_name") + " device=" <= r.s
  {
    var kw := MergeDefaults(kwargs);
    PrefixOfChain8("v4l2src name=" + Fmt(kw, "src_name") + " device=", Fmt(kw, "device"), " ! video/x-raw,width=",
      Fmt(kw, "width"), ",height=", Fmt(kw, "height"), ",framerate=", Fmt(kw, "framerate"), "/1");
    Part("v4l2src name=" + Fmt(kw, "src_name") + " device=" + Fmt(kw, "device")
      + " ! video/x-raw,width=" + Fmt(kw, "width") + ",height=" + Fmt(kw, "height")
      + ",framerate=" + Fmt(kw, "framerate") + "/1")
  }

  /** The white-balance text: empty with automatic white balance, the gains otherwise. */
  function AwbText(kw: Dict): (r: string)
    ensures r == "" <==> Truthy(Arg(kw, "awb"))
    ensures r != "" ==> r == "awb-mode=off awb-gain-blue=" + Fmt(kw, "ab") + " awb-gain-red=" + Fmt(kw, "ar") + " "
  {
    if Truthy(Arg(kw, "awb")) then ""
    else "awb-mode=off awb-gain-blue=" + Fmt(kw, "ab") + " awb-gain-red=" + Fmt(kw, "ar") + " "
  }

  /** The exposure text: iso and shutter speed only in manual mode (`expmode == 0`). */
  function ExposureText(kw: Dict): (r: string)
    ensures "exposure-mode=" + Fmt(kw, "expmode") <= r
    ensures r == "exposure-mode=" + Fmt(kw, "expmode") <==> !EqualsZero(Arg(kw, "expmode"))
    ensures EqualsZero(Arg(kw, "expmode")) ==>
      r == "exposure-mode=" + Fmt(kw, "expmode") + " iso=" + Fmt(kw, "iso") + " shutter-speed=" + Fmt(kw, "shutter")
  {
    PrefixOfChain4("exposure-mode=" + Fmt(kw, "expmode"), " iso=", Fmt(kw, "iso"), " shutter-speed=", Fmt(kw, "shutter"));
    if EqualsZero(Arg(kw, "expmode")) then
      "exposure-mode=" + Fmt(kw, "expmode") + " iso=" + Fmt(kw, "iso") + " shutter-speed=" + Fmt(kw, "shutter")
    else "exposure-mode=" + Fmt(kw, "expmode")
  }

  /** The text of `RaspiCam(**kwargs)` for the merged arguments `kw`. */
  function RaspiCamText(kw: Dict): (r: string)
    ensures "rpicamsrc name=" + Fmt(kw, "src_name") + " preview=false " + AwbText(kw) + ExposureText(kw) <= r
  {
    PrefixOfChain7("rpicamsrc name=" + Fmt(kw, "src_name") + " preview=false " + AwbText(kw) + ExposureText(kw),
      " ! video/x-raw, format=I420, width=", Fmt(kw, "width"), ", height=", Fmt(kw, "height"), ", framerate=",
      Fmt(kw, "framerate"), "/1");
    "rpicamsrc name=" + Fmt(kw, "src_name") + " preview=false " + AwbText(kw) + ExposureText(kw)
      + " ! video/x-raw, format=I420, width=" + Fmt(kw, "width") + ", height=" + Fmt(kw, "height")
      + ", framerate=" + Fmt(kw, "framerate") + "/1"
  }

  /** `RaspiCam(**kwargs)`. */
  function RaspiCam(kwargs: Dict): (r: Text)
    ensures r.part && "rpicamsrc name=" + Fmt(MergeDefaults(kwargs), "src_name") + " preview=false " <= r.s
  {
    var kw := MergeDefaults(kwargs);
    PrefixOfChain2("rpicamsrc name=" + Fmt(kw, "src_name") + " preview=false ", AwbText(kw), ExposureText(kw));
    Part(RaspiCamText(MergeDefaults(kwargs)))
  }

  /** The text of `H264RaspiCam(**kwargs)` for the merged arguments `kw`. */
  function H264RaspiCamText(kw: Dict): (r: string)
    ensures "rpicamsrc name=" + Fmt(kw, "src_name") + " preview=false bitrate=" + Fmt(kw, "bitrate") <= r
  {
    var head := "rpicamsrc name=" + Fmt(kw, "src_name") + " preview=false bitrate=" + Fmt(kw, "bitrate");
    PrefixOfChain4(head, " quantisation-parameter=", Fmt(kw, "quant_param"), " ", AwbText(kw));
    PrefixOfChain8(head + " quantisation-parameter=" + Fmt(kw, "quant_param") + " " + AwbText(kw), ExposureText(kw),
      " ! video/x-h264, width=", Fmt(kw, "width"), ", height=", Fmt(kw, "height"), ", profile=high, framerate=",
      Fmt(kw, "framerate"), "/1");
    "rpicamsrc name=" + Fmt(kw, "src_name") + " preview=false bitrate=" + Fmt(kw, "bitrate")
      + " quantisation-parameter=" + Fmt(kw, "quant_param") + " " + AwbText(kw) + ExposureText(kw)
      + " ! video/x-h264, width=" + Fmt(kw, "width") + ", height=" + Fmt(kw, "height")
      + ", profile=high, framerate=" + Fmt(kw, "framerate") + "/1"
  }

  /** `H264RaspiCam(**kwargs)`. */
  function H264RaspiCam(kwargs: Dict): (r: Text)
    ensures r.part && "rpicamsrc name=" + Fmt(MergeDefaults(kwargs), "src_name") + " preview=false bitrate=" <= r.s
  {
    var kw := MergeDefaults(kwargs);
    PrefixOfChain1("rpicamsrc name=" + Fmt(kw, "src_name") + " preview=false bitrate=", Fmt(kw, "bitrate"));
    Part(H264RaspiCamText(MergeDefaults(kwargs)))
  }

  /** `TestSrc(**kwargs)`. */
  function TestSrc(kwargs: Dict): (r: Text)
    ensures r.part && "videotestsrc name=" + Fmt(MergeDefaults(kwargs), "src_name") + " ! video/x-raw,width=" <= r.s
  {
    var kw := MergeDefaults(kwargs);
    PrefixOfChain6("videotestsrc name=" + Fmt(kw, "src_name") + " ! video/x-raw,width=", Fmt(kw, "width"),
      ",height=", Fmt(kw, "height"), ",framerate=", Fmt(kw, "framerate"), "/1");
    Part("videotestsrc name=" + Fmt(kw, "src_name") + " ! video/x-raw,width=" + Fmt(kw, "width")
      + ",height=" + Fmt(kw, "height") + ",framerate=" + Fmt(kw, "framerate") + "/1")
  }

  /** `H264Video(**kwargs)`: the name of the encoder element. */
  function H264Video(kwargs: Dict): (r: Text)
    ensures r.part && r.s == Fmt(MergeDefaults(kwargs), "h264encoder")
  {
    var kw := MergeDefaults(kwargs);
    Part(Fmt(kw, "h264encoder"))
  }

  /** `H264Stream(**kwargs)`. */
  function H264Stream(kwargs: Dict): (r: Text)
    ensures r.part
    ensures "h264parse ! rtph264pay pt=96 config-interval=5 ! udpsink name=" + Fmt(MergeDefaults(kwargs), "udp_name") <= r.s
  {
    var kw := MergeDefaults(kwargs);
    PrefixOfChain5("h264parse ! rtph264pay pt=96 config-interval=5 ! udpsink name=" + Fmt(kw, "udp_name"), " host=",
      Fmt(kw, "host"), " port=", Fmt(kw, "port"), " async=false");
    Part("h264parse ! rtph264pay pt=96 config-interval=5 ! udpsink name=" + Fmt(kw, "udp_name")
      + " host=" + Fmt(kw, "host") + " port=" + Fmt(kw, "port") + " async=false")
  }

  /** The text of `SHMSink(**kwargs)` for merged arguments that hold its two keys. */
  function SHMSinkText(kw: Dict): (r: string)
    ensures "shmsink name=" + Fmt(kw, "sink_name") + " socket-path=" + Fmt(kw, "socket_path") <= r
  {
    PrefixOfChain1("shmsink name=" + Fmt(kw, "sink_name") + " socket-path=" + Fmt(kw, "socket_path"),
      " sync=true wait-for-connection=false shm-size=10000000");
    "shmsink name=" + Fmt(kw, "sink_name") + " socket-path=" + Fmt(kw, "socket_path")
      + " sync=true wait-for-connection=false shm-size=10000000"
  }

  /** `SHMSink(**kwargs)`. */
  function SHMSink(kwargs: Dict): (r: Text)
    ensures r.part && "shmsink name=" + Fmt(MergeDefaults(kwargs), "sink_name") <= r.s
  {
    var kw := MergeDefaults(kwargs);
    PrefixOfChain2("shmsink name=" + Fmt(kw, "sink_name"), " socket-path=", Fmt(kw, "socket_path"));
    Part(SHMSinkText(MergeDefaults(kwargs)))
  }

  /** `Tee(name, *parts)`: each part on its own queue of the tee named `name`. */
  function Tee(name: string, parts: seq<Text>): (r: Text)
    ensures r.part && "tee name=" + name + " ! queue ! " <= r.s
  {
    PrefixOfChain1("tee name=" + name + " ! queue ! ",
      JoinWith(" " + name + ". ! queue ! ", seq(|parts|, i requires 0 <= i < |parts| => parts[i].s)));
    Part("tee name=" + name + " ! queue ! "
      + JoinWith(" " + name + ". ! queue ! ", seq(|parts|, i requires 0 <= i < |parts| => parts[i].s)))
  }

  /** The text of `SHMSrc(caps, **kwargs)` for merged arguments holding 'socket_path'. */
  function SHMSrcText(caps: Value, kw: Dict): (r: string)
    ensures r == "shmsrc socket-path=" + Fmt(kw, "socket_path") + " ! " + Str(caps) + " ! videoconvert ! appsink"
  {
    var kw' := Put(kw, "caps", caps);
    PutGet(kw, "caps", caps, "caps");
    PutGet(kw, "caps", caps, "socket_path");
    "shmsrc socket-path=" + Fmt(kw', "socket_path") + " ! " + Fmt(kw', "caps") + " ! videoconvert ! appsink"
  }

  /** `SHMSrc(caps, **kwargs)`: `caps` is added to the merged arguments under 'caps'. */
  function SHMSrc(caps: Value, kwargs: Dict): (r: Text)
    ensures r.part && "shmsrc socket-path=" + Fmt(MergeDefaults(kwargs), "socket_path") + " ! " + Str(caps) <= r.s
  {
    PrefixOfChain1("shmsrc socket-path=" + Fmt(MergeDefaults(kwargs), "socket_path") + " ! " + Str(caps),
      " ! videoconvert ! appsink");
    Part(SHMSrcText(caps, MergeDefaults(kwargs)))
  }

  function BoolText(b: bool): string
  {
    if b then "true" else "false"
  }

  /**
    A keyword flag rendered as `'true' if flag else 'false'`: the default
    when the caller leaves it out, otherwise the truthiness of what was given.
  */
  function Flag(arg: Option<Value>, default: bool): (b: bool)
    ensures arg.None? ==> b == default
    ensures arg.Some? ==> (b <==> Truthy(arg.value))
  {
    match arg
    case None => default
    case Some(v) => Truthy(v)
  }

  /**
    `Valve(name, drop=False)`. The `format` is applied to the constructed
    `PipelinePart`, so what comes back is a plain `str`.
  */
  function Valve(name: string, drop: Option<Value>): (r: Text)
    ensures !r.part && "valve name=" + name + " drop=" <= r.s
  {
    PrefixOfChain1("valve name=" + name + " drop=", BoolText(Flag(drop, false)));
    Plain("valve name=" + name + " drop=" + BoolText(Flag(drop, false)))
  }

  /** `TSFile(location, append=True)`, a plain `str` like `Valve`. */
  function TSFile(location: string, append: Option<Value>): (r: Text)
    ensures !r.part && "mpegtsmux ! filesink location=" + location + " append=" <= r.s
  {
    PrefixOfChain1("mpegtsmux ! filesink location=" + location + " append=", BoolText(Flag(append, true)));
    Plain("mpegtsmux ! filesink location=" + location + " append=" + BoolText(Flag(append, true)))
  }

  /**
    Leaving out `drop` is passing `False`, leaving out `append` is passing
    `True`, and any other value counts by its truthiness.
  */
  lemma ValveAndFileFlags(name: string, location: string, v: Value)
    ensures Valve(name, None) == Valve(name, Some(VBool(false)))
    ensures TSFile(location, None) == TSFile(location, Some(VBool(true)))
    ensures Valve(name, Some(v)) == Valve(name, Some(VBool(Truthy(v))))
    ensures TSFile(location, Some(v)) == TSFile(location, Some(VBool(Truthy(v))))
  {
  }

  /** `Valve(name, 0)` does not drop, and `TSFile(location, 'no')` appends. */
  lemma ValveAndFileTexts(name: string, location: string)
    ensures Valve(name, Some(VInt(0))).s == "valve name=" + name + " drop=false"
    ensures TSFile(location, Some(VStr("no"))).s == "mpegtsmux ! filesink location=" + location + " append=true"
  {
  }

  // ---------------------------------------------------------------------
  // Capabilities
  // ---------------------------------------------------------------------

  /**
    A field of a caps structure as `get_cap_value_by_name` reads it: a value
    `get_value` returns, or a fraction, for which `get_value` raises
    `TypeError` and `get_fraction` returns (found, numerator, denominator).
  */
  datatype CapValue = Literal(value: Value) | Fraction(found: bool, num: int, den: int)

  /** A caps structure: its name and its fields in order. */
  datatype Structure = Structure(name: string, fields: seq<(string, CapValue)>)

  /** `get_cap_value_by_name`, as `format` then renders it. */
  function CapValueText(c: CapValue): string
  {
    match c
    case Literal(v) => Str(v)
    case Fraction(_, num, den) => IntToString(num) + "/" + IntToString(den)
  }

  /** ', name=value' for one field. */
  function FieldText(field: (string, CapValue)): string
  {
    ", " + field.0 + "=" + CapValueText(field.1)
  }

  /** `out` after the fields, in order: each appends ', name=value'. */
  function Render(out: string, fields: seq<(string, CapValue)>): string
  {
    if fields == [] then out else Render(out, fields[..|fields| - 1]) + FieldText(fields[|fields| - 1])
  }

  /** The launch-line text of a structure: its name, then ', k=v' for every field in order. */
  function CapsText(st: Structure): string
  {
    Render(st.name, st.fields)
  }

  /** `make_command_line_parsable`, for the first structure of the caps. */
  method MakeCommandLineParsable(st: Structure) returns (out: string)
    ensures out == CapsText(st)
  {
    out := st.name;
    for i := 0 to |st.fields|
      invariant out == Render(st.name, st.fields[..i])
    {
      var (capName, capValue) := st.fields[i];
      assert st.fields[..i + 1][..i] == st.fields[..i];
      out := out + FieldText((capName, capValue));
    }
    assert st.fields[..|st.fields|] == st.fields;
  }

  // ---------------------------------------------------------------------
  // Properties
  // ---------------------------------------------------------------------

  /** tests/test_gstreamer.py:16-19. */
  lemma AddingParts()
    ensures Add(Part("videotestsrc"), Part("autovideosink")).s == "videotestsrc ! autovideosink"
  {
  }

  /**
    A part added to the right of a plain string still links with " ! "
    (`__radd__`), and two plain strings do not.
  */
  lemma PartOnEitherSide(a: string, b: string)
    ensures Add(Plain(a), Part(b)) == Add(Part(a), Plain(b)) == Add(Part(a), Part(b)) == Plain(a + " ! " + b)
    ensures Add(Plain(a), Plain(b)) == Plain(a + b)
  {
  }

  /** `p1 + p2 + ... + pn`, evaluated left to right as Python does. */
  function Chain(ts: seq<Text>): Text
    requires |ts| > 0
  {
    if |ts| == 1 then ts[0] else Add(Chain(ts[..|ts| - 1]), ts[|ts| - 1])
  }

  /**
    A chain in which every addend after the first is a `PipelinePart` links
    every element with " ! ", although each partial sum is a plain `str`.
  */
  lemma {:induction false} ChainOfParts(ts: seq<Text>)
    requires |ts| > 0 && forall i :: 1 <= i < |ts| ==> ts[i].part
    ensures Chain(ts).s == JoinWith(" ! ", seq(|ts|, i requires 0 <= i < |ts| => ts[i].s))
  {
    if |ts| > 1 {
      var n := |ts| - 1;
      ChainOfParts(ts[..n]);
      var ss := seq(|ts|, i requires 0 <= i < |ts| => ts[i].s);
      assert seq(n, i requires 0 <= i < n => ts[..n][i].s) == ss[..n];
      JoinWithAppend(" ! ", ss[..n], ss[n]);
      assert ss[..n] + [ss[n]] == ss;
    }
  }

  lemma {:induction false} JoinWithAppend(sep: string, ss: seq<string>, s: string)
    requires |ss| > 0
    ensures JoinWith(sep, ss + [s]) == JoinWith(sep, ss) + sep + s
  {
    if |ss| > 1 {
      assert (ss + [s])[1..] == ss[1..] + [s];
      JoinWithAppend(sep, ss[1..], s);
    } else {
      assert (ss + [s])[1..] == [s];
    }
  }

  /** tests/test_gstreamer.py:21-25, for any source, tee name and pair of parts. */
  lemma TeeOfTwo(src: string, name: string, p: string, q: string)
    ensures Add(Part(src), Tee(name, [Part(p), Part(q)])).s ==
      src + " ! tee name=" + name + " ! queue ! " + p + " " + name + ". ! queue ! " + q
  {
    var ps := [Part(p), Part(q)];
    assert seq(|ps|, i requires 0 <= i < |ps| => ps[i].s) == [p, q];
    assert JoinWith(" " + name + ". ! queue ! ", [p, q]) == p + (" " + name + ". ! queue ! ") + q;
  }

  /** A tee over one part is that part on a single queue. */
  lemma TeeOfOne(name: string, p: Text)
    ensures Tee(name, [p]).s == "tee name=" + name + " ! queue ! " + p.s
  {
    assert seq(1, i requires 0 <= i < 1 => [p][i].s) == [p.s];
  }

  /** `merge_defaults`: a given key overrides its default, every other default stays. */
  lemma MergeDefaultsGet(kwargs: Dict, key: string)
    requires UniqueKeys(kwargs)
    ensures Get(MergeDefaults(kwargs), key) == if key in Keys(kwargs) then Get(kwargs, key) else Get(Defaults, key)
  {
    MergeGet(Defaults, kwargs, key);
  }

  /** The default encoder is the OpenMAX one. */
  lemma DefaultEncoder()
    ensures Get(Defaults, "h264encoder") == Some(VStr("omxh264enc"))
  {
    assert Defaults[18] == ("h264encoder", VStr("omxh264enc"));
    assert forall j :: 0 <= j < 18 ==> Defaults[j].0 != "h264encoder";
    GetAt(Defaults, 18);
  }

  /** A keyword passed explicitly is what every template shows for it. */
  lemma ExplicitKeywordShown(kwargs: Dict, key: string, v: Value)
    requires UniqueKeys(kwargs) && Get(kwargs, key) == Some(v)
    ensures Fmt(MergeDefaults(kwargs), key) == Str(v)
  {
    MergeDefaultsGet(kwargs, key);
  }

  /** A keyword left out is shown as its entry in `DEFAULTS`. */
  lemma DefaultKeywordShown(kwargs: Dict, key: string)
    requires UniqueKeys(kwargs) && key !in Keys(kwargs) && Get(Defaults, key).Some?
    ensures Fmt(MergeDefaults(kwargs), key) == Str(Get(Defaults, key).value)
  {
    MergeDefaultsGet(kwargs, key);
  }

  /** Passing one more keyword changes that key of the merged arguments and no other. */
  lemma OverrideOne(kwargs: Dict, key: string, v: Value, other: string)
    requires UniqueKeys(kwargs)
    ensures Get(MergeDefaults(Put(kwargs, key, v)), key) == Some(v)
    ensures other != key ==> Get(MergeDefaults(Put(kwargs, key, v)), other) == Get(MergeDefaults(kwargs), other)
  {
    PutUnique(kwargs, key, v);
    PutKeys(kwargs, key, v);
    MergeDefaultsGet(Put(kwargs, key, v), key);
    MergeDefaultsGet(Put(kwargs, key, v), other);
    MergeDefaultsGet(kwargs, other);
    PutGet(kwargs, key, v, key);
    PutGet(kwargs, key, v, other);
  }

  /** The white-balance arguments agree. */
  predicate SameWhiteBalanceArgs(kw1: Dict, kw2: Dict)
  {
    Get(kw1, "awb") == Get(kw2, "awb") && Get(kw1, "ab") == Get(kw2, "ab") && Get(kw1, "ar") == Get(kw2, "ar")
  }

  /** Camera strings agree when every part of them agrees. */
  lemma CameraTextsAgree(kw1: Dict, kw2: Dict)
    requires AwbText(kw1) == AwbText(kw2) && ExposureText(kw1) == ExposureText(kw2)
    requires Fmt(kw1, "src_name") == Fmt(kw2, "src_name") && Fmt(kw1, "width") == Fmt(kw2, "width")
    requires Fmt(kw1, "height") == Fmt(kw2, "height") && Fmt(kw1, "framerate") == Fmt(kw2, "framerate")
    requires Fmt(kw1, "bitrate") == Fmt(kw2, "bitrate") && Fmt(kw1, "quant_param") == Fmt(kw2, "quant_param")
    ensures RaspiCamText(kw1) == RaspiCamText(kw2)
    ensures H264RaspiCamText(kw1) == H264RaspiCamText(kw2)
  {
  }

  /** The frame arguments (every argument other than the white balance and exposure ones) agree. */
  predicate SameFrameArgs(kw1: Dict, kw2: Dict)
  {
    && Get(kw1, "src_name") == Get(kw2, "src_name") && Get(kw1, "width") == Get(kw2, "width")
    && Get(kw1, "height") == Get(kw2, "height") && Get(kw1, "framerate") == Get(kw2, "framerate")
    && Get(kw1, "bitrate") == Get(kw2, "bitrate") && Get(kw1, "quant_param") == Get(kw2, "quant_param")
  }

  /**
    Outside manual exposure (`expmode != 0`) the camera strings do not
    depend on iso and shutter.
  */
  lemma ExposureIgnoresIsoUnlessManual(kw1: Dict, kw2: Dict)
    requires SameFrameArgs(kw1, kw2) && SameWhiteBalanceArgs(kw1, kw2) && Get(kw1, "expmode") == Get(kw2, "expmode")
    requires !EqualsZero(Arg(kw1, "expmode"))
    ensures ExposureText(kw1) == ExposureText(kw2)
    ensures RaspiCamText(kw1) == RaspiCamText(kw2)
    ensures H264RaspiCamText(kw1) == H264RaspiCamText(kw2)
  {
    SameFmt(kw1, kw2, "expmode");
    SameAwb(kw1, kw2);
    SameFrameFmt(kw1, kw2);
    CameraTextsAgree(kw1, kw2);
  }

  /** In manual exposure the iso reaches the exposure text: another iso gives another text. */
  lemma ManualExposureShowsIso(kw1: Dict, kw2: Dict)
    requires Get(kw1, "expmode") == Get(kw2, "expmode") && Get(kw1, "shutter") == Get(kw2, "shutter")
    requires EqualsZero(Arg(kw1, "expmode")) && Fmt(kw1, "iso") != Fmt(kw2, "iso")
    ensures ExposureText(kw1) != ExposureText(kw2)
  {
    var p := "exposure-mode=" + Fmt(kw1, "expmode") + " iso=";
    var i1, i2 := Fmt(kw1, "iso"), Fmt(kw2, "iso");
    var t1, t2 := ExposureText(kw1), ExposureText(kw2);
    var r1, r2 := " shutter-speed=", Fmt(kw1, "shutter");
    PieceShows2(p, i1, i2, r1, r2);
  }

  /** In manual exposure the shutter speed reaches the exposure text: another shutter speed gives another text. */
  lemma ManualExposureShowsShutter(kw1: Dict, kw2: Dict)
    requires Get(kw1, "expmode") == Get(kw2, "expmode") && Get(kw1, "iso") == Get(kw2, "iso")
    requires EqualsZero(Arg(kw1, "expmode")) && Fmt(kw1, "shutter") != Fmt(kw2, "shutter")
    ensures ExposureText(kw1) != ExposureText(kw2)
  {
    var p := "exposure-mode=" + Fmt(kw1, "expmode") + " iso=" + Fmt(kw1, "iso") + " shutter-speed=";
    var t1, t2 := ExposureText(kw1), ExposureText(kw2);
    assert t1 == p + Fmt(kw1, "shutter") && t2 == p + Fmt(kw2, "shutter");
    assert t1[|p|..] == Fmt(kw1, "shutter");
    assert t2[|p|..] == Fmt(kw2, "shutter");
  }

  /**
    A different exposure text gives a different camera string when every
    other part agrees: the exposure settings are never hidden.
  */
  lemma RaspiCamShowsExposure(kw1: Dict, kw2: Dict)
    requires AwbText(kw1) == AwbText(kw2) && ExposureText(kw1) != ExposureText(kw2)
    requires SameFrameArgs(kw1, kw2)
    ensures RaspiCamText(kw1) != RaspiCamText(kw2)
  {
    SameFrameFmt(kw1, kw2);
    var e1, e2 := ExposureText(kw1), ExposureText(kw2);
    var a := "rpicamsrc name=" + Fmt(kw1, "src_name") + " preview=false " + AwbText(kw1);
    var t1, t2 := RaspiCamText(kw1), RaspiCamText(kw2);
    var c1, c2, c3, c4 := " ! video/x-raw, format=I420, width=", ", height=", ", framerate=", "/1";
    var w, h, f := Fmt(kw1, "width"), Fmt(kw1, "height"), Fmt(kw1, "framerate");
    PieceShows7(a, e1, e2, c1, w, c2, h, c3, f, c4);
  }

  lemma H264RaspiCamShowsExposure(kw1: Dict, kw2: Dict)
    requires AwbText(kw1) == AwbText(kw2) && ExposureText(kw1) != ExposureText(kw2)
    requires SameFrameArgs(kw1, kw2)
    ensures H264RaspiCamText(kw1) != H264RaspiCamText(kw2)
  {
    SameFrameFmt(kw1, kw2);
    var e1, e2 := ExposureText(kw1), ExposureText(kw2);
    var b := "rpicamsrc name=" + Fmt(kw1, "src_name") + " preview=false bitrate=" + Fmt(kw1, "bitrate")
      + " quantisation-parameter=" + Fmt(kw1, "quant_param") + " " + AwbText(kw1);
    var h1, h2 := H264RaspiCamText(kw1), H264RaspiCamText(kw2);
    var c1, c2, c3, c4 := " ! video/x-h264, width=", ", height=", ", profile=high, framerate=", "/1";
    var w, h, f := Fmt(kw1, "width"), Fmt(kw1, "height"), Fmt(kw1, "framerate");
    PieceShows7(b, e1, e2, c1, w, c2, h, c3, f, c4);
  }

  /**
    So the iso setting is used exactly in manual exposure: with
    `expmode == 0` another iso gives another camera string, otherwise
    the iso is ignored (`ExposureIgnoresIsoUnlessManual`).
  */
  lemma ManualCameraShowsIso(kw1: Dict, kw2: Dict)
    requires SameFrameArgs(kw1, kw2) && SameWhiteBalanceArgs(kw1, kw2)
    requires Get(kw1, "expmode") == Get(kw2, "expmode") && Get(kw1, "shutter") == Get(kw2, "shutter")
    requires EqualsZero(Arg(kw1, "expmode")) && Fmt(kw1, "iso") != Fmt(kw2, "iso")
    ensures RaspiCamText(kw1) != RaspiCamText(kw2)
    ensures H264RaspiCamText(kw1) != H264RaspiCamText(kw2)
  {
    ManualExposureShowsIso(kw1, kw2);
    SameAwb(kw1, kw2);
    RaspiCamShowsExposure(kw1, kw2);
    H264RaspiCamShowsExposure(kw1, kw2);
  }

  /** Likewise with `expmode == 0` another shutter speed gives another camera string. */
  lemma ManualCameraShowsShutter(kw1: Dict, kw2: Dict)
    requires SameFrameArgs(kw1, kw2) && SameWhiteBalanceArgs(kw1, kw2)
    requires Get(kw1, "expmode") == Get(kw2, "expmode") && Get(kw1, "iso") == Get(kw2, "iso")
    requires EqualsZero(Arg(kw1, "expmode")) && Fmt(kw1, "shutter") != Fmt(kw2, "shutter")
    ensures RaspiCamText(kw1) != RaspiCamText(kw2)
    ensures H264RaspiCamText(kw1) != H264RaspiCamText(kw2)
  {
    ManualExposureShowsShutter(kw1, kw2);
    SameAwb(kw1, kw2);
    RaspiCamShowsExposure(kw1, kw2);
    H264RaspiCamShowsExposure(kw1, kw2);
  }

  /** With automatic white balance the camera strings do not depend on the gains. */
  lemma AutoWhiteBalanceIgnoresGains(kw1: Dict, kw2: Dict)
    requires SameFrameArgs(kw1, kw2) && Get(kw1, "awb") == Get(kw2, "awb")
    requires Get(kw1, "expmode") == Get(kw2, "expmode") && Get(kw1, "iso") == Get(kw2, "iso")
    requires Get(kw1, "shutter") == Get(kw2, "shutter")
    requires Truthy(Arg(kw1, "awb"))
    ensures AwbText(kw1) == AwbText(kw2) == ""
    ensures RaspiCamText(kw1) == RaspiCamText(kw2)
    ensures H264RaspiCamText(kw1) == H264RaspiCamText(kw2)
  {
    assert AwbText(kw1) == AwbText(kw2) == "";
    SameExposure(kw1, kw2);
    SameFrameFmt(kw1, kw2);
    CameraTextsAgree(kw1, kw2);
  }

  /**
    `Valve(..) + TSFile(..)`: both are plain strings, so they are
    concatenated without a link between them.
  */
  lemma ValveThenFile(name: string, drop: Option<Value>, location: string, append: Option<Value>)
    ensures Add(Valve(name, drop), TSFile(location, append)).s ==
      "valve name=" + name + " drop=" + BoolText(Flag(drop, false)) + "mpegtsmux ! filesink location="
        + location + " append=" + BoolText(Flag(append, true))
    ensures !Valve(name, drop).part && !TSFile(location, append).part
  {
  }

  /** A fraction is rendered from its numerator and denominator only. */
  lemma FractionIgnoresFound(num: int, den: int)
    ensures CapValueText(Fraction(true, num, den)) == CapValueText(Fraction(false, num, den))
      == IntToString(num) + "/" + IntToString(den)
  {
  }

  /**
    Rendering splits at any field: the text of the later fields is
    appended to the text of the earlier ones, so the name comes first and
    the fields follow in their order.
  */
  lemma {:induction false} RenderSplits(name: string, a: seq<(string, CapValue)>, b: seq<(string, CapValue)>)
    ensures Render(name, a + b) == Render(name, a) + Render("", b)
    decreases |b|
  {
    if b == [] {
      assert a + b == a;
      assert Render(name, a) + "" == Render(name, a);
    } else {
      var n := |b| - 1;
      var bn := b[..n];
      calc {
        Render(name, a + b);
      == { assert (a + b)[..|a + b| - 1] == a + bn; assert (a + b)[|a + b| - 1] == b[n]; }
        Render(name, a + bn) + FieldText(b[n]);
      == { RenderSplits(name, a, bn); }
        (Render(name, a) + Render("", bn)) + FieldText(b[n]);
      == { SeqAssoc(Render(name, a), Render("", bn), FieldText(b[n])); }
        Render(name, a) + (Render("", bn) + FieldText(b[n]));
      }
    }
  }

  /** A chain of concatenations starts with its first operand. */
  lemma PrefixOfChain1(a: string, r1: string)
    ensures a <= a + r1
  {
    assert (a + r1)[..|a|] == a;
  }

  lemma PrefixOfChain2(a: string, r1: string, r2: string)
    ensures a <= a + r1 + r2
  {
    assert (a + r1 + r2)[..|a|] == a;
  }

  lemma PrefixOfChain4(a: string, r1: string, r2: string, r3: string, r4: string)
    ensures a <= a + r1 + r2 + r3 + r4
  {
    assert (a + r1 + r2 + r3 + r4)[..|a|] == a;
  }

  lemma PrefixOfChain5(a: string, r1: string, r2: string, r3: string, r4: string, r5: string)
    ensures a <= a + r1 + r2 + r3 + r4 + r5
  {
    assert (a + r1 + r2 + r3 + r4 + r5)[..|a|] == a;
  }

  lemma PrefixOfChain6(a: string, r1: string, r2: string, r3: string, r4: string, r5: string, r6: string)
    ensures a <= a + r1 + r2 + r3 + r4 + r5 + r6
  {
    assert (a + r1 + r2 + r3 + r4 + r5 + r6)[..|a|] == a;
  }

  lemma PrefixOfChain7(a: string, r1: string, r2: string, r3: string, r4: string, r5: string, r6: string,
                       r7: string)
    ensures a <= a + r1 + r2 + r3 + r4 + r5 + r6 + r7
  {
    assert (a + r1 + r2 + r3 + r4 + r5 + r6 + r7)[..|a|] == a;
  }

  lemma PrefixOfChain8(a: string, r1: string, r2: string, r3: string, r4: string, r5: string, r6: string,
                       r7: string, r8: string)
    ensures a <= a + r1 + r2 + r3 + r4 + r5 + r6 + r7 + r8
  {
    assert (a + r1 + r2 + r3 + r4 + r5 + r6 + r7 + r8)[..|a|] == a;
  }

  lemma SeqAssoc(x: string, y: string, z: string)
    ensures (x + y) + z == x + (y + z)
  {
  }

  /** Equal arguments format equally. */
  lemma SameFmt(kw1: Dict, kw2: Dict, key: string)
    requires Get(kw1, key) == Get(kw2, key)
    ensures Fmt(kw1, key) == Fmt(kw2, key)
  {
  }

  /** Equal exposure arguments give the same exposure text. */
  lemma SameExposure(kw1: Dict, kw2: Dict)
    requires Get(kw1, "expmode") == Get(kw2, "expmode") && Get(kw1, "iso") == Get(kw2, "iso")
    requires Get(kw1, "shutter") == Get(kw2, "shutter")
    ensures ExposureText(kw1) == ExposureText(kw2)
  {
  }

  /** The arguments of `SameFrameArgs` format equally. */
  lemma SameFrameFmt(kw1: Dict, kw2: Dict)
    requires SameFrameArgs(kw1, kw2)
    ensures Fmt(kw1, "src_name") == Fmt(kw2, "src_name") && Fmt(kw1, "width") == Fmt(kw2, "width")
    ensures Fmt(kw1, "height") == Fmt(kw2, "height") && Fmt(kw1, "framerate") == Fmt(kw2, "framerate")
    ensures Fmt(kw1, "bitrate") == Fmt(kw2, "bitrate") && Fmt(kw1, "quant_param") == Fmt(kw2, "quant_param")
  {
    SameFmt(kw1, kw2, "src_name");
    SameFmt(kw1, kw2, "width");
    SameFmt(kw1, kw2, "height");
    SameFmt(kw1, kw2, "framerate");
    SameFmt(kw1, kw2, "bitrate");
    SameFmt(kw1, kw2, "quant_param");
  }

  /** Equal white-balance arguments give the same white-balance text. */
  lemma SameAwb(kw1: Dict, kw2: Dict)
    requires SameWhiteBalanceArgs(kw1, kw2)
    ensures AwbText(kw1) == AwbText(kw2)
  {
  }

  /**
    Two texts built left to right from the same pieces except one differ:
    the differing piece is either of another length or sits at the same
    offset with other characters.
  */
  lemma PieceShows2(a: string, e1: string, e2: string, r1: string, r2: string)
    requires e1 != e2
    ensures a + e1 + r1 + r2 != a + e2 + r1 + r2
  {
    if |e1| == |e2| {
      assert (a + e1 + r1 + r2)[..|a| + |e1|] == a + e1 && (a + e1)[|a|..] == e1;
      assert (a + e2 + r1 + r2)[..|a| + |e2|] == a + e2 && (a + e2)[|a|..] == e2;
    }
  }

  lemma PieceShows7(a: string, e1: string, e2: string, r1: string, r2: string, r3: string, r4: string,
                    r5: string, r6: string, r7: string)
    requires e1 != e2
    ensures a + e1 + r1 + r2 + r3 + r4 + r5 + r6 + r7 != a + e2 + r1 + r2 + r3 + r4 + r5 + r6 + r7
  {
    if |e1| == |e2| {
      var t1, t2 := a + e1 + r1 + r2 + r3 + r4 + r5 + r6 + r7, a + e2 + r1 + r2 + r3 + r4 + r5 + r6 + r7;
      assert t1[..|a| + |e1|] == a + e1 && (a + e1)[|a|..] == e1;
      assert t2[..|a| + |e2|] == a + e2 && (a + e2)[|a|..] == e2;
    }
  }
}
