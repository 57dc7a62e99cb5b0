/**
  networking/handler.py: the message handler `create_gst_handler`
  returns. It owns the current GStreamer pipeline, or none: a 'stop'
  message stops and drops it, a 'start' message replaces it by a new
  camera-to-network pipeline, an 'error' message is only reported, and a
  message that does not validate is answered with an 'error' message to
  the client that sent it. The `gs` module is gstreamer.py (module
  GStreamerLegacy); parsing is the corrected `parse_message` (see module
  Messages).
*/
module Handler {

  import opened Common
  import opened Values
  import opened Messages
  import G = GStreamer
  import L = GStreamerLegacy

  /** The pipeline states the handler sets. */
  datatype State = Null | Playing

  /** A pipeline made by `gs.pipeline(part)`, which is in the NULL state until it is set. */
  class Pipeline {
    const description: string
    var state: State

    constructor (description: string)
      ensures this.description == description && state == Null
    {
      this.description := description;
      state := Null;
    }

    /** `set_state`. */
    method SetState(s: State)
      modifies this
      ensures state == s
    {
      state := s;
    }
  }

  /** The socket of a client: the texts sent to it, in order. */
  class Client {
    var sent: seq<string>

    constructor ()
      ensures sent == []
    {
      sent := [];
    }

    /** `client.send(msg.encode('utf-8'))`. */
    method Send(data: string)
      modifies this
      ensures sent == old(sent) + [data]
    {
      sent := sent + [data];
    }
  }

  /** How `handle_message` ends: normally, or with an exception it does not catch. */
  datatype Result = Handled | Uncaught(error: PyError)

  /** What `handle_message` does with one message. */
  datatype Step =
    | Reply(text: string)      // answer the client with an 'error' message carrying `text`
    | Raise(error: PyError)    // let the exception escape
    | Report                   // `on_error`: only printed
    | Start(message: Dict)     // `on_start`
    | Stop                     // `on_stop`

  /** `handlers[message['type']](message)` for a validated message. */
  function Dispatch(message: Dict): (s: Step)
    ensures s.Start? ==> s.message == message
  {
    match Get(message, FieldType)
    case Some(VStr(t)) =>
      if t == TypeError then (if FieldError in Keys(message) then Report else Raise(KeyError))
      else if t == TypeStartStream then Start(message)
      else if t == TypeStopStream then Stop
      else Raise(KeyError)
    case Some(VList(_)) => Raise(TypeErr)
    case Some(VDict(_)) => Raise(TypeErr)
    case _ => Raise(KeyError)
  }

  /**
    `handle_message` for a message text, given as what `json.loads` makes
    of it: a `ValueError` from parsing is answered, any other exception
    escapes, a valid message is dispatched on its type.
  */
  function Plan(loaded: Loaded): Step
  {
    match ParseMessage(loaded)
    case ValueError(e) => Reply(e)
    case Raised(err) => Raise(err)
    case Parsed(m) => Dispatch(m.entries)
  }

  /**
    The `gs` module the handler is given: the pipeline builders it calls.
    gstreamer.py provides them as `LegacyModule`.
  */
  datatype Gs = Gs(
    raspiCam: Dict -> G.Text,
    tee: (string, seq<G.Text>) -> G.Text,
    h264Stream: Dict -> G.Text,
    shmSink: Dict -> G.Text)

  /** The builders of gstreamer.py. */
  const LegacyModule: Gs := Gs(L.RaspiCam, G.Tee, L.H264Stream, L.SHMSink)

  /** The name of the tee `on_start` splits the camera's video with. */
  const TeeName: string := "t"

  /**
    The part `on_start` launches for a start message:
    `RaspiCam(iso, shutter) + Tee('t', H264Stream(host, port), SHMSink())`,
    or `None` when one of the four fields is missing (`KeyError`).
  */
  function StartPart(gs: Gs, message: Dict): (r: Option<G.Text>)
    ensures r.Some? <==>
      FieldIso in Keys(message) && FieldSs in Keys(message) && FieldHost in Keys(message) && FieldPort in Keys(message)
  {
    match (Get(message, FieldIso), Get(message, FieldSs), Get(message, FieldHost), Get(message, FieldPort))
    case (Some(iso), Some(ss), Some(host), Some(port)) =>
      Some(G.Add(gs.raspiCam([("iso", iso), ("shutter", ss)]),
                 gs.tee(TeeName, [gs.h264Stream([("host", host), ("port", port)]), gs.shmSink([])])))
    case _ => None
  }

  /** The state `create_gst_handler` closes over: the current pipeline, or none. */
  class GstHandler {
    const gs: Gs
    var pipeline: Pipeline?

    /** `create_gst_handler(gs, initial_pipeline)`. */
    constructor (gs: Gs, initial: Pipeline?)
      ensures this.gs == gs && pipeline == initial
    {
      this.gs := gs;
      pipeline := initial;
    }

    /** `on_stop`: a running pipeline is set to NULL and dropped; without one nothing happens. */
    method OnStop()
      modifies this, pipeline
      ensures pipeline == null
      ensures old(pipeline) != null ==> old(pipeline).state == Null
    {
      if pipeline != null {
        pipeline.SetState(Null);
        pipeline := null;
      }
    }

    /**
      `on_start`: the previous pipeline is always stopped first; then a new
      one is built from the message and set to PLAYING.
    */
    method OnStart(message: Dict) returns (outcome: Result)
      modifies this, pipeline
      ensures old(pipeline) != null ==> old(pipeline).state == Null
      ensures StartPart(gs, message).Some? ==>
        && outcome == Handled && pipeline != null && fresh(pipeline)
        && pipeline.description == StartPart(gs, message).value.s && pipeline.state == Playing
      ensures StartPart(gs, message).None? ==> outcome == Uncaught(KeyError) && pipeline == null
    {
      var previous := pipeline;
      OnStop();
      assert previous != null ==> previous.state == Null;
      var part := StartPart(gs, message);
      if part.None? {
        return Uncaught(KeyError);
      }
      var p := new Pipeline(part.value.s);
      pipeline := p;
      p.SetState(Playing);
      assert previous != p;
      outcome := Handled;
    }

    /** `handle_message(client, message_str)`; `dumps` is the serialiser of the reply. */
    method HandleMessage(client: Client, loaded: Loaded, dumps: Dict -> string) returns (outcome: Result)
      modifies this, pipeline, client
      ensures Plan(loaded).Reply? ==>
        client.sent == old(client.sent) + [CreateMessageText(dumps, TypeError, [(FieldError, VStr(Plan(loaded).text))])]
      ensures !Plan(loaded).Reply? ==> client.sent == old(client.sent)
      ensures Plan(loaded).Reply? || Plan(loaded).Report? ==> outcome == Handled
      ensures Plan(loaded).Raise? ==> outcome == Uncaught(Plan(loaded).error)
      ensures Plan(loaded).Reply? || Plan(loaded).Report? || Plan(loaded).Raise? ==>
        pipeline == old(pipeline) && (pipeline != null ==> unchanged(pipeline))
      ensures Plan(loaded).Stop? || Plan(loaded).Start? ==> old(pipeline) != null ==> old(pipeline).state == Null
      ensures Plan(loaded).Stop? ==> outcome == Handled && pipeline == null
      ensures Plan(loaded).Start? && StartPart(gs, Plan(loaded).message).Some? ==>
        && outcome == Handled && pipeline != null && fresh(pipeline) && pipeline.state == Playing
        && pipeline.description == StartPart(gs, Plan(loaded).message).value.s
      ensures Plan(loaded).Start? && StartPart(gs, Plan(loaded).message).None? ==>
        outcome == Uncaught(KeyError) && pipeline == null
    {
      var step := Plan(loaded);
      match step
      case Reply(e) =>
        client.Send(CreateMessageText(dumps, TypeError, [(FieldError, VStr(e))]));
        outcome := Handled;
      case Raise(err) =>
        outcome := Uncaught(err);
      case Report =>
        outcome := Handled;
      case Start(message) =>
        outcome := OnStart(message);
      case Stop =>
        OnStop();
        outcome := Handled;
    }
  }

  // ---------------------------------------------------------------------
  // Properties
  // ---------------------------------------------------------------------

  /**
    Exactly the messages whose parsing raises `ValueError` are answered,
    and the answer carries `str(e)`.
  */
  lemma AnsweredExactlyInvalid(loaded: Loaded)
    ensures Plan(loaded).Reply? <==> ParseMessage(loaded).ValueError?
    ensures Plan(loaded).Reply? ==> Plan(loaded).text == ParseMessage(loaded).text
  {
  }

  /** The type of a message the parser accepts. */
  function AcceptedType(loaded: Loaded): string
    requires ParseMessage(loaded).Parsed?
  {
    ParseExactly(loaded);
    Get(loaded.value.entries, FieldType).value.s
  }

  /**
    An accepted start message is started, and its four fields are there:
    `on_start` never raises `KeyError` for it, whatever `gs` module builds it.
  */
  lemma AcceptedStartLaunches(loaded: Loaded, gs: Gs)
    requires ParseMessage(loaded).Parsed? && AcceptedType(loaded) == TypeStartStream
    ensures Plan(loaded) == Start(loaded.value.entries)
    ensures StartPart(gs, loaded.value.entries).Some?
  {
    ParseExactly(loaded);
    var entries := loaded.value.entries;
    assert Get(entries, FieldType) == Some(VStr(TypeStartStream));
    assert Dispatch(entries) == Start(entries);
    var schema := MessageSchema(TypeStartStream).value;
    assert Conforms(entries, schema);
    StartFieldsPresent(entries);
  }

  /** A message conforming to the start schema holds the four fields `on_start` reads. */
  lemma StartFieldsPresent(entries: Dict)
    requires Conforms(entries, MessageSchema(TypeStartStream).value)
    ensures FieldIso in Keys(entries) && FieldSs in Keys(entries) && FieldHost in Keys(entries) && FieldPort in Keys(entries)
  {
    var schema := MessageSchema(TypeStartStream).value;
    assert schema[0].0 == FieldPort && schema[1].0 == FieldHost;
    assert schema[2].0 == FieldIso && schema[3].0 == FieldSs;
  }

  /**
    The other accepted types: 'stop' stops, 'error' is reported, and
    'results', which has a schema but no handler, escapes as `KeyError`.
  */
  lemma AcceptedOthers(loaded: Loaded)
    requires ParseMessage(loaded).Parsed?
    ensures AcceptedType(loaded) == TypeStopStream ==> Plan(loaded) == Stop
    ensures AcceptedType(loaded) == TypeError ==> Plan(loaded) == Report
    ensures AcceptedType(loaded) == TypeResults ==> Plan(loaded) == Raise(KeyError)
  {
    ParseExactly(loaded);
    if AcceptedType(loaded) == TypeError {
      var schema := MessageSchema(TypeError).value;
      assert schema[0].0 == FieldError;
    }
  }

  /** The reply to an invalid message is itself an error message the handler accepts and reports. */
  lemma ReplyIsReported(text: string)
    ensures Plan(Decoded(VDict(CreateMessage(TypeError, [(FieldError, VStr(text))])))) == Report
  {
    var m := CreateMessage(TypeError, [(FieldError, VStr(text))]);
    ErrorMessageRoundTrip(text);
    CreateMessageFields(TypeError, [(FieldError, VStr(text))], FieldType);
    CreateMessageFields(TypeError, [(FieldError, VStr(text))], FieldError);
  }

  /**
    With the `Tee` of gstreamer.py (`LegacyModule.tee`), a start message
    launches the camera linked to a tee named 't' whose two queues feed
    the UDP stream and the shared-memory sink, in that order.
  */
  lemma StartPipelineShape(gs: Gs, message: Dict, iso: Value, ss: Value, host: Value, port: Value)
    requires gs.tee == G.Tee
    requires Get(message, FieldIso) == Some(iso) && Get(message, FieldSs) == Some(ss)
    requires Get(message, FieldHost) == Some(host) && Get(message, FieldPort) == Some(port)
    ensures StartPart(gs, message) == Some(G.Text(
      gs.raspiCam([("iso", iso), ("shutter", ss)]).s + " ! tee name=" + TeeName + " ! queue ! "
      + gs.h264Stream([("host", host), ("port", port)]).s + " " + TeeName + ". ! queue ! " + gs.shmSink([]).s, false))
  {
    var cam := gs.raspiCam([("iso", iso), ("shutter", ss)]);
    var stream, sink := gs.h264Stream([("host", host), ("port", port)]), gs.shmSink([]);
    var tee := gs.tee(TeeName, [stream, sink]);
    assert tee == G.Tee(TeeName, [stream, sink]);
    assert tee == G.Tee(TeeName, [G.Part(stream.s), G.Part(sink.s)]) by {
      var ps, qs := [stream, sink], [G.Part(stream.s), G.Part(sink.s)];
      assert seq(|ps|, i requires 0 <= i < |ps| => ps[i].s) == seq(|qs|, i requires 0 <= i < |qs| => qs[i].s);
    }
    G.TeeOfTwo(cam.s, TeeName, stream.s, sink.s);
    assert G.Add(cam, tee) == G.Add(G.Part(cam.s), tee);
  }
}
