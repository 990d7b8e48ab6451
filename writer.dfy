/** The server's response writer (main.go, httpResponseWriter): one flag,
    `started`, guards the choice between one buffered JSON envelope and an
    event stream. Its three operations are written as methods of a class;
    what each call does is also given as a pure step function of the
    writer's state, so that a handler's whole effect can be stated as a
    sequence of calls. */
module Writer {
  import opened Results
  import opened Json
  import opened Http

  const AlreadyStarted := "response already started"
  const StreamingNotSupported := "streaming not supported"
  const NotStarted := "response not started"

  /** One call through the ResponseWriter interface (commands/registry.go). */
  datatype Call =
    | WriteJSONCall(status: int, headers: Headers, body: Value)
    | StreamCall(eventType: string, data: Value)
    | EndCall

  /** The buffered envelope `{statuscode, headers, body}`. */
  function EnvelopeValue(status: int, headers: Headers, body: Value): Value {
    Obj(map["statuscode" := Num(status), "headers" := HeadersValue(headers), "body" := body])
  }

  /** The response header WriteJSON sends: every given value added, then
      Content-Type set to application/json. */
  function JsonHeader(h: Headers, hs: Headers): Headers {
    Merged(h, hs)["Content-Type" := ["application/json"]]
  }

  /** The response header the first Stream call sends. */
  function EventStreamHeader(h: Headers): Headers {
    h["Content-Type" := ["text/event-stream"]]["Cache-Control" := ["no-cache"]]["Connection" := ["keep-alive"]]
  }

  /** The frame a Stream call writes, or why it writes none. */
  function EventFrame(json: Codec, canFlush: bool, eventType: string, data: Value): Result<Output> {
    if !canFlush then Err(StreamingNotSupported)
    else match json.marshal(data)
      case Err(m) => Err(m)
      case Ok(bs) => Ok(Event(eventType, data, bs))
  }

  /** What a writer and its response hold between calls: the `started`
      flag, the response header, and the status line once written. */
  datatype State = State(started: bool, header: Headers, head: Option<Head>)

  /** The state after a call. The first WriteJSON or Stream starts the
      writer, sets its headers and writes its status (when no status was
      written yet); every later call, and every End, leaves the state as it
      is. */
  function Step(s: State, c: Call): State {
    if s.started || c.EndCall? then s
    else
      var h := if c.WriteJSONCall? then JsonHeader(s.header, c.headers) else EventStreamHeader(s.header);
      var status := if c.WriteJSONCall? then c.status else 200;
      State(true, h, if s.head.None? then Some(Head(status, h)) else s.head)
  }

  /** The state after a sequence of calls. */
  function Run(s: State, calls: seq<Call>): State
    decreases |calls|
  {
    if calls == [] then s else Run(Step(s, calls[0]), calls[1..])
  }

  /** What a call returns, on a writer with the given flusher and state.
      Stream and End ignore the error of their body write; WriteJSON
      returns it, as json.Encoder.Encode does. */
  function CallResult(json: Codec, canFlush: bool, s: State, c: Call): Outcome {
    match c
    case WriteJSONCall(status, headers, body) =>
      if s.started then Fail(AlreadyStarted)
      else (match json.marshal(EnvelopeValue(status, headers, body))
        case Err(m) => Fail(m)
        case Ok(_) => if BodyAllowed(Step(s, c).head) then Pass else Fail(BodyNotAllowed))
    case StreamCall(t, data) =>
      (match EventFrame(json, canFlush, t, data)
        case Err(m) => Fail(m)
        case Ok(_) => Pass)
    case EndCall =>
      if s.started then Pass else Fail(NotStarted)
  }

  /** What a call appends to the response body. */
  function CallOutput(json: Codec, canFlush: bool, s: State, c: Call): (out: seq<Output>)
    ensures |out| <= 1
    ensures out != [] ==> BodyAllowed(Step(s, c).head)
  {
    var allowed := BodyAllowed(Step(s, c).head);
    match c
    case WriteJSONCall(status, headers, body) =>
      if s.started then []
      else (var env := EnvelopeValue(status, headers, body);
        match json.marshal(env)
        case Err(_) => []
        case Ok(bs) => if allowed then [Envelope(env, bs)] else [])
    case StreamCall(t, data) =>
      (match EventFrame(json, canFlush, t, data)
        case Err(_) => []
        case Ok(frame) => if allowed then [frame] else [])
    case EndCall =>
      if s.started && canFlush && allowed then [EndMarker] else []
  }

  /** Everything a sequence of calls appends to the response body. */
  function Outputs(json: Codec, canFlush: bool, s: State, calls: seq<Call>): seq<Output>
    decreases |calls|
  {
    if calls == [] then []
    else
      CallOutput(json, canFlush, s, calls[0]) +
      Outputs(json, canFlush, Step(s, calls[0]), calls[1..])
  }

  /** Running two call sequences one after the other. */
  lemma {:induction false} OutputsAppend(json: Codec, canFlush: bool, s: State, a: seq<Call>, b: seq<Call>)
    ensures Outputs(json, canFlush, s, a + b) == Outputs(json, canFlush, s, a) + Outputs(json, canFlush, Run(s, a), b)
    ensures Run(s, a + b) == Run(Run(s, a), b)
    decreases |a|
  {
    if a != [] {
      assert (a + b)[0] == a[0];
      assert (a + b)[1..] == a[1..] + b;
      OutputsAppend(json, canFlush, Step(s, a[0]), a[1..], b);
    } else {
      assert a + b == b;
    }
  }

  /** A started writer is settled: no call changes its flag, header or status. */
  lemma {:induction false} StartedIsSettled(s: State, calls: seq<Call>)
    requires s.started
    ensures Run(s, calls) == s
    decreases |calls|
  {
    if calls != [] {
      StartedIsSettled(s, calls[1..]);
    }
  }

  /** Whatever sequence of calls a handler makes, at most one envelope is
      written, it is the first output, and only a writer that had not
      started writes one: a WriteJSON after a WriteJSON or a Stream writes
      nothing. */
  lemma {:induction false} EnvelopeOnlyFirst(json: Codec, canFlush: bool, s: State, calls: seq<Call>, i: nat)
    requires i < |Outputs(json, canFlush, s, calls)|
    requires Outputs(json, canFlush, s, calls)[i].Envelope?
    ensures i == 0 && !s.started
    decreases |calls|
  {
    var c := calls[0];
    var first := CallOutput(json, canFlush, s, c);
    var after := Step(s, c);
    var rest := Outputs(json, canFlush, after, calls[1..]);
    assert Outputs(json, canFlush, s, calls) == first + rest;
    if i < |first| {
      assert first[i].Envelope?;
      assert c.WriteJSONCall?;
    } else {
      EnvelopeOnlyFirst(json, canFlush, after, calls[1..], i - |first|);
      assert !after.started;
      assert c.EndCall? && first == [];
    }
  }

  /** End calls on a writer that never started write nothing and change nothing. */
  lemma {:induction false} EndBeforeStartWritesNothing(json: Codec, canFlush: bool, s: State, calls: seq<Call>)
    requires !s.started
    requires forall c | c in calls :: c.EndCall?
    ensures Outputs(json, canFlush, s, calls) == []
    ensures Run(s, calls) == s
    decreases |calls|
  {
    if calls != [] {
      assert calls[0] in calls;
      assert forall c | c in calls[1..] :: c in calls;
      EndBeforeStartWritesNothing(json, canFlush, s, calls[1..]);
    }
  }

  /** One event-stream frame: an `event:` line, a `data:` line, a blank line. */
  function Frame(eventType: string, data: string): string {
    "event: " + eventType + "\ndata: " + data + "\n\n"
  }

  /** The bytes an output puts on the connection. */
  function Wire(o: Output): string {
    match o
    case Envelope(_, bs) => Text(bs) + "\n"
    case Event(t, _, bs) => Frame(t, Text(bs))
    case EndMarker => Frame("end", "{}")
    case PlainText(s) => s
  }

  /** The text up to the first newline, and the text after it. */
  function Line(s: string): Option<(string, string)>
    decreases |s|
  {
    if s == [] then None
    else if s[0] == '\n' then Some(("", s[1..]))
    else match Line(s[1..])
      case None => None
      case Some(p) => Some(([s[0]] + p.0, p.1))
  }

  /** A reader of the event-stream format: one frame with an `event:` line,
      a `data:` line and a blank line, yielding the type and the data. */
  function ParseFrame(s: string): Option<(string, string)> {
    match Line(s)
    case None => None
    case Some(p1) =>
      match Line(p1.1)
      case None => None
      case Some(p2) =>
        if |p1.0| >= 7 && p1.0[..7] == "event: " && |p2.0| >= 6 && p2.0[..6] == "data: " && p2.1 == "\n"
        then Some((p1.0[7..], p2.0[6..]))
        else None
  }

  lemma {:induction false} LineOf(a: string, b: string)
    requires '\n' !in a
    ensures Line(a + "\n" + b) == Some((a, b))
    decreases |a|
  {
    if a == [] {
      assert a + "\n" + b == "\n" + b;
    } else {
      assert (a + "\n" + b)[1..] == a[1..] + "\n" + b;
      LineOf(a[1..], b);
      assert [a[0]] + a[1..] == a;
    }
  }

  lemma {:induction false} LineSplits(s: string)
    requires Line(s).Some?
    ensures s == Line(s).value.0 + "\n" + Line(s).value.1 && '\n' !in Line(s).value.0
    decreases |s|
  {
    if s[0] != '\n' {
      LineSplits(s[1..]);
    }
  }

  /** A frame reads back as its event type and its data, provided neither
      holds a line break. */
  lemma FrameReadsBack(t: string, d: string)
    requires '\n' !in t && '\n' !in d
    ensures ParseFrame(Frame(t, d)) == Some((t, d))
  {
    var l1 := "event: " + t;
    var l2 := "data: " + d;
    assert Frame(t, d) == l1 + "\n" + (l2 + "\n" + "\n");
    LineOf(l1, l2 + "\n" + "\n");
    LineOf(l2, "\n");
    assert l1[..7] == "event: " && l1[7..] == t;
    assert l2[..6] == "data: " && l2[6..] == d;
  }

  /** A frame Stream writes reads back as its event type and its JSON,
      provided neither holds a line break (json.Marshal escapes them). */
  lemma FrameRoundTrip(t: string, data: Value, bs: seq<byte>)
    requires '\n' !in t && '\n' !in Text(bs)
    ensures ParseFrame(Wire(Event(t, data, bs))) == Some((t, Text(bs)))
  {
    FrameReadsBack(t, Text(bs));
  }

  /** Every text the reader accepts is exactly one frame in that format. */
  lemma FrameParsed(s: string)
    requires ParseFrame(s).Some?
    ensures s == Frame(ParseFrame(s).value.0, ParseFrame(s).value.1)
  {
    var p1 := Line(s).value;
    LineSplits(s);
    var p2 := Line(p1.1).value;
    LineSplits(p1.1);
    assert p1.0 == "event: " + p1.0[7..];
    assert p2.0 == "data: " + p2.0[6..];
  }

  /** The terminal frame is the event `end` with data `{}`. */
  lemma EndFrame()
    ensures ParseFrame(Wire(EndMarker)) == Some(("end", "{}"))
  {
    FrameReadsBack("end", "{}");
  }

  /** main.go's httpResponseWriter over one connection. `log` records every
      call made through the ResponseWriter interface. */
  class HttpResponseWriter {
    const w: Response
    const json: Codec
    var started: bool
    ghost var log: seq<Call>

    /** Once started, the status line has been written. */
    ghost predicate Valid()
      reads this, w
    {
      started ==> w.head.Some?
    }

    /** The writer's state as the step function sees it. */
    ghost function Current(): State
      reads this, w
    {
      State(started, w.header, w.head)
    }

    /** newHTTPResponseWriter */
    constructor (w: Response, json: Codec)
      ensures this.w == w && this.json == json
      ensures !started && log == [] && Valid()
    {
      this.w := w;
      this.json := json;
      started := false;
      log := [];
    }

    method WriteJSON(status: int, headers: Headers, body: Value) returns (err: Outcome)
      requires Valid()
      modifies this, w
      ensures Valid() && started
      ensures log == old(log) + [WriteJSONCall(status, headers, body)]
      ensures Current() == Step(old(Current()), WriteJSONCall(status, headers, body))
      ensures err == CallResult(json, w.canFlush, old(Current()), WriteJSONCall(status, headers, body))
      ensures w.body == old(w.body) + CallOutput(json, w.canFlush, old(Current()), WriteJSONCall(status, headers, body))
      ensures old(started) ==> w.header == old(w.header) && w.head == old(w.head)
      ensures !old(started) ==> w.header == JsonHeader(old(w.header), headers)
      ensures !old(started) ==> w.head == if old(w.head).None? then Some(Head(status, w.header)) else old(w.head)
    {
      log := log + [WriteJSONCall(status, headers, body)];
      if started {
        return Fail(AlreadyStarted);
      }
      started := true;

      w.AddAll(headers);
      w.Set("Content-Type", "application/json");
      w.WriteHeader(status);

      var env := EnvelopeValue(status, headers, body);
      var m := json.marshal(env);
      if m.Err? {
        return Fail(m.msg);
      }
      err := w.Write(Envelope(env, m.value));
    }

    method Stream(eventType: string, data: Value) returns (err: Outcome)
      requires Valid()
      modifies this, w
      ensures Valid() && started
      ensures log == old(log) + [StreamCall(eventType, data)]
      ensures Current() == Step(old(Current()), StreamCall(eventType, data))
      ensures err == CallResult(json, w.canFlush, old(Current()), StreamCall(eventType, data))
      ensures w.body == old(w.body) + CallOutput(json, w.canFlush, old(Current()), StreamCall(eventType, data))
      ensures w.header == if old(started) then old(w.header) else EventStreamHeader(old(w.header))
      ensures w.head == if old(started) || old(w.head).Some? then old(w.head) else Some(Head(200, w.header))
    {
      log := log + [StreamCall(eventType, data)];
      if !started {
        started := true;
        w.Set("Content-Type", "text/event-stream");
        w.Set("Cache-Control", "no-cache");
        w.Set("Connection", "keep-alive");
        w.WriteHeader(200);
      }

      if !w.canFlush {
        return Fail(StreamingNotSupported);
      }

      var m := json.marshal(data);
      if m.Err? {
        return Fail(m.msg);
      }
      var _ := w.Write(Event(eventType, data, m.value));
      return Pass;
    }

    method End() returns (err: Outcome)
      requires Valid()
      modifies this`log, w
      ensures Valid() && started == old(started)
      ensures log == old(log) + [EndCall]
      ensures Current() == old(Current())
      ensures err == CallResult(json, w.canFlush, old(Current()), EndCall)
      ensures w.body == old(w.body) + CallOutput(json, w.canFlush, old(Current()), EndCall)
    {
      log := log + [EndCall];
      if !started {
        return Fail(NotStarted);
      }
      if w.canFlush {
        var _ := w.Write(EndMarker);
      }
      return Pass;
    }
  }
}
