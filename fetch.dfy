/** commands/fetch.go: the `fetch` command. It reads its parameters out of
    the dynamic argument map, sends one outbound HTTP request, and relays
    the upstream response either as one buffered envelope or as an event
    stream `start, data*, error?, end`. The outbound call is a given
    function; the upstream body is the list of results its reads return. */
module Fetch {
  import opened Results
  import opened Json
  import opened Http
  import opened Writer

  /** The size of the buffer the streaming loop reads into. */
  const BufferSize := 1024

  /** The error half of one `Read`: none, io.EOF, or another error. */
  datatype ReadEnd = More | Eof | Failed(msg: string)

  /** One `Read` of the upstream body: the bytes it delivered and its error. */
  datatype ReadResult = ReadResult(data: seq<byte>, end: ReadEnd)

  /** A body whose reads fit the buffer and that reaches EOF or an error. */
  predicate Ends(rs: seq<ReadResult>) {
    |rs| > 0 && !rs[|rs| - 1].end.More? &&
    forall i | 0 <= i < |rs| :: |rs[i].data| <= BufferSize
  }

  type Body = rs: seq<ReadResult> | Ends(rs) witness [ReadResult([], Eof)]

  /** The upstream *http.Response. */
  datatype Upstream = Upstream(status: int, header: Headers, body: Body)

  /** What http.NewRequest receives, with the headers set on it afterwards. */
  datatype OutboundRequest = OutboundRequest(httpMethod: string, url: string, body: Option<seq<byte>>, header: Headers)

  /** The network as the command sees it: the error http.NewRequest reports
      for a method and URL (none when it accepts them), and the outcome of
      client.Do. */
  datatype Net = Net(
    newRequest: (string, string) -> Option<string>,
    send: OutboundRequest -> Result<Upstream>)

  /** The parameters read out of `args`. */
  datatype Params = Params(httpMethod: string, url: string, stream: bool, body: Option<Value>)

  /** The typed lookups at the top of Execute: `method` then `url` must be
      strings; `stream` counts only as the boolean true; `body` counts
      whenever the key is present, whatever its value. */
  function ExtractArgs(args: map<string, Value>): (r: Result<Params>)
    ensures r.Err? <==> "method" !in args || !args["method"].Str? || "url" !in args || !args["url"].Str?
    ensures r.Err? ==> r.msg == if "method" !in args || !args["method"].Str? then "method must be a string" else "url must be a string"
    ensures r.Ok? ==> args["method"] == Str(r.value.httpMethod) && args["url"] == Str(r.value.url)
    ensures r.Ok? ==> (r.value.stream <==> "stream" in args && args["stream"] == Bool(true))
    ensures r.Ok? ==> (r.value.body.Some? <==> "body" in args)
    ensures r.Ok? && r.value.body.Some? ==> r.value.body.value == args["body"]
  {
    if "method" !in args || !args["method"].Str? then Err("method must be a string")
    else if "url" !in args || !args["url"].Str? then Err("url must be a string")
    else
      var stream := "stream" in args && args["stream"] == Bool(true);
      var body := if "body" in args then Some(args["body"]) else None;
      Ok(Params(args["method"].s, args["url"].s, stream, body))
  }

  /** The request headers: every string-valued entry of `args["headers"]`,
      one value per key; anything else there, or a `headers` that is not
      an object, is ignored. */
  function RequestHeaders(args: map<string, Value>): Headers {
    if "headers" in args && args["headers"].Obj? then
      var fields := args["headers"].fields;
      map k | k in fields && fields[k].Str? :: [fields[k].s]
    else map[]
  }

  /** An argument map holding exactly the given parameters and headers. */
  function ArgsOf(p: Params, headers: map<string, string>): map<string, Value> {
    var base := map["method" := Str(p.httpMethod), "url" := Str(p.url), "stream" := Bool(p.stream),
                    "headers" := Obj(map k | k in headers :: Str(headers[k]))];
    if p.body.Some? then base["body" := p.body.value] else base
  }

  /** Parameters and headers put into an argument map are read back unchanged. */
  lemma ExtractArgsRoundTrip(p: Params, headers: map<string, string>)
    ensures ExtractArgs(ArgsOf(p, headers)) == Ok(p)
    ensures RequestHeaders(ArgsOf(p, headers)) == map k | k in headers :: [headers[k]]
  {
    var args := ArgsOf(p, headers);
    assert args["method"] == Str(p.httpMethod) && args["url"] == Str(p.url);
    assert args["stream"] == Bool(p.stream);
    var fields := args["headers"].fields;
    assert fields == map k | k in headers :: Str(headers[k]);
    var got := RequestHeaders(args);
    var want := map k | k in headers :: [headers[k]];
    assert got.Keys == want.Keys;
    forall k | k in got ensures got[k] == want[k] {
      assert fields[k] == Str(headers[k]);
    }
  }

  /** The header loop of Execute: `req.Header.Set` for each string value. */
  method BuildRequestHeaders(args: map<string, Value>) returns (h: Headers)
    ensures h == RequestHeaders(args)
  {
    h := map[];
    if "headers" in args && args["headers"].Obj? {
      var fields := args["headers"].fields;
      var pending := fields.Keys;
      while pending != {}
        invariant pending <= fields.Keys
        invariant forall k :: k in h <==> k in fields && k !in pending && fields[k].Str?
        invariant forall k | k in h :: h[k] == [fields[k].s]
        decreases pending
      {
        var k :| k in pending;
        var value := fields[k];
        if value.Str? {
          h := h[k := [value.s]];
        }
        pending := pending - {k};
      }
    }
  }

  /** The copy loop of handleRegularResponse. */
  method CopyHeaders(src: Headers) returns (dst: Headers)
    ensures dst == src
  {
    dst := map[];
    var pending := src.Keys;
    while pending != {}
      invariant pending <= src.Keys
      invariant forall k :: k in dst <==> k in src && k !in pending
      invariant forall k | k in dst :: dst[k] == src[k]
      decreases pending
    {
      var k :| k in pending;
      dst := dst[k := src[k]];
      pending := pending - {k};
    }
  }

  /** The outbound body: the marshalled `body` argument, if there is one. */
  function MarshalBody(json: Codec, body: Option<Value>): Result<Option<seq<byte>>> {
    match body
    case None => Ok(None)
    case Some(v) =>
      match json.marshal(v)
      case Err(m) => Err("failed to marshal body: " + m)
      case Ok(bs) => Ok(Some(bs))
  }

  /** Everything Execute does before the request goes out, and the request. */
  function Outbound(json: Codec, net: Net, args: map<string, Value>): (r: Result<(Params, OutboundRequest)>)
    ensures r.Ok? ==> ExtractArgs(args) == Ok(r.value.0)
    ensures r.Ok? ==> var req := r.value.1;
      req.httpMethod == args["method"].s && req.url == args["url"].s && req.header == RequestHeaders(args) &&
      (req.body.Some? <==> "body" in args) &&
      (req.body.Some? ==> json.marshal(args["body"]) == Ok(req.body.value))
  {
    match ExtractArgs(args)
    case Err(m) => Err(m)
    case Ok(p) =>
      match MarshalBody(json, p.body)
      case Err(m) => Err(m)
      case Ok(body) =>
        match net.newRequest(p.httpMethod, p.url)
        case Some(m) => Err("failed to create request: " + m)
        case None => Ok((p, OutboundRequest(p.httpMethod, p.url, body, RequestHeaders(args))))
  }

  /** With a codec whose unmarshal undoes its marshal, the outbound body
      decodes back to the `body` argument. */
  lemma OutboundBodyRoundTrip(json: Codec, net: Net, args: map<string, Value>)
    requires Outbound(json, net, args).Ok? && "body" in args
    requires forall bs :: json.marshal(args["body"]) == Ok(bs) ==> json.unmarshal(bs) == Ok(args["body"])
    ensures json.unmarshal(Outbound(json, net, args).value.1.body.value) == Ok(args["body"])
  {
  }

  /** Execute up to the upstream response: the parameters and the response,
      or the error it returns before making any writer call. */
  function Prepare(json: Codec, net: Net, args: map<string, Value>): Result<(Params, Upstream)> {
    match Outbound(json, net, args)
    case Err(m) => Err(m)
    case Ok(pr) =>
      match net.send(pr.1)
      case Err(m) => Err("request failed: " + m)
      case Ok(up) => Ok((pr.0, up))
  }

  // ---------------------------------------------------------------------
  // The buffered path

  /** io.ReadAll: every byte up to EOF, or the first non-EOF error. */
  function ReadAll(rs: seq<ReadResult>): Result<seq<byte>>
    decreases |rs|
  {
    if rs == [] then Ok([])
    else match rs[0].end
      case Eof => Ok(rs[0].data)
      case Failed(m) => Err(m)
      case More =>
        match ReadAll(rs[1..])
        case Err(m) => Err(m)
        case Ok(rest) => Ok(rs[0].data + rest)
  }

  /** The envelope body: the decoded JSON when Content-Type is exactly
      application/json (its failure to decode is an error), otherwise the
      raw body as a string. */
  function RegularBody(json: Codec, header: Headers, bytes: seq<byte>): (r: Result<Value>)
    ensures Get(header, "Content-Type") == "application/json" ==>
      (r.Ok? <==> json.unmarshal(bytes).Ok?) && (r.Ok? ==> r.value == json.unmarshal(bytes).value)
    ensures Get(header, "Content-Type") != "application/json" ==> r == Ok(Str(Text(bytes)))
  {
    if Get(header, "Content-Type") == "application/json" then
      match json.unmarshal(bytes)
      case Err(m) => Err("failed to parse JSON response: " + m)
      case Ok(v) => Ok(v)
    else Ok(Str(Text(bytes)))
  }

  /** The writer calls of the buffered path: one WriteJSON with the upstream
      status, its headers and the body, or none when reading or decoding fails. */
  function RegularCalls(json: Codec, up: Upstream): seq<Call> {
    match ReadAll(up.body)
    case Err(_) => []
    case Ok(bytes) =>
      match RegularBody(json, up.header, bytes)
      case Err(_) => []
      case Ok(v) => [WriteJSONCall(up.status, up.header, v)]
  }

  function RegularResult(json: Codec, canFlush: bool, s: State, up: Upstream): Outcome {
    match ReadAll(up.body)
    case Err(m) => Fail("failed to read response body: " + m)
    case Ok(bytes) =>
      match RegularBody(json, up.header, bytes)
      case Err(m) => Fail(m)
      case Ok(v) => CallResult(json, canFlush, s, WriteJSONCall(up.status, up.header, v))
  }

  /** handleRegularResponse */
  method HandleRegular(json: Codec, up: Upstream, writer: HttpResponseWriter) returns (err: Outcome)
    requires writer.Valid() && writer.json == json
    modifies writer, writer.w
    ensures writer.Valid()
    ensures writer.log == old(writer.log) + RegularCalls(json, up)
    ensures err == RegularResult(json, writer.w.canFlush, old(writer.Current()), up)
    ensures writer.w.body == old(writer.w.body) + Outputs(json, writer.w.canFlush, old(writer.Current()), RegularCalls(json, up))
    ensures writer.Current() == Run(old(writer.Current()), RegularCalls(json, up))
  {
    var bytes := ReadAll(up.body);
    if bytes.Err? {
      return Fail("failed to read response body: " + bytes.msg);
    }
    var headers := CopyHeaders(up.header);
    var body := RegularBody(json, up.header, bytes.value);
    if body.Err? {
      return Fail(body.msg);
    }
    err := writer.WriteJSON(up.status, headers, body.value);
  }

  // ---------------------------------------------------------------------
  // The streaming path

  /** A data event's payload: the chunk decoded as JSON when it decodes on
      its own, otherwise the chunk as a string. */
  function ChunkValue(json: Codec, chunk: seq<byte>): Value {
    match json.unmarshal(chunk)
    case Ok(v) => v
    case Err(_) => Str(Text(chunk))
  }

  /** The Stream calls for one read: a data event when it delivered bytes,
      then an error event when it returned an error other than EOF. */
  function ReadCalls(json: Codec, r: ReadResult): seq<Call> {
    (if |r.data| > 0 then [StreamCall("data", ChunkValue(json, r.data))] else []) +
    (if r.end.Failed? then [StreamCall("error", ErrorValue(r.end.msg))] else [])
  }

  /** The Stream calls of the read loop, which stops at the first read that
      returns an error (EOF included). */
  function Calls(json: Codec, rs: seq<ReadResult>): seq<Call>
    decreases |rs|
  {
    if rs == [] then []
    else ReadCalls(json, rs[0]) + if rs[0].end.More? then Calls(json, rs[1..]) else []
  }

  /** The start event's payload. */
  function StartValue(up: Upstream): Value {
    Obj(map["statuscode" := Num(up.status), "headers" := HeadersValue(up.header)])
  }

  /** The writer calls of the streaming path: the start event, and, when it
      went through, the read loop's events and End. */
  function StreamingCalls(json: Codec, canFlush: bool, up: Upstream): seq<Call> {
    [StreamCall("start", StartValue(up))] +
    if EventFrame(json, canFlush, "start", StartValue(up)).Ok? then Calls(json, up.body) + [EndCall] else []
  }

  /** The streaming path fails only when its start event does. */
  function StreamingResult(json: Codec, canFlush: bool, up: Upstream): Outcome {
    match EventFrame(json, canFlush, "start", StartValue(up))
    case Err(m) => Fail(m)
    case Ok(_) => Pass
  }

  /** handleStreamingResponse */
  method HandleStreaming(json: Codec, up: Upstream, writer: HttpResponseWriter) returns (err: Outcome)
    requires writer.Valid() && writer.json == json
    modifies writer, writer.w
    ensures writer.Valid() && writer.started
    ensures writer.log == old(writer.log) + StreamingCalls(json, writer.w.canFlush, up)
    ensures err == StreamingResult(json, writer.w.canFlush, up)
    ensures writer.w.body == old(writer.w.body) + Outputs(json, writer.w.canFlush, old(writer.Current()), StreamingCalls(json, writer.w.canFlush, up))
    ensures writer.Current() == Run(old(writer.Current()), StreamingCalls(json, writer.w.canFlush, up))
    ensures writer.w.header == if old(writer.started) then old(writer.w.header) else EventStreamHeader(old(writer.w.header))
    ensures writer.w.head == if old(writer.started) || old(writer.w.head).Some? then old(writer.w.head) else Some(Head(200, writer.w.header))
  {
    var start := StartValue(up);
    ghost var s0 := writer.Current();
    err := writer.Stream("start", start);
    if err.Fail? {
      return;
    }
    ghost var s1 := writer.Current();
    ghost var events := Calls(json, up.body);
    ghost var log1, body1 := writer.log, writer.w.body;
    RelayBody(json, up.body, writer);
    err := writer.End();
    StartThenEvents(json, s0, StreamCall("start", start), events);
    Associative(old(writer.log), [StreamCall("start", start)], events + [EndCall]);
    Associative(log1, events, [EndCall]);
    Associative(old(writer.w.body), CallOutput(json, true, s0, StreamCall("start", start)),
                Outputs(json, true, s1, events) + CallOutput(json, true, s1, EndCall));
    Associative(body1, Outputs(json, true, s1, events), CallOutput(json, true, s1, EndCall));
  }

  /** The outputs and the state of a start call followed by stream events
      and End, on a writer with a flusher. */
  lemma StartThenEvents(json: Codec, s: State, start: Call, events: seq<Call>)
    requires start.StreamCall?
    ensures var s1 := Step(s, start);
      Outputs(json, true, s, [start] + (events + [EndCall]))
        == CallOutput(json, true, s, start) + (Outputs(json, true, s1, events) + CallOutput(json, true, s1, EndCall)) &&
      Run(s, [start] + (events + [EndCall])) == s1
  {
    var s1 := Step(s, start);
    var all := [start] + (events + [EndCall]);
    assert all[0] == start && all[1..] == events + [EndCall];
    assert Outputs(json, true, s1, [EndCall]) == CallOutput(json, true, s1, EndCall);
    StreamedOutputs(json, s1, events, [EndCall]);
    StartedIsSettled(s1, events + [EndCall]);
  }

  /** The read loop of handleStreamingResponse, on a writer whose start
      event went through. */
  method RelayBody(json: Codec, rs: Body, writer: HttpResponseWriter)
    requires writer.Valid() && writer.started && writer.w.canFlush && writer.json == json
    modifies writer, writer.w
    ensures writer.Valid() && writer.started
    ensures writer.log == old(writer.log) + Calls(json, rs)
    ensures writer.w.body == old(writer.w.body) + Outputs(json, true, old(writer.Current()), Calls(json, rs))
    ensures writer.Current() == old(writer.Current())
  {
    ghost var s := writer.Current();
    ghost var logGoal := writer.log + Calls(json, rs);
    ghost var bodyGoal := writer.w.body + Outputs(json, true, s, Calls(json, rs));
    var buffer := new byte[BufferSize];
    var i := 0;
    var done := false;
    assert rs[0..] == rs;
    while !done
      invariant 0 <= i <= |rs| && (!done ==> i < |rs|)
      invariant writer.Valid() && writer.Current() == s
      invariant writer.log + Remaining(json, rs, i, done) == logGoal
      invariant writer.w.body + Outputs(json, true, s, Remaining(json, rs, i, done)) == bodyGoal
      decreases |rs| - i
    {
      var r := rs[i];
      RemainingStep(json, s, rs, i);
      ghost var log0, body0 := writer.log, writer.w.body;
      RelayRead(json, r, buffer, writer);
      done := !r.end.More?;
      i := i + 1;
      Associative(log0, ReadCalls(json, r), Remaining(json, rs, i, done));
      Associative(body0, Outputs(json, true, s, ReadCalls(json, r)), Outputs(json, true, s, Remaining(json, rs, i, done)));
    }
  }

  /** One read of the loop: its own calls, then what is left. */
  lemma RemainingStep(json: Codec, s: State, rs: seq<ReadResult>, i: nat)
    requires s.started && i < |rs|
    ensures Remaining(json, rs, i, false) == ReadCalls(json, rs[i]) + Remaining(json, rs, i + 1, !rs[i].end.More?)
    ensures Outputs(json, true, s, Remaining(json, rs, i, false))
         == Outputs(json, true, s, ReadCalls(json, rs[i])) + Outputs(json, true, s, Remaining(json, rs, i + 1, !rs[i].end.More?))
  {
    assert rs[i..][0] == rs[i] && rs[i..][1..] == rs[i + 1..];
    StreamedOutputs(json, s, ReadCalls(json, rs[i]), Remaining(json, rs, i + 1, !rs[i].end.More?));
  }

  /** The Stream calls the loop has still to make once i reads are done. */
  function Remaining(json: Codec, rs: seq<ReadResult>, i: nat, done: bool): seq<Call>
    requires i <= |rs|
  {
    if done then [] else Calls(json, rs[i..])
  }

  /** One pass of handleStreamingResponse's loop: the read lands in the
      buffer, its bytes go out as a data event, and an error other than EOF
      goes out as an error event. The errors of these Stream calls are
      ignored. */
  method RelayRead(json: Codec, r: ReadResult, buffer: array<byte>, writer: HttpResponseWriter)
    requires buffer.Length == BufferSize && |r.data| <= BufferSize
    requires writer.Valid() && writer.started && writer.w.canFlush && writer.json == json
    modifies buffer, writer, writer.w
    ensures writer.Valid() && writer.Current() == old(writer.Current())
    ensures writer.log == old(writer.log) + ReadCalls(json, r)
    ensures writer.w.body == old(writer.w.body) + Outputs(json, true, old(writer.Current()), ReadCalls(json, r))
  {
    ghost var s := writer.Current();
    var n := |r.data|;
    forall k | 0 <= k < n {
      buffer[k] := r.data[k];
    }
    ghost var data := if n > 0 then [StreamCall("data", ChunkValue(json, r.data))] else [];
    if n > 0 {
      var chunk := buffer[..n];
      assert chunk == r.data;
      var decoded := json.unmarshal(chunk);
      if decoded.Ok? {
        var _ := writer.Stream("data", decoded.value);
      } else {
        var _ := writer.Stream("data", Str(Text(chunk)));
      }
    }
    if r.end.Failed? {
      var _ := writer.Stream("error", ErrorValue(r.end.msg));
    }
    StreamedOutputs(json, s, data, if r.end.Failed? then [StreamCall("error", ErrorValue(r.end.msg))] else []);
  }

  lemma Associative<T>(a: seq<T>, b: seq<T>, c: seq<T>)
    ensures (a + b) + c == a + (b + c)
  {
  }

  /** Calls on a started writer with a flusher: their outputs concatenate. */
  lemma StreamedOutputs(json: Codec, s: State, a: seq<Call>, b: seq<Call>)
    requires s.started
    ensures Outputs(json, true, s, a + b) == Outputs(json, true, s, a) + Outputs(json, true, s, b)
  {
    OutputsAppend(json, true, s, a, b);
    StartedIsSettled(s, a);
  }

  // ---------------------------------------------------------------------
  // The whole command

  /** FetchCommand.Execute's writer calls, on a writer with or without a flusher. */
  function FetchCalls(json: Codec, net: Net, canFlush: bool, args: map<string, Value>): seq<Call> {
    match Prepare(json, net, args)
    case Err(_) => []
    case Ok(pu) => if pu.0.stream then StreamingCalls(json, canFlush, pu.1) else RegularCalls(json, pu.1)
  }

  /** FetchCommand.Execute's result. */
  function FetchResult(json: Codec, net: Net, canFlush: bool, s: State, args: map<string, Value>): Outcome {
    match Prepare(json, net, args)
    case Err(m) => Fail(m)
    case Ok(pu) => if pu.0.stream then StreamingResult(json, canFlush, pu.1) else RegularResult(json, canFlush, s, pu.1)
  }

  /** FetchCommand.Execute */
  method Execute(json: Codec, net: Net, args: map<string, Value>, writer: HttpResponseWriter) returns (err: Outcome)
    requires writer.Valid() && writer.json == json
    modifies writer, writer.w
    ensures writer.Valid()
    ensures writer.log == old(writer.log) + FetchCalls(json, net, writer.w.canFlush, args)
    ensures err == FetchResult(json, net, writer.w.canFlush, old(writer.Current()), args)
    ensures writer.w.body == old(writer.w.body) + Outputs(json, writer.w.canFlush, old(writer.Current()), FetchCalls(json, net, writer.w.canFlush, args))
    ensures writer.Current() == Run(old(writer.Current()), FetchCalls(json, net, writer.w.canFlush, args))
  {
    var p := ExtractArgs(args);
    if p.Err? {
      return Fail(p.msg);
    }
    var stream := p.value.stream;
    var body: Option<seq<byte>> := None;
    if p.value.body.Some? {
      var bytes := json.marshal(p.value.body.value);
      if bytes.Err? {
        return Fail("failed to marshal body: " + bytes.msg);
      }
      body := Some(bytes.value);
    }
    var reqErr := net.newRequest(p.value.httpMethod, p.value.url);
    if reqErr.Some? {
      return Fail("failed to create request: " + reqErr.value);
    }
    var headers := BuildRequestHeaders(args);
    var resp := net.send(OutboundRequest(p.value.httpMethod, p.value.url, body, headers));
    if resp.Err? {
      return Fail("request failed: " + resp.msg);
    }
    if stream {
      err := HandleStreaming(json, resp.value, writer);
    } else {
      err := HandleRegular(json, resp.value, writer);
    }
  }

  // ---------------------------------------------------------------------
  // What the event trace looks like

  /** The non-empty chunks the loop reads, up to and including the read
      that ends it. */
  function Chunks(rs: seq<ReadResult>): seq<seq<byte>>
    decreases |rs|
  {
    if rs == [] then []
    else (if |rs[0].data| > 0 then [rs[0].data] else []) + if rs[0].end.More? then Chunks(rs[1..]) else []
  }

  /** How the loop ends: the error of the first read that returns one. */
  function Termination(rs: seq<ReadResult>): ReadEnd
    decreases |rs|
  {
    if rs == [] then More
    else if rs[0].end.More? then Termination(rs[1..]) else rs[0].end
  }

  function DataEvents(json: Codec, chunks: seq<seq<byte>>): seq<Call>
    decreases |chunks|
  {
    if chunks == [] then [] else [StreamCall("data", ChunkValue(json, chunks[0]))] + DataEvents(json, chunks[1..])
  }

  function ErrorEvent(end: ReadEnd): seq<Call> {
    if end.Failed? then [StreamCall("error", ErrorValue(end.msg))] else []
  }

  function Concat(chunks: seq<seq<byte>>): seq<byte>
    decreases |chunks|
  {
    if chunks == [] then [] else chunks[0] + Concat(chunks[1..])
  }

  /** The loop's events are the data events of its chunks, then an error
      event exactly when it stopped on an error other than EOF. */
  lemma {:induction false} CallsShape(json: Codec, rs: seq<ReadResult>)
    ensures Calls(json, rs) == DataEvents(json, Chunks(rs)) + ErrorEvent(Termination(rs))
    decreases |rs|
  {
    if rs != [] {
      var r := rs[0];
      var first: seq<seq<byte>> := if |r.data| > 0 then [r.data] else [];
      if r.end.More? {
        CallsShape(json, rs[1..]);
        DataEventsAppend(json, first, Chunks(rs[1..]));
      } else {
        assert Chunks(rs) == first + [];
        assert first + [] == first;
      }
    }
  }

  lemma {:induction false} DataEventsAppend(json: Codec, a: seq<seq<byte>>, b: seq<seq<byte>>)
    ensures DataEvents(json, a + b) == DataEvents(json, a) + DataEvents(json, b)
    decreases |a|
  {
    if a == [] {
      assert a + b == b;
    } else {
      assert (a + b)[0] == a[0] && (a + b)[1..] == a[1..] + b;
      DataEventsAppend(json, a[1..], b);
    }
  }

  lemma {:induction false} DataEventsAt(json: Codec, chunks: seq<seq<byte>>, i: nat)
    requires i < |chunks|
    ensures |DataEvents(json, chunks)| == |chunks|
    ensures DataEvents(json, chunks)[i] == StreamCall("data", ChunkValue(json, chunks[i]))
    decreases |chunks|
  {
    if i > 0 {
      DataEventsAt(json, chunks[1..], i - 1);
    } else if |chunks| > 1 {
      DataEventsAt(json, chunks[1..], 0);
    }
  }

  /** The event trace of the read loop, position by position: one data
      event per non-empty chunk in read order, carrying the chunk decoded on
      its own or else the chunk as text, then one error event carrying the
      read error's message when the loop stopped on an error other than EOF,
      and nothing else. */
  lemma StreamEvents(json: Codec, rs: seq<ReadResult>)
    ensures var calls, chunks := Calls(json, rs), Chunks(rs);
      |calls| == |chunks| + (if Termination(rs).Failed? then 1 else 0) &&
      (forall i | 0 <= i < |chunks| :: calls[i] == StreamCall("data", ChunkValue(json, chunks[i]))) &&
      (Termination(rs).Failed? ==> calls[|chunks|] == StreamCall("error", ErrorValue(Termination(rs).msg)))
  {
    var chunks := Chunks(rs);
    CallsShape(json, rs);
    if chunks != [] {
      DataEventsAt(json, chunks, 0);
    } else {
      assert DataEvents(json, chunks) == [];
    }
    forall i | 0 <= i < |chunks|
      ensures Calls(json, rs)[i] == StreamCall("data", ChunkValue(json, chunks[i]))
    {
      DataEventsAt(json, chunks, i);
    }
  }

  /** A chunk is what one read delivered: never empty and never more than
      the buffer holds. */
  lemma {:induction false} ChunksFit(rs: seq<ReadResult>, i: nat)
    requires forall k | 0 <= k < |rs| :: |rs[k].data| <= BufferSize
    requires i < |Chunks(rs)|
    ensures 0 < |Chunks(rs)[i]| <= BufferSize
    decreases |rs|
  {
    var first: seq<seq<byte>> := if |rs[0].data| > 0 then [rs[0].data] else [];
    if i >= |first| {
      assert rs[0].end.More?;
      ChunksFit(rs[1..], i - |first|);
    }
  }

  /** The streaming and the buffered path see the same bytes: the data events'
      chunks, concatenated, are what io.ReadAll returns when the body ends in
      EOF, and io.ReadAll fails with the read error the stream reports. */
  lemma {:induction false} ReadAllIsChunks(rs: seq<ReadResult>)
    ensures Termination(rs) == Eof ==> ReadAll(rs) == Ok(Concat(Chunks(rs)))
    ensures Termination(rs).Failed? ==> ReadAll(rs) == Err(Termination(rs).msg)
    decreases |rs|
  {
    if rs != [] {
      var r := rs[0];
      var first: seq<seq<byte>> := if |r.data| > 0 then [r.data] else [];
      ConcatAppend(first, if r.end.More? then Chunks(rs[1..]) else []);
      if r.end.More? {
        ReadAllIsChunks(rs[1..]);
      }
      assert Concat(first) == r.data;
    }
  }

  lemma {:induction false} ConcatAppend(a: seq<seq<byte>>, b: seq<seq<byte>>)
    ensures Concat(a + b) == Concat(a) + Concat(b)
    decreases |a|
  {
    if a == [] {
      assert a + b == b;
    } else {
      assert (a + b)[0] == a[0] && (a + b)[1..] == a[1..] + b;
      ConcatAppend(a[1..], b);
    }
  }

  /** An upstream body always ends in EOF or an error. */
  lemma {:induction false} BodyTerminates(rs: seq<ReadResult>)
    requires |rs| > 0 && !rs[|rs| - 1].end.More?
    ensures !Termination(rs).More?
    decreases |rs|
  {
    if rs[0].end.More? {
      assert rs[1..][|rs| - 2] == rs[|rs| - 1];
      BodyTerminates(rs[1..]);
    }
  }

  /** The streaming trace: the start event first and only there, then only
      data and error events, and End last. When the start event fails the
      trace is that one call. */
  lemma StreamingTrace(json: Codec, canFlush: bool, up: Upstream)
    ensures var calls := StreamingCalls(json, canFlush, up);
      calls[0] == StreamCall("start", StartValue(up)) &&
      (EventFrame(json, canFlush, "start", StartValue(up)).Err? ==> |calls| == 1) &&
      (EventFrame(json, canFlush, "start", StartValue(up)).Ok? ==>
        |calls| >= 2 && calls[|calls| - 1] == EndCall &&
        forall i | 0 < i < |calls| - 1 :: calls[i].StreamCall? && calls[i].eventType in {"data", "error"})
  {
    if EventFrame(json, canFlush, "start", StartValue(up)).Ok? {
      var events := Calls(json, up.body);
      var calls := [StreamCall("start", StartValue(up))] + events + [EndCall];
      assert StreamingCalls(json, canFlush, up) == calls;
      EventsAreDataOrError(json, up.body);
      forall i | 0 < i < |calls| - 1
        ensures calls[i].StreamCall? && calls[i].eventType in {"data", "error"}
      {
        assert calls[i] == events[i - 1];
      }
    }
  }

  /** Every call of the read loop is a data or an error event. */
  lemma EventsAreDataOrError(json: Codec, rs: seq<ReadResult>)
    ensures forall i | 0 <= i < |Calls(json, rs)| ::
      Calls(json, rs)[i].StreamCall? && Calls(json, rs)[i].eventType in {"data", "error"}
  {
    var calls, chunks := Calls(json, rs), Chunks(rs);
    StreamEvents(json, rs);
    forall i | 0 <= i < |calls| ensures calls[i].StreamCall? && calls[i].eventType in {"data", "error"} {
      if i < |chunks| {
        assert calls[i] == StreamCall("data", ChunkValue(json, chunks[i]));
      } else {
        assert calls[i] == StreamCall("error", ErrorValue(Termination(rs).msg));
      }
    }
  }

  /** A fetch uses one output mode: its writer calls never mix a WriteJSON
      with a Stream, and a WriteJSON is its only call. */
  lemma OneOutputMode(json: Codec, net: Net, canFlush: bool, args: map<string, Value>)
    ensures var calls := FetchCalls(json, net, canFlush, args);
      (forall i | 0 <= i < |calls| && calls[i].WriteJSONCall? :: |calls| == 1) &&
      (forall i, j | 0 <= i < |calls| && 0 <= j < |calls| :: !(calls[i].WriteJSONCall? && calls[j].StreamCall?))
  {
    var calls := FetchCalls(json, net, canFlush, args);
    match Prepare(json, net, args)
    case Err(_) =>
    case Ok(pu) =>
      if pu.0.stream {
        StreamingTrace(json, canFlush, pu.1);
        assert forall i | 0 <= i < |calls| :: !calls[i].WriteJSONCall? by {
          forall i | 0 <= i < |calls| ensures !calls[i].WriteJSONCall? {
            if 0 < i < |calls| - 1 {
              assert calls[i].StreamCall?;
            }
          }
        }
      }
  }

  /** Execute leaves a writer that had not started unstarted only when it
      made no call at all; every failure before the upstream response
      arrives is such a case. */
  lemma UnstartedMeansUntouched(json: Codec, net: Net, canFlush: bool, s: State, args: map<string, Value>)
    requires !s.started
    ensures !Run(s, FetchCalls(json, net, canFlush, args)).started <==> FetchCalls(json, net, canFlush, args) == []
    ensures Prepare(json, net, args).Err? ==> FetchCalls(json, net, canFlush, args) == []
  {
    var calls := FetchCalls(json, net, canFlush, args);
    if calls != [] {
      assert !calls[0].EndCall?;
      StartedIsSettled(Step(s, calls[0]), calls[1..]);
    }
  }

  /** A streaming fetch on a connection without a flusher: the start call
      fails with "streaming not supported", yet it has already marked the
      writer started, so nothing reaches the body and the caller's
      not-started check will not turn the failure into an error response. */
  lemma NoFlusherStreamIsSilent(json: Codec, net: Net, s: State, args: map<string, Value>)
    requires !s.started
    requires Prepare(json, net, args).Ok? && Prepare(json, net, args).value.0.stream
    ensures var calls := FetchCalls(json, net, false, args);
      calls == [StreamCall("start", StartValue(Prepare(json, net, args).value.1))] &&
      FetchResult(json, net, false, s, args) == Fail(StreamingNotSupported) &&
      Outputs(json, false, s, calls) == [] &&
      Run(s, calls).started
  {
    var calls := FetchCalls(json, net, false, args);
    assert calls[1..] == [];
  }

  /** The response a fetch leaves on a fresh connection once it has made a
      writer call: a streaming fetch sends status 200 with the event-stream
      headers, a buffered one the upstream status with the upstream headers
      added and Content-Type application/json. */
  lemma FetchResponseHead(json: Codec, net: Net, canFlush: bool, h: Headers, args: map<string, Value>)
    requires Prepare(json, net, args).Ok?
    ensures var calls := FetchCalls(json, net, canFlush, args);
      var p, up := Prepare(json, net, args).value.0, Prepare(json, net, args).value.1;
      var header := if p.stream then EventStreamHeader(h) else JsonHeader(h, up.header);
      var status := if p.stream then 200 else up.status;
      Run(State(false, h, None), calls) ==
        if calls == [] then State(false, h, None) else State(true, header, Some(Head(status, header)))
  {
    var s := State(false, h, None);
    var calls := FetchCalls(json, net, canFlush, args);
    if calls != [] {
      StartedIsSettled(Step(s, calls[0]), calls[1..]);
    }
  }

  /** A buffered fetch of an upstream 1xx, 204 or 304 response: WriteJSON
      starts the writer and sends that status, but the envelope is refused
      as a body the status does not allow. The command fails after the
      writer started, so the client gets the bare status. */
  lemma NoBodyStatusRefused(json: Codec, net: Net, canFlush: bool, h: Headers, args: map<string, Value>)
    requires Prepare(json, net, args).Ok? && !Prepare(json, net, args).value.0.stream
    requires var up := Prepare(json, net, args).value.1;
      (100 <= up.status <= 199 || up.status == 204 || up.status == 304) && RegularCalls(json, up) != [] &&
      json.marshal(EnvelopeValue(up.status, up.header, RegularCalls(json, up)[0].body)).Ok?
    ensures var s, calls := State(false, h, None), FetchCalls(json, net, canFlush, args);
      FetchResult(json, net, canFlush, s, args) == Fail(BodyNotAllowed) &&
      Outputs(json, canFlush, s, calls) == [] &&
      Run(s, calls).started
  {
    var s := State(false, h, None);
    var calls := FetchCalls(json, net, canFlush, args);
    assert calls[1..] == [];
  }
}
