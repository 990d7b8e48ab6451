/** main.go: loading the command table from the commands directory, and the
    HTTP handler that decodes a request, looks its command up and runs it
    against a fresh response writer. */
module Server {
  import opened Results
  import opened Json
  import opened Http
  import opened Writer
  import opened Registry
  import opened Fetch

  // ---------------------------------------------------------------------
  // loadCommands

  /** filepath.Ext: the suffix from the last '.' of the final path element,
      or "" when that element has no '.'. */
  function Ext(path: string): string {
    ExtBefore(path, |path|)
  }

  function ExtBefore(path: string, i: nat): string
    requires i <= |path|
  {
    if i == 0 || path[i - 1] == '/' then ""
    else if path[i - 1] == '.' then path[i - 1..]
    else ExtBefore(path, i - 1)
  }

  /** filepath.Base of a name that holds no path separator (a directory
      entry's name): the name itself, or "." for the empty name. */
  function Base(name: string): string {
    if name == "" then "." else name
  }

  /** The command name loadCommands derives from a file name: the name
      without its last three characters, through filepath.Base. */
  function CommandName(file: string): string
    requires |file| >= 3
  {
    Base(file[..|file| - 3])
  }

  /** An extension is a suffix of the path. */
  lemma {:induction false} ExtBeforeIsSuffix(path: string, i: nat)
    requires i <= |path|
    ensures var r := ExtBefore(path, i); |r| <= |path| && r == path[|path| - |r|..]
    decreases i
  {
    if !(i == 0 || path[i - 1] == '/' || path[i - 1] == '.') {
      ExtBeforeIsSuffix(path, i - 1);
    }
  }

  /** A file name has the extension ".go" exactly when it ends in ".go". */
  lemma GoExtension(file: string)
    ensures Ext(file) == ".go" <==> |file| >= 3 && file[|file| - 3..] == ".go"
  {
    if |file| >= 3 && file[|file| - 3..] == ".go" {
      GoSuffixIsExtension(file);
    }
    ExtBeforeIsSuffix(file, |file|);
  }

  lemma GoSuffixIsExtension(file: string)
    requires |file| >= 3 && file[|file| - 3..] == ".go"
    ensures Ext(file) == ".go"
  {
    var n := |file|;
    var suffix := file[n - 3..];
    assert suffix[0] == file[n - 3] && suffix[1] == file[n - 2] && suffix[2] == file[n - 1];
    assert ExtBefore(file, n - 2) == suffix;
    assert ExtBefore(file, n - 1) == suffix;
  }

  /** The file names that loadCommands turns into a command name. */
  predicate IsCommandFile(f: string) {
    Ext(f) == ".go" && |f| >= 3
  }

  /** The commands loadCommands adds for the given directory entries, in order. */
  function Loaded(files: seq<string>, entries: map<string, Command>): map<string, Command> {
    if files == [] then map[]
    else
      var f := files[|files| - 1];
      var before := Loaded(files[..|files| - 1], entries);
      if IsCommandFile(f) && CommandName(f) in entries then before[CommandName(f) := entries[CommandName(f)]]
      else before
  }

  /** One more directory entry looked at. */
  lemma LoadedStep(files: seq<string>, i: nat, entries: map<string, Command>)
    requires i < |files|
    ensures var f, before := files[i], Loaded(files[..i], entries);
      Loaded(files[..i + 1], entries) ==
        if IsCommandFile(f) && CommandName(f) in entries then before[CommandName(f) := entries[CommandName(f)]] else before
  {
    assert files[..i + 1][..i] == files[..i];
  }

  lemma UnionUpdate<K, V>(a: map<K, V>, b: map<K, V>, k: K, v: V)
    ensures (a + b)[k := v] == a + b[k := v]
  {
  }

  /** The file f names the command n: f ends in ".go" and n is what is left. */
  predicate Names(f: string, n: string) {
    |f| >= 3 && f[|f| - 3..] == ".go" && Base(f[..|f| - 3]) == n
  }

  /** A name ends up in the table exactly when some ".go" file carries it,
      after dropping the extension, and the registry knows it; it is then
      bound to the registry's handler. */
  lemma {:induction false} LoadedNames(files: seq<string>, entries: map<string, Command>, n: string)
    ensures n in Loaded(files, entries) <==> n in entries && exists f | f in files :: Names(f, n)
    ensures n in Loaded(files, entries) ==> Loaded(files, entries)[n] == entries[n]
  {
    if files != [] {
      var init := files[..|files| - 1];
      var f := files[|files| - 1];
      LoadedNames(init, entries, n);
      LoadedLast(init, f, entries, n);
      assert files == init + [f];
      SomeFileNames(init, f, n);
    }
  }

  /** The last directory entry adds its command, if it names one the registry knows. */
  lemma LoadedLast(init: seq<string>, f: string, entries: map<string, Command>, n: string)
    ensures n in Loaded(init + [f], entries) <==> n in Loaded(init, entries) || (Names(f, n) && n in entries)
    ensures n in Loaded(init + [f], entries) ==>
      Loaded(init + [f], entries)[n] == if Names(f, n) && n in entries then entries[n] else Loaded(init, entries)[n]
  {
    var files := init + [f];
    assert files[..|files| - 1] == init && files[|files| - 1] == f;
    GoExtension(f);
    assert IsCommandFile(f) && CommandName(f) == n <==> Names(f, n);
  }

  lemma SomeFileNames(init: seq<string>, f: string, n: string)
    ensures (exists g | g in init + [f] :: Names(g, n)) <==> (exists g | g in init :: Names(g, n)) || Names(f, n)
  {
    if exists g | g in init + [f] :: Names(g, n) {
      var g :| g in init + [f] && Names(g, n);
      if g != f {
        assert g in init;
      }
    }
    if Names(f, n) {
      assert f in init + [f];
    }
    if exists g | g in init :: Names(g, n) {
      var g :| g in init && Names(g, n);
      assert g in init + [f];
    }
  }

  /** The global state of main.go: the CORS setting and the command table. */
  class Server {
    /** The -cors flag; "" when CORS is not configured. */
    const cors: string
    var commands: map<string, Command>

    constructor (cors: string)
      ensures this.cors == cors && commands == map[]
    {
      this.cors := cors;
      commands := map[];
    }

    /** loadCommands, over the outcome of reading the commands directory. */
    method LoadCommands(dir: Result<seq<string>>, registry: CommandRegistry<Command>) returns (err: Outcome)
      modifies this`commands
      ensures dir.Err? ==> err == Fail("failed to read commands directory: " + dir.msg) && commands == old(commands)
      ensures dir.Ok? ==> err == Pass && commands == old(commands) + Loaded(dir.value, registry.entries)
    {
      if dir.Err? {
        return Fail("failed to read commands directory: " + dir.msg);
      }
      LoadFiles(dir.value, registry);
      return Pass;
    }

    /** The loop of loadCommands over the directory entries. */
    method LoadFiles(files: seq<string>, registry: CommandRegistry<Command>)
      modifies this`commands
      ensures commands == old(commands) + Loaded(files, registry.entries)
    {
      ghost var c0 := commands;
      var i := 0;
      while i < |files|
        invariant 0 <= i <= |files|
        invariant commands == c0 + Loaded(files[..i], registry.entries)
      {
        var name := files[i];
        LoadedStep(files, i, registry.entries);
        if IsCommandFile(name) {
          var cmdName := CommandName(name);
          var cmd := registry.GetCommand(cmdName);
          if cmd.Some? {
            UnionUpdate(c0, Loaded(files[..i], registry.entries), cmdName, cmd.value);
            commands := commands[cmdName := cmd.value];
          }
        }
        i := i + 1;
      }
      assert files[..i] == files;
    }

    // -------------------------------------------------------------------
    // handleRequest

    /** handleRequest on one connection: the HTTP method, the outcome of
        decoding the body, and the codec and network the command uses. The
        ghost results are the handler's writer calls and result, when one ran. */
    method HandleRequest(httpMethod: string, decoded: Result<Request>, json: Codec, net: Net, w: Response)
      returns (ghost calls: seq<Call>, ghost result: Outcome)
      requires w.head.None? && w.body == []
      modifies w
      ensures var route := RouteOf(cors, httpMethod, decoded, commands);
        (route.Preflight? ==> w.head == Some(Head(200, CorsHeader(old(w.header), cors))) && w.body == []) &&
        (route.NotAllowed? ==>
          w.header == PlainTextHeader(WithCors(cors, old(w.header))) && w.head == Some(Head(405, w.header)) &&
          w.body == [PlainText("Method not allowed" + "\n")]) &&
        (route.BadRequest? ==> ErrorSent(cors, json, WithCors(cors, old(w.header)), 400, "Invalid request format", w.header, w.head, w.body)) &&
        (route.NotFound? ==> ErrorSent(cors, json, WithCors(cors, old(w.header)), 404, "Command not found", w.header, w.head, w.body))
      ensures var route := RouteOf(cors, httpMethod, decoded, commands);
        var s0 := State(false, WithCors(cors, old(w.header)), None);
        route.Dispatch? ==>
          calls == FetchCalls(json, net, w.canFlush, route.args) &&
          result == FetchResult(json, net, w.canFlush, s0, route.args) &&
          if result.Fail? && calls == [] then
            ErrorSent(cors, json, WithCors(cors, old(w.header)), 500, result.msg, w.header, w.head, w.body)
          else
            w.body == Outputs(json, w.canFlush, s0, calls) &&
            w.header == Run(s0, calls).header && w.head == Run(s0, calls).head
    {
      calls, result := [], Pass;
      if cors != "" {
        SetCORSHeaders(w, cors);
        if httpMethod == "OPTIONS" {
          w.WriteHeader(200);
          return;
        }
      }

      if httpMethod != "POST" {
        HttpError(w, "Method not allowed", 405);
        return;
      }

      if decoded.Err? {
        SendError(w, 400, "Invalid request format", json);
        return;
      }
      var req := decoded.value;

      if req.cmd !in commands {
        SendError(w, 404, "Command not found", json);
        return;
      }
      calls, result := RunCommand(commands[req.cmd], req.args, json, net, w);
    }

    /** The end of handleRequest: run the command on a fresh writer, and
        turn its failure into a 500 error envelope only when it made no
        writer call. */
    method RunCommand(cmd: Command, args: map<string, Value>, json: Codec, net: Net, w: Response)
      returns (ghost calls: seq<Call>, ghost result: Outcome)
      requires w.head.None? && w.body == []
      modifies w
      ensures var s0 := State(false, old(w.header), None);
        calls == FetchCalls(json, net, w.canFlush, args) &&
        result == FetchResult(json, net, w.canFlush, s0, args) &&
        if result.Fail? && calls == [] then
          ErrorSent(cors, json, old(w.header), 500, result.msg, w.header, w.head, w.body)
        else
          w.body == Outputs(json, w.canFlush, s0, calls) &&
          w.header == Run(s0, calls).header && w.head == Run(s0, calls).head
    {
      var responseWriter := new HttpResponseWriter(w, json);
      ghost var s0 := responseWriter.Current();
      var err: Outcome;
      match cmd
      case FetchCommand =>
        err := Execute(json, net, args, responseWriter);
      calls, result := FetchCalls(json, net, w.canFlush, args), err;
      UnstartedMeansUntouched(json, net, w.canFlush, s0, args);
      if err.Fail? {
        if !responseWriter.started {
          SendError(w, 500, err.msg, json);
        }
      }
    }

    /** sendError */
    method SendError(w: Response, status: int, message: string, json: Codec)
      modifies w
      ensures w.header == ErrorHeader(cors, old(w.header))
      ensures w.head == if old(w.head).None? then Some(Head(status, w.header)) else old(w.head)
      ensures w.body == old(w.body) + if BodyAllowed(w.head) then ErrorOutput(json, status, message) else []
    {
      if cors != "" {
        SetCORSHeaders(w, cors);
      }
      var resp := ErrorEnvelope(status, message);
      w.Set("Content-Type", "application/json");
      w.WriteHeader(status);
      var bytes := json.marshal(resp);
      if bytes.Ok? {
        var _ := w.Write(Envelope(resp, bytes.value));
      }
    }

  }

  /** The decoded request body `{cmd, args}`. */
  datatype Request = Request(cmd: string, args: map<string, Value>)

  /** Which way handleRequest goes. */
  datatype Route =
    | Preflight
    | NotAllowed
    | BadRequest
    | NotFound
    | Dispatch(cmd: Command, args: map<string, Value>)

  /** The branches of handleRequest before the handler runs: a CORS preflight
      is answered only when CORS is configured, every other method but POST
      is refused, then the body must decode and the command must exist. */
  function RouteOf(cors: string, httpMethod: string, decoded: Result<Request>, commands: map<string, Command>): (r: Route)
    ensures r.Preflight? <==> cors != "" && httpMethod == "OPTIONS"
    ensures r.NotAllowed? <==> httpMethod != "POST" && !(cors != "" && httpMethod == "OPTIONS")
    ensures r.BadRequest? <==> httpMethod == "POST" && decoded.Err?
    ensures r.NotFound? <==> httpMethod == "POST" && decoded.Ok? && decoded.value.cmd !in commands
    ensures r.Dispatch? <==> httpMethod == "POST" && decoded.Ok? && decoded.value.cmd in commands
    ensures r.Dispatch? ==> r.cmd == commands[decoded.value.cmd] && r.args == decoded.value.args
  {
    if cors != "" && httpMethod == "OPTIONS" then Preflight
    else if httpMethod != "POST" then NotAllowed
    else if decoded.Err? then BadRequest
    else if decoded.value.cmd !in commands then NotFound
    else Dispatch(commands[decoded.value.cmd], decoded.value.args)
  }

  /** setCORSHeaders */
  function CorsHeader(h: Headers, origin: string): Headers {
    h["Access-Control-Allow-Origin" := [origin]]
     ["Access-Control-Allow-Methods" := ["POST, OPTIONS"]]
     ["Access-Control-Allow-Headers" := ["Content-Type, Accept, sentry-trace, traceparent, baggage"]]
     ["Access-Control-Max-Age" := ["86400"]]
  }

  /** The header after the CORS headers are set when CORS is configured. */
  function WithCors(cors: string, h: Headers): Headers {
    if cors != "" then CorsHeader(h, cors) else h
  }

  method SetCORSHeaders(w: Response, origin: string)
    modifies w`header
    ensures w.header == CorsHeader(old(w.header), origin)
  {
    w.Set("Access-Control-Allow-Origin", origin);
    w.Set("Access-Control-Allow-Methods", "POST, OPTIONS");
    w.Set("Access-Control-Allow-Headers", "Content-Type, Accept, sentry-trace, traceparent, baggage");
    w.Set("Access-Control-Max-Age", "86400");
  }

  /** The header http.Error sends. */
  function PlainTextHeader(h: Headers): Headers {
    h["Content-Type" := ["text/plain; charset=utf-8"]]["X-Content-Type-Options" := ["nosniff"]]
  }

  /** http.Error: a plain-text body with the message and a newline. */
  method HttpError(w: Response, message: string, status: int)
    modifies w
    ensures w.header == PlainTextHeader(old(w.header))
    ensures w.head == if old(w.head).None? then Some(Head(status, w.header)) else old(w.head)
    ensures w.body == old(w.body) + if BodyAllowed(w.head) then [PlainText(message + "\n")] else []
  {
    w.Set("Content-Type", "text/plain; charset=utf-8");
    w.Set("X-Content-Type-Options", "nosniff");
    w.WriteHeader(status);
    var _ := w.Write(PlainText(message + "\n"));
  }

  /** The header sendError leaves. */
  function ErrorHeader(cors: string, h: Headers): Headers {
    WithCors(cors, h)["Content-Type" := ["application/json"]]
  }

  /** The state of a fresh response after sendError(status, message),
      given its header before the call. */
  predicate ErrorSent(cors: string, json: Codec, h0: Headers, status: int, message: string,
                      header: Headers, head: Option<Head>, body: seq<Output>)
  {
    header == ErrorHeader(cors, h0) &&
    head == Some(Head(status, header)) &&
    body == ErrorOutput(json, status, message)
  }

  /** The error envelope of sendError. */
  function ErrorEnvelope(status: int, message: string): Value {
    EnvelopeValue(status, map["Content-Type" := ["application/json"]], ErrorValue(message))
  }

  /** What sendError writes to the body: the envelope, when it marshals. */
  function ErrorOutput(json: Codec, status: int, message: string): seq<Output> {
    match json.marshal(ErrorEnvelope(status, message))
    case Ok(bs) => [Envelope(ErrorEnvelope(status, message), bs)]
    case Err(_) => []
  }
}
