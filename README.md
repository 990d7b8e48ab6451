# command-server, modelled in Dafny

command-server is a small HTTP server. A client POSTs `{cmd, args}` to it.
The server looks `cmd` up in a command table, which it filled at startup
from the `.go` files of its `commands` directory and the package-level
registry. It then runs the command against a response writer.

The writer offers two exclusive output modes:

- `WriteJSON` sends one buffered envelope `{statuscode, headers, body}`.
- `Stream` and `End` send an event stream (`text/event-stream`).

The one command, `fetch`, reads its parameters out of `args` and makes one
outbound HTTP request. It relays the upstream response either as an
envelope or as the event stream `start, data*, error?, end`.

The model has seven modules:

- `Results`: Go's `(T, error)` and `error` as `Result` and `Outcome`, holding
  the error's message.
- `Json`: dynamic values and an abstract codec. `marshal` and `unmarshal` are
  given functions that may fail.
- `Http`: the part of `net/http` the server writes through. It is a header
  multimap and a `Response` class recording the status line (with the header
  sent with it) and the body outputs. A body write after a 1xx, 204 or 304
  status is refused with `http.ErrBodyNotAllowed`.
- `Writer`: `httpResponseWriter` as a class. A ghost `log` records every call
  made through the `ResponseWriter` interface. Pure step functions over the
  writer's state (its flag, the response header and the status line) say what
  each call returns (`CallResult`), writes (`CallOutput`) and leaves (`Step`).
  `Outputs` and `Run` extend them to any sequence of calls. The event-stream
  wire format has a reader and a round trip.
- `Registry`: the command registry as a class over a map.
- `Fetch`: `FetchCommand.Execute` and its two response paths. Each method is
  proved against a function giving its writer calls (`FetchCalls`,
  `StreamingCalls`, `RegularCalls`). Lemmas state what those traces look like.
- `Server`: `loadCommands`, `handleRequest`, `sendError` and `setCORSHeaders`
  over a `Server` class holding the CORS setting and the command table.

The outbound network, reading the commands directory and decoding the
request body are parameters:

- `Net.newRequest` gives the error `http.NewRequest` reports, if any.
- `Net.send` gives the outcome of `client.Do`.
- `LoadCommands` receives the outcome of `os.ReadDir` as a list of names.
- `HandleRequest` receives the outcome of decoding the request body.

The upstream body is the list of results its successive `Read` calls
return. Each result is the bytes delivered plus none, EOF or another error.

The writer is modelled as the code behaves, not as an idealised one-shot
lifecycle:

- The writer has no "ended" state. `End` does not stop later calls.
- `Stream` after `WriteJSON` is not refused. It writes an event frame after
  the envelope.
- `WriteJSON` after `Stream` is refused with "response already started".
- "Streaming not supported" is not fatal to the request. `Stream` marks the
  writer started before it checks for a flusher. So a streaming fetch on a
  connection without a flusher ends as a 200 event-stream response with an
  empty body, and no error envelope is sent (`Fetch.NoFlusherStreamIsSilent`).
- A buffered fetch of an upstream 1xx, 204 or 304 response sends that status.
  The envelope is then refused as a body the status does not allow. The
  command fails after the writer has started, so the client gets the bare
  status and no error envelope (`Fetch.NoBodyStatusRefused`).

## Model

| member | source | states |
|---|---|---|
| Writer.HttpResponseWriter.constructor | main.go:26-29 | a new writer over a response has not started, and its flusher is the response's |
| Writer.HttpResponseWriter.WriteJSON | main.go:31-50 | a started writer refuses with "response already started" and changes nothing on the response; otherwise the writer starts, every given header value is added, Content-Type is set to application/json, the status is written, and the envelope {statuscode, headers, body} is written when it marshals; a marshal error, or the refusal of a body after a 1xx, 204 or 304 status, is returned |
| Writer.HttpResponseWriter.Stream | main.go:52-73 | the first call sets the three event-stream headers and status 200; without a flusher it fails with "streaming not supported" and writes nothing; a marshal error is returned; otherwise one event frame with the type and the marshalled data is written |
| Writer.HttpResponseWriter.End | main.go:75-84 | fails with "response not started" on a writer that never started; otherwise writes the end frame when there is a flusher and succeeds; never changes the flag, the header or the status |
| Writer.OutputsAppend | main.go:31-84 | the outputs of two call sequences made one after the other are the first's outputs followed by the second's, the second started from the state (flag, header, status) the first leaves |
| Writer.StartedIsSettled | main.go:32-35 | once a writer has started, no call changes its flag, the response header or the status line |
| Writer.EnvelopeOnlyFirst | main.go:32-35 | whatever calls a handler makes, an envelope can only be the first output of a writer that had not started, so at most one envelope is ever written |
| Writer.EndBeforeStartWritesNothing | main.go:76-78 | End calls on a writer that never started write nothing and change neither its flag nor the header nor the status |
| Writer.FrameRoundTrip | main.go:70 | an event frame reads back as its event type and its JSON text, provided neither holds a line break |
| Writer.FrameParsed | main.go:70 | every text the event-frame reader accepts is exactly one frame of the form `event: T`, `data: D`, blank line |
| Writer.FrameReadsBack | main.go:70 | the event-stream frame of a type and a data text reads back as that type and text, provided neither holds a line break |
| Writer.EndFrame | main.go:80 | the end frame reads back as event `end` with data `{}` |
| Http.Response.AddAll | main.go:37-41 | the header afterwards holds, for every key, its old values followed by all the given values in order |
| Http.Response.AddValues | main.go:38-40 | adding the values of one key appends them in order after that key's old values |
| Http.Response.Set | main.go:42 | replaces every value under the key with the one value |
| Http.Response.WriteHeader | main.go:43 | only the first status written takes effect, and it is sent with the header as it is at that moment |
| Http.Response.Write | main.go:70 | a body write before any status implies status 200; after a 1xx, 204 or 304 status it is refused with http.ErrBodyNotAllowed and appends nothing, otherwise it appends its output |
| Json.TextInjective | commands/fetch.go:89 | reading bytes as a string loses nothing: equal texts come from equal bytes |
| Registry.CommandRegistry.constructor | commands/registry.go:13 | the registry starts empty |
| Registry.CommandRegistry.RegisterCommand | commands/registry.go:15-17 | binds the name to the handler, replacing an earlier binding, and leaves every other name's lookup as it was |
| Registry.CommandRegistry.GetCommand | commands/registry.go:19-21 | returns a handler exactly when the name is registered, and it is the registered one; otherwise nil |
| Registry.LastRegistrationWins | commands/registry.go:15-17 | after a series of registrations, a name is bound exactly when it was registered, and to the handler of its last registration |
| Registry.RegisterAll | commands/registry.go:15-17 | registering a list in order yields the registry that LastRegistrationWins describes |
| Registry.Init | commands/fetch.go:130-132 | package initialisation leaves exactly `fetch` registered |
| Fetch.ExtractArgs | commands/fetch.go:14-34 | fails exactly when `method` or `url` is missing or not a string, and reports `method` first; `stream` counts only as the boolean true; `body` is sent whenever the key is present |
| Fetch.ExtractArgsRoundTrip | commands/fetch.go:15-49 | parameters and string headers put into an argument map are read back unchanged |
| Fetch.BuildRequestHeaders | commands/fetch.go:42-49 | the outbound headers are exactly the string-valued entries of `args["headers"]`, each with its one value; anything else is ignored |
| Fetch.CopyHeaders | commands/fetch.go:111-115 | the copied header map equals the upstream one |
| Fetch.Outbound | commands/fetch.go:27-49 | a request that goes out carries the method, the URL, the headers from `args`, and a body exactly when `args` has one, and that body is the marshalled `body` argument |
| Fetch.OutboundBodyRoundTrip | commands/fetch.go:28-34 | with a codec whose unmarshal undoes its marshal, the outbound body decodes back to the `body` argument |
| Fetch.RegularBody | commands/fetch.go:117-125 | when Content-Type is exactly application/json the envelope body is the decoded JSON, and a decode failure is an error; otherwise it is the raw body as a string |
| Fetch.HandleRegular | commands/fetch.go:104-128 | a read error fails with "failed to read response body" and a JSON decode error fails, both without a writer call; otherwise one WriteJSON with the upstream status, headers and body; the writer's flag, header and status afterwards are those that call leaves |
| Fetch.HandleStreaming | commands/fetch.go:68-102 | writes the start event with the upstream status and headers; returns its error without further calls when it fails; otherwise relays the body's events and calls End; the event-stream headers and status 200 are sent by the start call and kept to the end |
| Fetch.RelayBody | commands/fetch.go:78-99 | the read loop makes exactly the Stream calls of the reads up to and including the first one that returns an error, and leaves the writer's flag, header and status as they were |
| Fetch.RelayRead | commands/fetch.go:81-98 | one read goes through the 1024-byte buffer; its bytes, if any, go out as a data event, decoded as JSON when they decode on their own and as text otherwise; an error other than EOF then goes out as an error event; the errors of these Stream calls are ignored |
| Fetch.Execute | commands/fetch.go:13-66 | the writer calls and the result are those of the argument checks, body marshalling, request creation and send, in that order, then of the streaming or the buffered path as `stream` says; the writer's flag, header and status afterwards are those the calls leave, and untouched when no call is made |
| Fetch.CallsShape | commands/fetch.go:80-99 | the loop's events are one data event per non-empty chunk, then an error event exactly when it stopped on an error other than EOF |
| Fetch.StreamEvents | commands/fetch.go:80-99 | position by position: the i-th event carries the i-th chunk, and the last one the read error's message when the loop stopped on one |
| Fetch.ChunksFit | commands/fetch.go:79-83 | every chunk relayed is non-empty and at most 1024 bytes |
| Fetch.ReadAllIsChunks | commands/fetch.go:80-99 | the streamed chunks, concatenated, are what io.ReadAll returns when the body ends in EOF, and io.ReadAll fails with the same read error the stream reports |
| Fetch.BodyTerminates | commands/fetch.go:92-98 | a body whose last read is terminal stops the loop at EOF or an error |
| Fetch.StreamingTrace | commands/fetch.go:68-102 | the streaming trace is the start event first, only data and error events after it, and End last; it is the start event alone when that fails |
| Fetch.EventsAreDataOrError | commands/fetch.go:80-99 | every call of the read loop is a Stream call with event type `data` or `error` |
| Fetch.OneOutputMode | commands/fetch.go:59-65 | a fetch never mixes WriteJSON with Stream calls, and a WriteJSON is its only call |
| Fetch.UnstartedMeansUntouched | commands/fetch.go:13-56 | a fetch leaves an unstarted writer unstarted exactly when it made no writer call, and every failure before the upstream response is such a case |
| Fetch.NoFlusherStreamIsSilent | commands/fetch.go:68-76 | a streaming fetch on a connection without a flusher fails with "streaming not supported" after one start call that wrote nothing but started the writer |
| Fetch.FetchResponseHead | commands/fetch.go:59-65 | on a fresh response, a fetch that made a writer call leaves the writer started with status 200 and the event-stream headers when streaming, and with the upstream status and the upstream headers plus Content-Type application/json when buffered |
| Fetch.NoBodyStatusRefused | commands/fetch.go:127 | a buffered fetch of an upstream 1xx, 204 or 304 response starts the writer and sends that status, but its envelope is refused with http.ErrBodyNotAllowed and nothing reaches the body |
| Server.GoExtension | main.go:100 | filepath.Ext of a name is ".go" exactly when the name ends in ".go" |
| Server.LoadedNames | main.go:99-107 | a name enters the command table exactly when the registry knows it and some directory entry ends in ".go" and the rest of it, through filepath.Base, is the name; it is bound to the registry's handler |
| Server.Server.constructor | main.go:86-90 | the command table starts empty, with the given CORS setting |
| Server.Server.LoadCommands | main.go:92-109 | a directory read error is reported with its message and changes nothing; otherwise the table gains the loaded commands |
| Server.Server.LoadFiles | main.go:99-107 | the loop over the directory entries adds exactly the loaded commands to the table |
| Server.RouteOf | main.go:118-143 | a preflight is answered only when CORS is configured and the method is OPTIONS; any other non-POST method is refused; then an undecodable body is a bad request, an unknown command is not found, and otherwise the command runs |
| Server.Server.HandleRequest | main.go:118-151 | preflight: 200 with the CORS headers and no body; other non-POST: 405 with http.Error's header and "Method not allowed"; bad body: a 400 error envelope; unknown command: a 404 error envelope; otherwise the command's writer calls, with the header, status and body they leave, and a 500 error envelope with the command's message only when it failed without any writer call |
| Server.Server.RunCommand | main.go:145-150 | the command runs on a fresh writer; its failure becomes a 500 error envelope with its message exactly when it made no writer call; otherwise the response is what its calls leave |
| Server.Server.SendError | main.go:153-165 | sets the CORS headers when configured and Content-Type application/json, writes the status, and writes the error envelope when it marshals and the status allows a body |
| Server.SetCORSHeaders | main.go:111-116 | sets the four CORS headers: the origin, the allowed methods, the allowed headers and a max age of 86400 seconds |
| Server.HttpError | main.go:129 | http.Error: plain-text content type with nosniff, the status, and the message followed by a newline when the status allows a body |

## Left out

- Header canonicalisation: header keys are compared as given.
- Concurrency: one request is modelled at a time. The registry and the command table are only read while requests are served.
- Flushing and socket write errors: output written is assumed to reach the connection.
- The JSON codec is abstract. Its grammar, UTF-8 validation and float numbers (modelled as integers) are not modelled.
- `string(bytes)` is modelled one character per byte, with no UTF-8 decoding.
- Flag parsing, logging and `main`'s server start-up are not modelled. The CORS setting is the `Server`'s constant.
- `os.ReadDir` is not modelled; its outcome is a parameter. Directory entry names are assumed to hold no path separator, so `Server.Base` is the name itself, or "." for the empty name.
- The upstream body must end with EOF or an error: a body that never ends has no finite model, and the loop over it would not terminate.
- `io.ReadAll`'s own buffer growth is not modelled, only what it returns.
- `defer resp.Body.Close()` is not modelled: closing the body has no visible effect here.
- The request body decoder is not modelled; `HandleRequest` gets its outcome.
- `Command` has only the `fetch` handler, which is the only one the repository has. The `Command` and `ResponseWriter` interfaces become a datatype of handlers and a log of calls on the one writer implementation.
- Http.Response.WriteHeader: an informational status (1xx other than 101) is recorded as the final status. net/http sends it ahead of the final one, but client.Do never returns such a status as the upstream response.
- Http.Response.Write: each output is modelled as one value, not as the bytes it puts on the connection. `Writer.Wire` gives those bytes.
