# JACK audio bridge: a Dafny model

The bridge is a small HTTP service that lets a Docker container control the JACK audio server running on
the Windows host. It comes in two variants:

- the local Windows service (`jack-bridge-local/src/main.cpp`): a `JackManager`, an `HttpServer` and a
  watchdog in `main`;
- the Windows-container service (`jack-bridge/src/main-windows.cpp`): a `JackBridgeServer` that opens its
  JACK client lazily inside its health probe.

The container side also has shared record types (`types.hpp`) and a `ConfigManager` that reads defaults,
a configuration file and environment variables.

The JACK C API is replaced by an abstract engine, `JackEngine.Engine`. An engine value holds what the
server answers during one request or one watchdog tick: whether it opens a client, the activation code,
the sample rate and buffer size, the port and output-port lists (`None` for a NULL list), each port's
peers, and the result codes of `jack_connect` and `jack_disconnect` for each edge. The state the code
keeps in globals (`g_jackClient`/`g_jackRunning` and `jack_client`/`jack_running`) is a `Session`:

- the client handle, if any;
- the running flag;
- the calls that change the server, in order (open, activate, close, connect, disconnect).

Listing calls and sample-rate reads do not change the server and are not recorded.

The model has two layers:

- Pure functions state each operation's result and new session: `LocalManager`, `LocalService`,
  `WindowsService`, `Http` and `ConfigRules`. The properties are proved about these functions.
- Classes keep the source's shape: `LocalBridge.JackManager`, `LocalBridge.HttpServer`,
  `WindowsBridge.JackBridgeServer` and `ConfigManagement.ConfigManager`. Their methods update fields and
  run the source's loops. Each method is proved to produce exactly the pure function's result and new
  state.

Response bodies are rendered from field lists (`Json.Object`). The text equals the source's string
concatenation, with no escaping. The timestamp is a parameter `ts`.

Files:

| file | contents |
|---|---|
| `wrappers.dfy` | `Option`, `Result` |
| `text.dfy` | `std::string::find`, `std::to_string`, `std::stoi`, the `join` specification, line texts |
| `json.dfy` | rendering of the bodies' objects and arrays, field lookup |
| `engine.dfy` | the abstract engine, sessions, the edge listing and the clearing count |
| `http.dfy` | request reading, tokenising, routing, framing, `extractJsonValue`, body validation |
| `local_manager.dfy`, `local_service.dfy` | the local manager and service as functions |
| `local_bridge.dfy` | the local `JackManager` and `HttpServer` classes and the service's `main` |
| `windows_service.dfy`, `windows_bridge.dfy` | the Windows-container service as functions and as a class |
| `types.dfy` | `types.hpp` |
| `config_rules.dfy`, `config_manager.dfy` | `ConfigManager` as functions and as a class |

## Model

| member | source | states |
|---|---|---|
| LocalManager.Initialize | jack-bridge-local/src/main.cpp:105-135 | An existing client is kept and true returned. Otherwise success iff open succeeds and activation returns 0; success holds the opened client with the running flag raised; failure leaves the flag as it was; the result is true iff a client is held afterwards |
| LocalManager.InitializeIdempotent | jack-bridge-local/src/main.cpp:106-110 | After a successful initialize, a second one (whatever the server answers) returns true and changes nothing |
| LocalManager.InitializeLeavesNoHalfOpenClient | jack-bridge-local/src/main.cpp:112-130 | A failed initialize leaves no client: a failed open called only open, a failed activation called open, activate, then close |
| LocalManager.Shutdown | jack-bridge-local/src/main.cpp:137-146 | Ends with no client; with one, it is closed and the flag lowered; without one nothing changes |
| LocalManager.ShutdownIdempotent | jack-bridge-local/src/main.cpp:137-146 | From any consistent state, shutdown ends with no client and not running, and a second shutdown is a no-op |
| LocalManager.IsRunning | jack-bridge-local/src/main.cpp:148-164 | Never opens or closes a client and calls nothing; true iff a client is held and the sample rate is positive; with a client the flag becomes that result; without one nothing changes |
| LocalManager.QueriesChangeNothing | jack-bridge-local/src/main.cpp:148-164 | The probe leaves the client and the call log alone, and probing twice gives the same step |
| LocalManager.ServerShutdown | jack-bridge-local/src/main.cpp:97-100 | The shutdown callback lowers the flag and keeps the client pointer and the call log |
| LocalManager.Ports | jack-bridge-local/src/main.cpp:166-181 | No ports without a client or for a NULL list; otherwise exactly the server's list |
| LocalManager.Connections | jack-bridge-local/src/main.cpp:183-207 | No edges without a client; an edge is listed iff it leaves a listed output port and the server names its target as a peer |
| LocalManager.ConnectPorts | jack-bridge-local/src/main.cpp:209-229 | Without a client: false and no call. With one: exactly one connect call; true iff the code is 0 or EEXIST |
| LocalManager.DisconnectPorts | jack-bridge-local/src/main.cpp:231-248 | Without a client: false and no call. With one: exactly one disconnect call; true iff the code is 0 |
| LocalManager.ClearAllConnections | jack-bridge-local/src/main.cpp:250-266 | Intended behaviour, with the mutex taken once. Without a client: 0 and no call. With one: one disconnect per listed edge, in order, returning how many gave 0 |
| LocalManager.ClearAllBounded | jack-bridge-local/src/main.cpp:256-265 | The cleared count is at most the number of listed edges, and equals it iff every disconnect returns 0 |
| LocalManager.JackInfo | jack-bridge-local/src/main.cpp:268-281 | `{}` without a client; otherwise the object of sample rate, buffer size and client name |
| LocalManager.Lock | jack-bridge-local/src/main.cpp:184 | Taking the non-recursive mutex succeeds iff it is free |
| LocalManager.ClearAllAsWritten | jack-bridge-local/src/main.cpp:250-266 | As written: with a client the call reaches the relock (modelled as a deadlock, `None`); without one it returns 0 and calls nothing |
| LocalManager.ClearAllAsWrittenBlocks | jack-bridge-local/src/main.cpp:250-255 | As written, the call completes iff there is no client (then with 0, as intended); with a client it relocks its own mutex, undefined behaviour modelled as the deadlock of a non-recursive mutex |
| LocalManager.ManagerKeepsConsistent | jack-bridge-local/src/main.cpp:103-282 | Every manager operation keeps "running only while a client is held" |
| JackEngine.Initial | jack-bridge-local/src/main.cpp:48-49 | The process starts with no client, not running, nothing called |
| JackEngine.PeerEdges | jack-bridge-local/src/main.cpp:199-201 | One edge from the port to each peer, in the server's order |
| JackEngine.EdgesOf | jack-bridge-local/src/main.cpp:189-204 | No ports list no edges, and every edge listed leaves one of the ports |
| JackEngine.EdgesOfMembers | jack-bridge-local/src/main.cpp:192-203 | An edge is listed iff its source is among the ports and its target among that port's peers |
| JackEngine.EdgesOfAppend | jack-bridge-local/src/main.cpp:192-203 | One more port of the outer loop appends exactly its edges |
| JackEngine.DisconnectCalls | jack-bridge-local/src/main.cpp:258-262 | One disconnect call per edge, in order |
| JackEngine.Cleared | jack-bridge-local/src/main.cpp:256-262 | The count of 0-returning disconnects never exceeds the number of edges |
| JackEngine.ClearedBound | jack-bridge/src/main-windows.cpp:470-474 | The count of 0-returning disconnects is at most the number attempted, and equals it iff all return 0 |
| Http.ReadRequest | jack-bridge/src/main-windows.cpp:162-176 | A failed or empty read gives no request. Otherwise the request is a non-empty prefix of the bytes available to this one `recv`: at most 4095 of them, exactly 4095 when more are available, and all of them when they fit |
| Http.NextWord | jack-bridge-local/src/main.cpp:395-397 | One `>>`: the word taken has no whitespace, and what is left is empty or starts with whitespace |
| Http.NextWordReads | jack-bridge-local/src/main.cpp:395-397 | A word followed by whitespace or the end is read exactly |
| Http.Tokens | jack-bridge-local/src/main.cpp:395-397 | The method, path and version contain no whitespace; a missing word is empty, and so are the words after it |
| Http.TokensOfRequestLine | jack-bridge-local/src/main.cpp:395-397 | `METHOD PATH VERSION` followed by a line break splits into those three words |
| Http.TokensOfBlank | jack-bridge-local/src/main.cpp:395-397 | Whitespace-only text gives three empty words |
| Http.Route | jack-bridge-local/src/main.cpp:411-429 | Preflight iff the method is OPTIONS; a command route only with POST; each served route only for its own path |
| Http.RouteTable | jack-bridge-local/src/main.cpp:411-429 | OPTIONS is a preflight before any path check; query paths match under any other method; command paths only with POST; not-found iff none of these |
| Http.EdgeObjects | jack-bridge-local/src/main.cpp:517-523 | One connection object per edge, in order |
| Http.EdgeObjectText | jack-bridge-local/src/main.cpp:519-520 | The text the loops write for an edge is its `{"from","to"}` object |
| Http.EdgeText | jack-bridge/src/main-windows.cpp:368-371 | The text built for one connection is its `{"from","to"}` object |
| Http.ErrorBodyText | jack-bridge-local/src/main.cpp:546 | The error body is `{"success":false,"error":"<message>"}` |
| Http.HeaderLines | jack-bridge-local/src/main.cpp:434-440 | Six header lines: the 200 status line first, the Content-Length line last |
| Http.BodyOf | jack-bridge-local/src/main.cpp:544-549 | There is a body iff the message contains a blank line |
| Http.Frame | jack-bridge-local/src/main.cpp:434-440 | The response starts with the 200 status line and ends with the body |
| Http.FrameSplitsAtHeaders | jack-bridge-local/src/main.cpp:434-440 | The first blank line of a response is the one after its headers |
| Http.FrameReadsBack | jack-bridge-local/src/main.cpp:434-440 | Reading a framed response back gives exactly the body; the head starts with `HTTP/1.1 200 OK` and ends with a Content-Length whose numeral denotes the body's length |
| Http.FrameStartsWithStatus | jack-bridge/src/main-windows.cpp:217-223 | Every response starts with the 200 status line |
| Http.QuoteFreeLength | jack-bridge-local/src/main.cpp:533 | `[^"]*`: the longest quote-free prefix, ending at a quote or the end |
| Http.Capture | jack-bridge-local/src/main.cpp:533 | `([^"]+)"`: a non-empty quote-free group followed by a quote |
| Http.MatchPrefix | jack-bridge-local/src/main.cpp:533 | The pattern anchored at a position captures a non-empty quote-free value |
| Http.FirstMatch | jack-bridge-local/src/main.cpp:536 | The leftmost position where the pattern matches, or none |
| Http.ExtractJsonValue | jack-bridge-local/src/main.cpp:532-541 | `""` iff the pattern matches nowhere; otherwise the quote-free value captured at the leftmost match |
| Http.ExtractLeftmost | jack-bridge-local/src/main.cpp:532-541 | A match with none before it gives that match's value |
| Http.MatchShape | jack-bridge-local/src/main.cpp:533 | Every match opens with the quoted key followed by whitespace or a colon |
| Http.MatchOfField | jack-bridge-local/src/main.cpp:533 | `"key":"value"` matches and captures the value, whatever follows |
| Http.ExtractEdgeBody | jack-bridge-local/src/main.cpp:549-551 | From a client's `{"source":…,"destination":…}` body each field yields its own value |
| Http.ParseEdgeRequest | jack-bridge-local/src/main.cpp:543-555 | Fails with "No request body" iff there is no blank line; fails with "Missing source or destination" iff there is a body and `source` or `destination` extracts empty; otherwise the edge is the two extracted values, both non-empty and quote-free |
| Http.ParseEdgeRequestRoundTrip | jack-bridge-local/src/main.cpp:543-555 | Header lines, a blank line and an edge body parse back to that edge |
| Json.Quote | jack-bridge-local/src/main.cpp:498 | A quoted string is the text between two quote characters |
| Json.Quoted | jack-bridge/src/main-windows.cpp:331-334 | Each port name quoted, in order |
| Json.Lookup | jack-bridge/src/main-windows.cpp:411-415 | A key is found iff some field has it, and the value found is that of such a field |
| Json.EmptyObject | jack-bridge-local/src/main.cpp:271 | The object with no members is `{}` |
| Json.StripBraces | jack-bridge-local/src/main.cpp:482 | `substr(1, length - 2)` of an object is exactly its members |
| Json.Splice | jack-bridge-local/src/main.cpp:477-485 | Splicing an object's members between two others, with a comma at each seam, is the object of all fields |
| Json.ArrayLoopStep | jack-bridge-local/src/main.cpp:497-500 | One turn of the element-then-comma loop keeps the text an open array of the elements so far |
| Json.ArrayLoopEnd | jack-bridge-local/src/main.cpp:501 | Closing the bracket after the last element gives the array |
| Text.NatToDecimal | jack-bridge-local/src/main.cpp:438 | `std::to_string` of a count is a non-empty numeral |
| Text.DecimalRoundTrip | jack-bridge-local/src/main.cpp:438 | The numeral of a count reads back as that count |
| Text.Find | jack-bridge/src/config_manager.cpp:44-45 | `find`: the least index where the pattern occurs, or npos iff it occurs nowhere |
| Text.FindFirst | jack-bridge/src/config_manager.cpp:45 | An occurrence with none before it is what `find` returns |
| Text.Joined | jack-bridge/src/main-windows.cpp:497-505 | The empty vector joins to "" and a single element to itself |
| Text.JoinedCons | jack-bridge/src/main-windows.cpp:497-505 | Joining x before a non-empty list is x, a delimiter, then the join of the rest |
| Text.JoinedAppend | jack-bridge/src/main-windows.cpp:497-505 | Joining two non-empty lists is their joins with one delimiter between |
| Text.JoinedIsHeadThenDelimited | jack-bridge/src/main-windows.cpp:500-503 | A non-empty join is the first element, then a delimiter before each later element |
| Text.JoinedLength | jack-bridge/src/main-windows.cpp:497-505 | A join of n ≥ 1 elements has their total length plus n−1 delimiters; the empty vector gives "" |
| Text.LinesHaveNoBlankLine | jack-bridge-local/src/main.cpp:544 | Header lines joined by CRLF contain no blank line |
| Text.FirstBlankLineEndsHeaders | jack-bridge-local/src/main.cpp:544-549 | The first blank line of a request is the one after its header lines |
| Text.Stoi | jack-bridge/src/config_manager.cpp:118 | `std::stoi` succeeds only with a value in the 32-bit `int` range |
| Text.StoiReadsNumeralPrefix | jack-bridge/src/config_manager.cpp:118 | A numeral followed by a non-digit is read as its value ("12abc" is 12) |
| Text.StoiReadsNegativeNumeral | jack-bridge/src/config_manager.cpp:118 | A minus sign negates, down to the smallest `int` |
| Text.StoiRejectsNonNumeric | jack-bridge/src/config_manager.cpp:118 | Text whose first non-blank character is not a sign or digit throws `invalid_argument` |
| Text.StoiRejectsOverflow | jack-bridge/src/config_manager.cpp:118 | A numeral beyond the `int` range throws `out_of_range` instead of wrapping |
| LocalService.HealthBody | jack-bridge-local/src/main.cpp:462-472 | The probe's step, and the health object with status healthy/unhealthy and `jack_running` following the probe |
| LocalService.Unbrace | jack-bridge-local/src/main.cpp:482 | Text two characters shorter, between the first and last characters |
| LocalService.StatusBody | jack-bridge-local/src/main.cpp:474-487 | Only the probe changes the session |
| LocalService.StatusIsObject | jack-bridge-local/src/main.cpp:474-487 | The spliced status text is the object of the head fields, the server's info iff the probe passed, and the timestamp |
| LocalService.SpliceText | jack-bridge-local/src/main.cpp:481-485 | With the probe passed, splicing the info's members gives the object of all fields |
| LocalService.NoSpliceText | jack-bridge-local/src/main.cpp:481-485 | Without the probe, the head and timestamp form the object |
| LocalService.PortsBody | jack-bridge-local/src/main.cpp:489-508 | "JACK not running" on a failed probe; otherwise every listed port quoted, with their count |
| LocalService.ConnectionsBody | jack-bridge-local/src/main.cpp:510-530 | "JACK not running" on a failed probe; otherwise one object per listed edge, with their count |
| LocalService.HandleConnect | jack-bridge-local/src/main.cpp:543-567 | Validation first, with nothing touched on a bad body; then the probe; only then one connect; success iff 0 or EEXIST |
| LocalService.HandleDisconnect | jack-bridge-local/src/main.cpp:569-593 | The same order; then one disconnect; success iff 0 |
| LocalService.HandleClearAll | jack-bridge-local/src/main.cpp:595-607 | "JACK not running" without touching the server; otherwise one disconnect per listed edge and success with the count of 0 results |
| LocalService.HandleClearAllAsWritten | jack-bridge-local/src/main.cpp:595-607 | As written: a failed probe gives "JACK not running"; a passing one reaches the relock (`None`) |
| LocalService.ClearRequestBlocks | jack-bridge-local/src/main.cpp:595-600 | As written, a clear request reaches the relock (modelled as a deadlock) iff the probe passed; otherwise it gets the intended "JACK not running" answer |
| LocalService.ResponseBody | jack-bridge-local/src/main.cpp:411-429 | OPTIONS: empty body, no change. Unknown route: the not-found body with the path, no change. A query never changes the client or calls the server |
| LocalService.Dispatch | jack-bridge-local/src/main.cpp:413-428 | Each of the seven served routes (health, status, ports, connections, connect, disconnect, clear) is answered by its own handler |
| LocalService.ProcessRequest | jack-bridge-local/src/main.cpp:394-443 | The response starts with the 200 status line; its body reads back as the routed body, and its head carries that body's length |
| LocalService.HandleClient | jack-bridge-local/src/main.cpp:378-392 | No response for a failed or empty read; otherwise the processed response to at most 4095 bytes |
| LocalService.Tick | jack-bridge-local/src/main.cpp:738-757 | Before the 30th second only the counter moves. On it the counter resets and the probe runs; on failure shutdown then initialize follow |
| LocalService.Run | jack-bridge-local/src/main.cpp:736-757 | The ticks of the loop over a `Watch` (seconds counter and session): no ticks change nothing, and the calls made to the server only grow |
| LocalService.TickAppendsCalls | jack-bridge-local/src/main.cpp:738-757 | One tick only appends to the calls made so far |
| LocalService.TickKeepsCounter | jack-bridge-local/src/main.cpp:741-742 | The counter stays in 0..29 and advances modulo 30 |
| LocalService.HealthyTickChangesNothing | jack-bridge-local/src/main.cpp:744-756 | A passing probe only raises the running flag |
| LocalService.FailedTickReconnects | jack-bridge-local/src/main.cpp:746-753 | A failed probe with a client closes it, then opens a new one; a client is held afterwards iff open and activation succeed |
| LocalService.RunKeepsConsistent | jack-bridge-local/src/main.cpp:736-758 | Any number of ticks keeps the counter in range and the flag raised only with a client |
| LocalService.Service | jack-bridge-local/src/main.cpp:712-768 | When the HTTP server starts, the service ends with no client and not running. When it does not, `main` returns 1 without the shutdown: a client the first attempt opened and activated stays open and the flag stays raised |
| LocalBridge.JackManager.constructor | jack-bridge-local/src/main.cpp:48-49 | The manager starts from the initial state |
| LocalBridge.JackManager.Initialize | jack-bridge-local/src/main.cpp:105-135 | The method's result and new state are exactly `LocalManager.Initialize` |
| LocalBridge.JackManager.Shutdown | jack-bridge-local/src/main.cpp:137-146 | Exactly `LocalManager.Shutdown` |
| LocalBridge.JackManager.IsRunning | jack-bridge-local/src/main.cpp:148-164 | Exactly `LocalManager.IsRunning` |
| LocalBridge.JackManager.OnServerShutdown | jack-bridge-local/src/main.cpp:97-100 | Exactly `LocalManager.ServerShutdown` |
| LocalBridge.JackManager.GetPorts | jack-bridge-local/src/main.cpp:166-181 | Its push-back loop returns exactly `LocalManager.Ports` |
| LocalBridge.JackManager.ListEdges | jack-bridge-local/src/main.cpp:189-204 | The nested loops list exactly `EdgesOf` the output ports |
| LocalBridge.JackManager.GetConnections | jack-bridge-local/src/main.cpp:183-207 | Exactly `LocalManager.Connections` |
| LocalBridge.JackManager.ConnectPorts | jack-bridge-local/src/main.cpp:209-229 | Exactly `LocalManager.ConnectPorts` |
| LocalBridge.JackManager.DisconnectPorts | jack-bridge-local/src/main.cpp:231-248 | Exactly `LocalManager.DisconnectPorts` |
| LocalBridge.JackManager.ClearAllConnections | jack-bridge-local/src/main.cpp:250-266 | Exactly `LocalManager.ClearAllConnections`, the intended single-lock clearing |
| LocalBridge.JackManager.DisconnectEach | jack-bridge-local/src/main.cpp:256-262 | The counting loop returns the count of 0 results and makes one disconnect call per edge |
| LocalBridge.JackManager.GetJackInfo | jack-bridge-local/src/main.cpp:268-281 | Exactly `LocalManager.JackInfo` |
| LocalBridge.HttpServer.constructor | jack-bridge-local/src/main.cpp:294 | The server refers to the manager it is given |
| LocalBridge.HttpServer.GetHealthStatus | jack-bridge-local/src/main.cpp:462-472 | Exactly `LocalService.HealthBody` |
| LocalBridge.HttpServer.GetJackStatus | jack-bridge-local/src/main.cpp:474-487 | Exactly `LocalService.StatusBody` |
| LocalBridge.HttpServer.GetJackPorts | jack-bridge-local/src/main.cpp:489-508 | Exactly `LocalService.PortsBody` |
| LocalBridge.HttpServer.PortsArray | jack-bridge-local/src/main.cpp:496-501 | The `portsJson` loop builds the array of the quoted names |
| LocalBridge.HttpServer.GetJackConnections | jack-bridge-local/src/main.cpp:510-530 | Exactly `LocalService.ConnectionsBody` |
| LocalBridge.HttpServer.ConnectionsArray | jack-bridge-local/src/main.cpp:517-523 | The `connectionsJson` loop builds the array of the edge objects |
| LocalBridge.HttpServer.HandleConnect | jack-bridge-local/src/main.cpp:543-567 | Exactly `LocalService.HandleConnect` |
| LocalBridge.HttpServer.HandleDisconnect | jack-bridge-local/src/main.cpp:569-593 | Exactly `LocalService.HandleDisconnect` |
| LocalBridge.HttpServer.HandleClearAll | jack-bridge-local/src/main.cpp:595-607 | Exactly `LocalService.HandleClearAll` |
| LocalBridge.HttpServer.Respond | jack-bridge-local/src/main.cpp:411-429 | The dispatch gives exactly `LocalService.ResponseBody` |
| LocalBridge.HttpServer.ProcessRequest | jack-bridge-local/src/main.cpp:394-443 | Exactly `LocalService.ProcessRequest` |
| LocalBridge.HttpServer.HandleClient | jack-bridge-local/src/main.cpp:378-392 | Exactly `LocalService.HandleClient` |
| LocalBridge.RunService | jack-bridge-local/src/main.cpp:712-768 | Start-up, then (when the HTTP server starts) the watchdog loop and the final shutdown, end in exactly `LocalService.Service`; a server that does not start ends the run right after the first attempt |
| WindowsService.Check | jack-bridge/src/main-windows.cpp:260-299 | The flag equals the result on every path. True iff a client was held or opened and activated, and the sample rate is positive. True implies a client. An existing client is kept with no calls |
| WindowsService.CheckOpensLazily | jack-bridge/src/main-windows.cpp:263-284 | With a client nothing is called. Without one the first call is an open; if a client results, open and activate were the only calls |
| WindowsService.CheckLeavesNoHalfOpenClient | jack-bridge/src/main-windows.cpp:266-283 | A failed open or activation returns false with no client and the flag down; an opened client was closed again |
| WindowsService.FailedCheckKeepsClient | jack-bridge/src/main-windows.cpp:286-298 | A sample rate of 0 gives false and lowers the flag, but the client stays |
| WindowsService.CheckWithClientIsLocalProbe | jack-bridge/src/main-windows.cpp:286-298 | With a client held, the probe is the local `isRunning` |
| WindowsService.CheckKeepsConsistent | jack-bridge/src/main-windows.cpp:260-299 | After any probe the flag is raised only with a client; a second passing probe repeats the first |
| WindowsService.HealthBody | jack-bridge/src/main-windows.cpp:247-258 | The probe's step, and the health object following its result |
| WindowsService.StatusBody | jack-bridge/src/main-windows.cpp:301-317 | Only the probe changes the session |
| WindowsService.StatusShowsInfoWhenRunning | jack-bridge/src/main-windows.cpp:310-313 | The status text is the object of its fields with the `jack_client` test read as the probe's result, so it adds nothing; `sample_rate` is present iff the probe passed |
| WindowsService.PortsBody | jack-bridge/src/main-windows.cpp:319-344 | "JACK not running" on a failed probe; "No ports found" for a NULL list; otherwise every port quoted with their count |
| WindowsService.ConnectionsBody | jack-bridge/src/main-windows.cpp:346-384 | "JACK not running" on a failed probe; success with `[]` and 0 for a NULL list; otherwise one object per edge with their count |
| WindowsService.NoConnectionsIsEmptySuccess | jack-bridge/src/main-windows.cpp:353-356 | The NULL-list answer is success, an empty array and count 0 |
| WindowsService.ConnectOutcome | jack-bridge/src/main-windows.cpp:406-415 | success iff the code is 0 or EEXIST; already_connected iff EEXIST; message Connected iff success |
| WindowsService.DisconnectOutcome | jack-bridge/src/main-windows.cpp:438-444 | success iff the code is 0, and there is no already_connected member |
| WindowsService.HandleConnect | jack-bridge/src/main-windows.cpp:386-416 | A bad body is refused without a probe; a failed probe changes only what the probe did; otherwise one connect after the probe |
| WindowsService.HandleDisconnect | jack-bridge/src/main-windows.cpp:418-445 | The same order; then one disconnect |
| WindowsService.HandleClearAll | jack-bridge/src/main-windows.cpp:447-484 | "JACK not running" on a failed probe; "No connections to clear" with 0 for a NULL list; otherwise one disconnect per edge and the count of 0 results |
| WindowsService.ClearAllOutcome | jack-bridge/src/main-windows.cpp:456-483 | Once the probe passed the answer is success; the count is at most the edges and equals them iff every disconnect returns 0 |
| WindowsService.ResponseBody | jack-bridge/src/main-windows.cpp:193-212 | OPTIONS: empty body, no change. Unknown route: the not-found body, no change |
| WindowsService.Dispatch | jack-bridge/src/main-windows.cpp:195-211 | Each of the seven served routes is answered by its own handler |
| WindowsService.QueriesOnlyProbe | jack-bridge/src/main-windows.cpp:196-203 | A query changes the session only as its probe does |
| WindowsService.ProcessRequest | jack-bridge/src/main-windows.cpp:178-226 | The response starts with the 200 status line; its body reads back as the routed body, and its head carries that body's length |
| WindowsService.HandleRequest | jack-bridge/src/main-windows.cpp:162-176 | No response for a failed or empty read; otherwise the processed response to at most 4095 bytes |
| WindowsService.Cleanup | jack-bridge/src/main-windows.cpp:612-616 | Ends with no client, closing one that was held, and leaves the running flag as it was |
| WindowsService.CleanupMayLeaveRunningFlag | jack-bridge/src/main-windows.cpp:612-616 | From a healthy state the clean-up leaves the flag raised without a client, where the local shutdown does not |
| WindowsService.RequestKeepsConsistent | jack-bridge/src/main-windows.cpp:178-226 | Every request keeps the flag raised only with a client |
| WindowsBridge.JackBridgeServer.constructor | jack-bridge/src/main-windows.cpp:76 | The port as given, the globals as the program starts them |
| WindowsBridge.JackBridgeServer.CheckJackConnection | jack-bridge/src/main-windows.cpp:260-299 | Exactly `WindowsService.Check` |
| WindowsBridge.JackBridgeServer.GetHealthStatus | jack-bridge/src/main-windows.cpp:247-258 | Exactly `WindowsService.HealthBody` |
| WindowsBridge.JackBridgeServer.GetJackStatus | jack-bridge/src/main-windows.cpp:301-317 | Exactly `WindowsService.StatusBody` |
| WindowsBridge.JackBridgeServer.GetJackPorts | jack-bridge/src/main-windows.cpp:319-344 | Exactly `WindowsService.PortsBody` |
| WindowsBridge.JackBridgeServer.QuoteEach | jack-bridge/src/main-windows.cpp:331-334 | The `port_list` loop pushes each name quoted |
| WindowsBridge.JackBridgeServer.GetJackConnections | jack-bridge/src/main-windows.cpp:346-384 | Exactly `WindowsService.ConnectionsBody` |
| WindowsBridge.JackBridgeServer.ConnectionTexts | jack-bridge/src/main-windows.cpp:358-374 | The nested loops push one object per listed edge |
| WindowsBridge.JackBridgeServer.PeerTexts | jack-bridge/src/main-windows.cpp:367-372 | The inner loop pushes one `{"from","to"}` object per peer of the port, in order |
| WindowsBridge.JackBridgeServer.HandleConnect | jack-bridge/src/main-windows.cpp:386-416 | Exactly `WindowsService.HandleConnect` |
| WindowsBridge.JackBridgeServer.HandleDisconnect | jack-bridge/src/main-windows.cpp:418-445 | Exactly `WindowsService.HandleDisconnect` |
| WindowsBridge.JackBridgeServer.HandleClearAll | jack-bridge/src/main-windows.cpp:447-484 | Exactly `WindowsService.HandleClearAll` |
| WindowsBridge.JackBridgeServer.DisconnectAll | jack-bridge/src/main-windows.cpp:460-476 | The counting loops count the 0 results and make one disconnect per listed edge |
| WindowsBridge.JackBridgeServer.DisconnectPeers | jack-bridge/src/main-windows.cpp:469-473 | The inner loop makes one disconnect per peer of the port, in order, and counts the 0 results |
| WindowsBridge.JackBridgeServer.Join | jack-bridge/src/main-windows.cpp:497-505 | The loop builds exactly the join of the elements with the delimiter |
| WindowsBridge.JackBridgeServer.Respond | jack-bridge/src/main-windows.cpp:193-212 | The dispatch gives exactly `WindowsService.ResponseBody` |
| WindowsBridge.JackBridgeServer.ProcessRequest | jack-bridge/src/main-windows.cpp:178-226 | Exactly `WindowsService.ProcessRequest` |
| WindowsBridge.JackBridgeServer.HandleRequest | jack-bridge/src/main-windows.cpp:162-176 | Exactly `WindowsService.HandleRequest` |
| WindowsBridge.JackBridgeServer.Cleanup | jack-bridge/src/main-windows.cpp:612-616 | Exactly `WindowsService.Cleanup` |
| Types.DefaultConnection | jack-bridge/include/types.hpp:21 | The default connection has empty names and the epoch as timestamp |
| Types.NewConnection | jack-bridge/include/types.hpp:22-23 | The names given, stamped now |
| Types.DefaultPort | jack-bridge/include/types.hpp:34 | The default port is inactive with empty names, last seen now |
| Types.NewPort | jack-bridge/include/types.hpp:35-37 | The name, type and direction given, active, no client name |
| Types.DefaultStatus | jack-bridge/include/types.hpp:47 | Not running, no ports, no connections, no error |
| Types.NewWebSocketMessage | jack-bridge/include/types.hpp:65-66 | The type and data given, stamped now |
| Types.DefaultsAreTheConstants | jack-bridge/include/types.hpp:70-85 | The section defaults equal the named constants (6666, 6667, 10000, 5000, 1000, tools path, host, level) |
| Types.NewApiResponse | jack-bridge/include/types.hpp:111-112 | The success, message and error given, stamped now |
| Types.DefaultApiResponse | jack-bridge/include/types.hpp:111 | The default arguments: success with empty message and error |
| Types.NewConnectionResponse | jack-bridge/include/types.hpp:117-120 | No error, the method name given, not already connected |
| Types.NewStatusResponse | jack-bridge/include/types.hpp:125-128 | A default response with the success given, the status as given, the bridge healthy |
| Types.CodeValue | jack-bridge/include/types.hpp:141-152 | Every code's value is in 0..8 or is 999 |
| Types.CodeOf | jack-bridge/include/types.hpp:141-152 | A value names a code iff it is in 0..8 or is 999, and that code has the value |
| Types.CodeValuesDistinct | jack-bridge/include/types.hpp:141-152 | The values are pairwise distinct and read back to their codes |
| Types.NewException | jack-bridge/include/types.hpp:161-162 | The message given; the code given, or UNKNOWN_ERROR by default |
| Types.WhatIsTheMessage | jack-bridge/include/types.hpp:164-166 | `what()` is the constructor's message; the default code is UNKNOWN_ERROR |
| ConfigRules.WithDefaults | jack-bridge/src/config_manager.cpp:59-89 | Every section at its defaults (6666, 6667, 10000, …), the path and load flag unchanged |
| ConfigRules.GetEnvVar | jack-bridge/src/config_manager.cpp:109-112 | A set variable's value unchanged, else the default |
| ConfigRules.GetEnvVarInt | jack-bridge/src/config_manager.cpp:114-124 | Unset or unreadable gives the default; otherwise `std::stoi` of the value |
| ConfigRules.EnvIntReadsPrefix | jack-bridge/src/config_manager.cpp:117-118 | "12abc" sets 12 |
| ConfigRules.EnvIntFallsBack | jack-bridge/src/config_manager.cpp:119-121 | A value that does not start with a number leaves the default |
| ConfigRules.EnvIntOverflowFallsBack | jack-bridge/src/config_manager.cpp:119-121 | A value beyond the `int` range leaves the default |
| ConfigRules.GetEnvVarBool | jack-bridge/src/config_manager.cpp:126-133 | Unset gives the default; set gives true iff exactly "true", "1" or "yes" |
| ConfigRules.EnvOverrides | jack-bridge/src/config_manager.cpp:91-107 | Each of the ten members is its variable read by `getEnvVar`, `getEnvVarInt` or `getEnvVarBool` (API and WebSocket ports, host, Windows host, tools path, timeout, log level, log file path, file and console logging), with its current value as the default; every other member unchanged |
| ConfigRules.OverridesLaws | jack-bridge/src/config_manager.cpp:91-107 | An empty environment changes nothing; applying the overrides twice is applying them once |
| ConfigRules.Validate | jack-bridge/src/config_manager.cpp:135-141 | True iff both ports are in 1..65535 and the timeout is positive |
| ConfigRules.DefaultsValidate | jack-bridge/src/config_manager.cpp:135-141 | The defaults pass validation |
| ConfigRules.UncheckedPortFailsValidation | jack-bridge/include/config_manager.hpp:38-39 | A port outside 1..65535 stored by a setter makes validation fail |
| ConfigRules.ScanLine | jack-bridge/src/config_manager.cpp:44-50 | After a throw nothing is read; a line without `api_port` is skipped |
| ConfigRules.Scanned | jack-bridge/src/config_manager.cpp:41-52 | A throw during the reading comes from a line containing `api_port`, and a reading that starts after a throw ends thrown |
| ConfigRules.ThrownSticks | jack-bridge/src/config_manager.cpp:48 | Once `std::stoi` has thrown, no later line is read |
| ConfigRules.OtherLinesIgnored | jack-bridge/src/config_manager.cpp:44 | Lines without `api_port` leave the port alone |
| ConfigRules.LastApiPortLineWins | jack-bridge/src/config_manager.cpp:42-52 | The port is the value of the last line that sets it |
| ConfigRules.BadApiPortLineThrows | jack-bridge/src/config_manager.cpp:47-48 | A non-numeric value after the colon throws, and the port stays as the earlier lines left it |
| ConfigRules.ApiPortLineReads | jack-bridge/src/config_manager.cpp:44-48 | A line `key:value`, with `api_port` in the key and no colon in it, sets the port to `std::stoi(value)` |
| ConfigRules.Load | jack-bridge/src/config_manager.cpp:24-57 | A successful load returns true, is marked loaded, records the path and has the overrides applied. A missing file gives the defaults plus the overrides. A file that opens gives the defaults with the port its lines set, plus the overrides; it fails iff `std::stoi` threw on one of its lines, and then leaves the defaults at the recorded path with the port as far as read and `loaded` as it was |
| ConfigRules.LoadResetsFirst | jack-bridge/src/config_manager.cpp:25-28 | A successful load does not depend on the settings before it |
| ConfigRules.LoadFileSetsPort | jack-bridge/src/config_manager.cpp:42-56 | Without the port variable, the loaded port is the last `api_port` line's value |
| ConfigRules.CreateDefault | jack-bridge/src/config_manager.cpp:143-148 | The defaults at the default path, loaded, and valid |
| ConfigManagement.ConfigManager.constructor | jack-bridge/src/config_manager.cpp:10-13 | The defaults at `/app/config/config.json`, not loaded, valid |
| ConfigManagement.ConfigManager.WithFile | jack-bridge/src/config_manager.cpp:15-18 | The defaults at the given path, not loaded, valid |
| ConfigManagement.ConfigManager.CreateDefault | jack-bridge/src/config_manager.cpp:143-148 | A fresh manager equal to `ConfigRules.CreateDefault` |
| ConfigManagement.ConfigManager.LoadDefaults | jack-bridge/src/config_manager.cpp:59-89 | Exactly `ConfigRules.WithDefaults` |
| ConfigManagement.ConfigManager.ApplyEnvironmentOverrides | jack-bridge/src/config_manager.cpp:91-107 | Exactly `ConfigRules.EnvOverrides` |
| ConfigManagement.ConfigManager.LoadFrom | jack-bridge/src/config_manager.cpp:24-57 | The new state and the result are exactly `ConfigRules.Load` |
| ConfigManagement.ConfigManager.ReadApiPort | jack-bridge/src/config_manager.cpp:41-52 | The `getline` loop ends with exactly the port or the exception of `Scanned` |
| ConfigManagement.ConfigManager.Load | jack-bridge/src/config_manager.cpp:20-22 | Loading from the recorded path |
| ConfigManagement.ConfigManager.Validate | jack-bridge/src/config_manager.cpp:135-141 | True iff both ports are in range and the timeout is positive |
| ConfigManagement.ConfigManager.SetApiPort | jack-bridge/include/config_manager.hpp:38 | The getter returns the port set; nothing else changes |
| ConfigManagement.ConfigManager.SetWebSocketPort | jack-bridge/include/config_manager.hpp:39 | The getter returns the port set; nothing else changes |
| ConfigManagement.ConfigManager.SetHost | jack-bridge/include/config_manager.hpp:40 | The getter returns the host set; nothing else changes |
| ConfigManagement.ConfigManager.SetWindowsHost | jack-bridge/include/config_manager.hpp:50 | The getter returns the host set; nothing else changes |
| ConfigManagement.ConfigManager.SetJackToolsPath | jack-bridge/include/config_manager.hpp:51 | The getter returns the path set; nothing else changes |
| ConfigManagement.ConfigManager.SetJackTimeout | jack-bridge/include/config_manager.hpp:52 | The getter returns the timeout set; nothing else changes |
| ConfigManagement.ConfigManager.SetLogLevel | jack-bridge/include/config_manager.hpp:62 | The getter returns the level set; nothing else changes |
| ConfigManagement.ConfigManager.SetFileLogging | jack-bridge/include/config_manager.hpp:63 | The getter returns the flag set; nothing else changes |
| ConfigManagement.ConfigManager.SetLogFilePath | jack-bridge/include/config_manager.hpp:64 | The getter returns the path set; nothing else changes |
| ConfigManagement.ConfigManager.SetAutoReconnect | jack-bridge/include/config_manager.hpp:73 | `isAutoReconnectEnabled` follows the flag set; `getAutoReconnect`, which reads the JACK section, does not; nothing else changes |
| ConfigManagement.ConfigManager.SetConnectionMonitoring | jack-bridge/include/config_manager.hpp:74 | The getter returns the flag set; nothing else changes |
| ConfigManagement.ConfigManager.SetConfigFilePath | jack-bridge/include/config_manager.hpp:79 | The getter returns the path set; nothing else changes |

## Left out

- Http.ReadRequest: the bytes available to the single `recv` are a parameter. How TCP splits a request into segments is not modelled: a request whose body arrives after the first read gets "No request body" or "Missing source or destination" from the source, and the model only describes the bytes that one read returns.
- Winsock and the server threads are not modelled: whether `start` binds its socket is the parameter `serverStarts` of `LocalService.Service`; `stop`, `serverLoop`, `run`, accept, send and closesocket are network I/O. What is kept is the 4095-byte read and the rule that an empty or failed read gets no response.
- Threads, atomics and the console handlers are not modelled, nor are the mutexes, apart from the relock in the local `clearAllConnections`. Each locked method is one atomic step. The unlocked `jack_client` test in the Windows clean-up is treated as an ordinary test.
- The JACK C API is the abstract engine. `jack_set_process_callback`, `jack_on_shutdown`, the listing calls and the sample-rate and buffer-size reads are not recorded in the call log.
- The shutdown callback of the Windows service is not modelled. It has the same one-line effect as the local one, which `LocalManager.ServerShutdown` models.
- The clock is not modelled: every timestamp is a parameter, and `getCurrentTimestamp` and the log functions are left out.
- The `catch` blocks are left out: the ones around `jack_get_sample_rate`, and the "Internal server error" body of `processRequest`. The model's operations do not throw.
- `std::regex` is modelled only for the one pattern `extractJsonValue` builds.
- A key containing regex metacharacters is outside the model; only the keys "source" and "destination" are used.
- JSON escaping is not modelled, as the source has none: names and paths are inserted raw, and the model does not claim the bodies are valid JSON.
- LocalService.StatusBody: its contract says only that the probe is the sole change of state; the text is stated by `LocalService.StatusIsObject`.
- WindowsService.StatusBody: its contract says only that the probe is the sole change of state; the text is stated by `WindowsService.StatusShowsInfoWhenRunning`.
- The start-up wait loop of the Windows `main` and its status printing are left out: they only sleep and print.
- The configuration step of the local `main` (`loadConfiguration`, argument parsing, the log file) is environment and file I/O and is left out.
- `jack-bridge/src/main.cpp` is not part of this model: it holds only a signal handler and a sleep loop.
- ConfigManager's `reload`, `save`, `getValidationErrors`, `parseJsonConfig`, `generateJsonConfig` and `createDefaultConfigFile` are declared in the header with no definition, so there is nothing to model.
- The `jack_utils` functions in `types.hpp` are declared with no definition, and are left out.
- The headers `windows_jack_client.hpp`, `jack_controller.hpp`, `websocker_server.hpp` and `http_server.hpp` are declarations only, and are left out.
- The configuration file is a map from the paths that open to their lines. A path that does not open is absent from it.
- The environment is a map from variable names to values.
- ConfigManagement.ConfigManager getters are plain field reads with no contract of their own; the setters' contracts state them.

## Findings

| source | as written | input that shows it | evidently intended | confidence | as-written member | corrected member |
|---|---|---|---|---|---|---|
| jack-bridge-local/src/main.cpp:250-255 | `clearAllConnections` holds `g_jackMutex` and then calls `getConnections`, which locks the same non-recursive `std::mutex` again (line 184) | any `POST /clear` while a client is held and the server answers the probe. The second lock is undefined behaviour: the thread may deadlock, `std::system_error` may be thrown (which `processRequest` turns into an "Internal server error" body), or the lock may be let through. The model reads it as the deadlock of a non-recursive mutex | list the edges under the single lock already held, then disconnect each once and count the successes | not executed | LocalManager.ClearAllAsWrittenBlocks | LocalManager.ClearAllConnections |
