/**
 * The request and response handling common to both services: reading one request, splitting its first
 * words into method, path and version, routing, the one-pattern JSON field extractor, the source/destination
 * body of the connect and disconnect commands, and the always-200 response frame.
 */
module Http {
  import opened Wrappers
  import opened Text
  import opened Json
  import opened JackEngine

  // ---------------------------------------------------------------------------------------------
  // Reading a request

  /** The receive buffer is 4096 bytes, of which `recv` may fill all but the last. */
  const BufferSize: nat := 4096
  const MaxRead: nat := BufferSize - 1

  /**
   * The request one `recv(fd, buffer, sizeof(buffer) - 1, 0)` yields. `incoming` is `None` when the read
   * fails, otherwise the bytes that have arrived and are available to this one `recv` (which need not be
   * all the peer will send); an empty read (the peer closed) or a failed one yields no request and so no
   * response.
   */
  function ReadRequest(incoming: Option<string>): (r: Option<string>)
    ensures r.None? <==> incoming.None? || incoming.value == []
    ensures r.Some? ==> incoming.Some? && 0 < |r.value| <= MaxRead && |r.value| <= |incoming.value| && r.value == incoming.value[..|r.value|]
    ensures r.Some? && |incoming.value| > MaxRead ==> |r.value| == MaxRead
    ensures incoming.Some? && 0 < |incoming.value| <= MaxRead ==> r == incoming
  {
    match incoming
    case None => None
    case Some(data) =>
      var n := if |data| < MaxRead then |data| else MaxRead;
      assert data[..|data|] == data;
      if n == 0 then None else Some(data[..n])
  }

  // ---------------------------------------------------------------------------------------------
  // `iss >> method >> path >> version`

  /** A whitespace-free, non-empty token. */
  predicate Word(w: string) {
    |w| > 0 && forall i :: 0 <= i < |w| ==> !IsSpace(w[i])
  }

  /** One `>>` into a string: skip whitespace, take the following run of non-whitespace; "" at the end. */
  function NextWord(s: string): (r: (string, string))
    ensures forall i :: 0 <= i < |r.0| ==> !IsSpace(r.0[i])
    ensures r.1 == [] || IsSpace(r.1[0])
    ensures r.0 == [] ==> r.1 == []
  {
    var t := DropSpaces(s);
    var n := WordLength(t);
    (t[..n], t[n..])
  }

  datatype RequestLine = RequestLine(httpMethod: string, path: string, version: string)

  /** The first three words of the request text; a word that is not there stays empty. */
  function Tokens(request: string): (r: RequestLine)
    ensures forall i :: 0 <= i < |r.httpMethod| ==> !IsSpace(r.httpMethod[i])
    ensures forall i :: 0 <= i < |r.path| ==> !IsSpace(r.path[i])
    ensures forall i :: 0 <= i < |r.version| ==> !IsSpace(r.version[i])
    ensures r.httpMethod == [] ==> r.path == [] && r.version == []
    ensures r.path == [] ==> r.version == []
  {
    var (m, r1) := NextWord(request);
    var (p, r2) := NextWord(r1);
    var (v, _) := NextWord(r2);
    RequestLine(m, p, v)
  }

  lemma {:induction false} WordLengthOfWord(w: string, rest: string)
    requires Word(w) && (rest == [] || IsSpace(rest[0]))
    ensures WordLength(w + rest) == |w|
    decreases |w|
  {
    var s := w + rest;
    assert s[0] == w[0];
    if |w| > 1 {
      assert s[1..] == w[1..] + rest;
      WordLengthOfWord(w[1..], rest);
    } else {
      assert s[1..] == rest;
    }
  }

  lemma NextWordReads(w: string, rest: string)
    requires Word(w) && (rest == [] || IsSpace(rest[0]))
    ensures NextWord(w + rest) == (w, rest)
  {
    var s := w + rest;
    assert s[0] == w[0];
    assert DropSpaces(s) == s;
    WordLengthOfWord(w, rest);
    assert s[..|w|] == w && s[|w|..] == rest;
  }

  lemma NextWordAfterSpace(w: string, rest: string)
    requires Word(w) && (rest == [] || IsSpace(rest[0]))
    ensures NextWord(" " + w + rest) == (w, rest)
  {
    var s := " " + w + rest;
    assert s[1..] == w + rest;
    assert (w + rest)[0] == w[0];
    assert DropSpaces(s) == DropSpaces(w + rest) == w + rest;
    WordLengthOfWord(w, rest);
    assert (w + rest)[..|w|] == w && (w + rest)[|w|..] == rest;
  }

  /** A request line "METHOD PATH VERSION" followed by a line break (or anything starting with whitespace) splits into its three words. */
  lemma TokensOfRequestLine(m: string, p: string, v: string, rest: string)
    requires Word(m) && Word(p) && Word(v) && (rest == [] || IsSpace(rest[0]))
    ensures Tokens(m + " " + p + " " + v + rest) == RequestLine(m, p, v)
  {
    var r1 := " " + p + " " + v + rest;
    var r2 := " " + v + rest;
    assert m + " " + p + " " + v + rest == m + r1;
    assert r1[0] == ' ';
    NextWordReads(m, r1);
    assert r1 == " " + p + r2;
    assert r2[0] == ' ';
    NextWordAfterSpace(p, r2);
    NextWordAfterSpace(v, rest);
  }

  /** Text with no words in it gives three empty tokens. */
  lemma TokensOfBlank(s: string)
    requires forall i :: 0 <= i < |s| ==> IsSpace(s[i])
    ensures Tokens(s) == RequestLine("", "", "")
  {
    assert DropSpaces(s) == [];
  }

  // ---------------------------------------------------------------------------------------------
  // Routing

  datatype Endpoint = Preflight | Health | Status | Ports | Connections | PostConnect | PostDisconnect | PostClear | NotFound

  /** The dispatch of `processRequest`: the `if`/`else if` chain, in its order. */
  function Route(httpMethod: string, path: string): (r: Endpoint)
    ensures r == Preflight <==> httpMethod == "OPTIONS"
    ensures r.PostConnect? || r.PostDisconnect? || r.PostClear? ==> httpMethod == "POST"
    ensures r.Health? ==> path == "/health"
    ensures r.Status? ==> path == "/status"
    ensures r.Ports? ==> path == "/ports"
    ensures r.Connections? ==> path == "/connections"
    ensures r.PostConnect? ==> path == "/connect"
    ensures r.PostDisconnect? ==> path == "/disconnect"
    ensures r.PostClear? ==> path == "/clear"
  {
    if httpMethod == "OPTIONS" then Preflight
    else if path == "/health" then Health
    else if path == "/status" then Status
    else if path == "/ports" then Ports
    else if path == "/connections" then Connections
    else if path == "/connect" && httpMethod == "POST" then PostConnect
    else if path == "/disconnect" && httpMethod == "POST" then PostDisconnect
    else if path == "/clear" && httpMethod == "POST" then PostClear
    else NotFound
  }

  /** The query endpoints, served whatever the httpMethod. */
  function QueryEndpoint(path: string): Option<Endpoint> {
    if path == "/health" then Some(Health)
    else if path == "/status" then Some(Status)
    else if path == "/ports" then Some(Ports)
    else if path == "/connections" then Some(Connections)
    else None
  }

  /** The command endpoints, served for POST only. */
  function CommandEndpoint(path: string): Option<Endpoint> {
    if path == "/connect" then Some(PostConnect)
    else if path == "/disconnect" then Some(PostDisconnect)
    else if path == "/clear" then Some(PostClear)
    else None
  }

  /**
   * The routing table: OPTIONS answers a preflight before any path is looked at; a query path matches under
   * any other httpMethod; a command path matches only under POST; everything else is not found.
   */
  lemma RouteTable(httpMethod: string, path: string)
    ensures httpMethod == "OPTIONS" ==> Route(httpMethod, path) == Preflight
    ensures httpMethod != "OPTIONS" && QueryEndpoint(path).Some? ==> Route(httpMethod, path) == QueryEndpoint(path).value
    ensures httpMethod != "OPTIONS" && CommandEndpoint(path).Some? ==>
      Route(httpMethod, path) == if httpMethod == "POST" then CommandEndpoint(path).value else NotFound
    ensures Route(httpMethod, path) == NotFound <==>
      httpMethod != "OPTIONS" && QueryEndpoint(path).None? && (CommandEndpoint(path).None? || httpMethod != "POST")
  {
  }

  // ---------------------------------------------------------------------------------------------
  // Response bodies shared by both services

  const NoBodyError: string := "No request body"
  const MissingEdgeError: string := "Missing source or destination"
  const NotRunningError: string := "JACK not running"

  /** `{"success":false,"error":"<message>"}`. */
  function ErrorBody(message: string): string {
    Object([Field("success", Bool(false)), Field("error", Str(message))])
  }

  /** `{"error":"Not found","path":"<path>"}`. */
  function NotFoundBody(path: string): string {
    Object([Field("error", Str("Not found")), Field("path", Str(path))])
  }

  /** `{"from":"<from>","to":"<to>"}`, one element of a connections array. */
  function EdgeObject(edge: Edge): string {
    Object([Field("from", Str(edge.from)), Field("to", Str(edge.to))])
  }

  /** The fields every successful engine answer ends with. */
  function MethodField(): Field {
    Field("method", Str("native_api"))
  }

  function TimestampField(ts: string): Field {
    Field("timestamp", Str(ts))
  }

  /** `getJackPorts`, in both services: every listed port, quoted, and their number. */
  function PortsFields(ports: seq<PortName>, ts: string): seq<Field> {
    [Field("success", Bool(true)),
     Field("ports", Raw(Array(Quoted(ports)))),
     Field("count", Num(|ports|)),
     MethodField(),
     TimestampField(ts)]
  }

  /** The connection objects of a list of edges, in order. */
  function EdgeObjects(edges: seq<Edge>): (os: seq<string>)
    ensures |os| == |edges| && forall i :: 0 <= i < |edges| ==> os[i] == EdgeObject(edges[i])
  {
    seq(|edges|, i requires 0 <= i < |edges| => EdgeObject(edges[i]))
  }

  /** One more peer appends one more connection object. */
  lemma PeerObjectsStep(p: PortName, peers: seq<PortName>, j: nat)
    requires j < |peers|
    ensures EdgeObjects(PeerEdges(p, peers[..j + 1])) == EdgeObjects(PeerEdges(p, peers[..j])) + [EdgeObject(Edge(p, peers[j]))]
  {
    assert PeerEdges(p, peers[..j + 1]) == PeerEdges(p, peers[..j]) + [Edge(p, peers[j])];
    EdgeObjectsAppend(PeerEdges(p, peers[..j]), [Edge(p, peers[j])]);
  }

  lemma EdgeObjectsAppend(a: seq<Edge>, b: seq<Edge>)
    ensures EdgeObjects(a + b) == EdgeObjects(a) + EdgeObjects(b)
  {
    assert forall i :: 0 <= i < |a + b| ==> (a + b)[i] == if i < |a| then a[i] else b[i - |a|];
  }

  /** `getJackConnections`, in both services: one `{"from","to"}` object per edge, and their number. */
  function ConnectionsFields(edges: seq<Edge>, ts: string): seq<Field> {
    [Field("success", Bool(true)),
     Field("connections", Raw(Array(EdgeObjects(edges)))),
     Field("count", Num(|edges|)),
     MethodField(),
     TimestampField(ts)]
  }

  /** The answer to a disconnect in both services, and to a connect in the local one. */
  function CommandFields(success: bool, done: string, ts: string): seq<Field> {
    [Field("success", Bool(success)), Field("message", Str(if success then done else "Failed")), MethodField(), TimestampField(ts)]
  }

  /** The answer to a clear request once the server has been asked to remove every listed connection. */
  function ClearFields(count: nat, ts: string): seq<Field> {
    [Field("success", Bool(true)), Field("message", Str("Cleared all connections")), Field("count", Num(count)), MethodField(), TimestampField(ts)]
  }

  lemma TwoFields(x: Field, y: Field)
    ensures Object([x, y]) == "{" + RenderField(x) + "," + RenderField(y) + "}"
  {
    var ms := Members([x, y]);
    assert ms[..1] == [ms[0]];
    assert Joined(ms[..1], ",") == ms[0];
  }

  /** The text the connection loops write for one edge is its connection object. */
  lemma EdgeObjectText(a: PortName, b: PortName)
    ensures "{\"from\":\"" + a + "\",\"to\":\"" + b + "\"}" == EdgeObject(Edge(a, b))
  {
    var x, y := Field("from", Str(a)), Field("to", Str(b));
    var qf, qt, dq := Quote("from"), Quote("to"), "\"";
    assert EdgeObject(Edge(a, b)) == "{" + (qf + ":" + (dq + a + dq)) + "," + (qt + ":" + (dq + b + dq)) + "}" by {
      TwoFields(x, y);
    }
    EdgeObjectPieces();
    Cat9("{", qf + ":", dq, a, ",", qt + ":", b, "}");
  }

  /** One connection as both services' loops write it, from the two port names. */
  method EdgeText(edge: Edge) returns (text: string)
    ensures text == EdgeObject(edge)
  {
    text := "{\"from\":\"" + edge.from + "\",\"to\":\"" + edge.to + "\"}";
    EdgeObjectText(edge.from, edge.to);
  }

  lemma EdgeObjectPieces()
    ensures "{\"from\":\"" == "{" + Quote("from") + ":" + "\""
    ensures "\",\"to\":\"" == "\"" + "," + Quote("to") + ":" + "\""
    ensures "\"}" == "\"" + "}"
  {
  }

  lemma Cat9(lb: string, f: string, dq: string, a: string, c: string, t: string, b: string, rb: string)
    ensures (lb + f + dq) + a + (dq + c + t + dq) + b + (dq + rb) == lb + (f + (dq + a + dq)) + c + (t + (dq + b + dq)) + rb
  {
  }

  lemma ErrorBodyText(message: string)
    ensures ErrorBody(message) == "{\"success\":false,\"error\":\"" + message + "\"}"
  {
    TwoFields(Field("success", Bool(false)), Field("error", Str(message)));
  }

  // ---------------------------------------------------------------------------------------------
  // The response frame

  const StatusLine: string := "HTTP/1.1 200 OK"

  /** The status line and headers, without line terminators: three CORS headers, the content type and length. */
  function HeaderLines(length: nat): (hs: seq<string>)
    ensures |hs| == 6 && hs[0] == StatusLine && hs[5] == "Content-Length: " + NatToDecimal(length)
  {
    [StatusLine,
     "Access-Control-Allow-Origin: *",
     "Access-Control-Allow-Methods: GET, POST, OPTIONS",
     "Access-Control-Allow-Headers: Content-Type",
     "Content-Type: application/json",
     "Content-Length: " + NatToDecimal(length)]
  }

  /** The response: the header lines joined by CRLF, a blank line, the body. Always status 200. */
  function Frame(body: string): (r: string)
    ensures |r| >= |body| && r[|r| - |body|..] == body
    ensures StartsWith(r, StatusLine + Crlf)
  {
    HeaderBlockShape(|body|);
    Joined(HeaderLines(|body|), Crlf) + BlankLine + body
  }

  /** What precedes the first blank line of a message. */
  function HeadOf(message: string): Option<string> {
    match Find(message, BlankLine)
    case None => None
    case Some(k) => Some(message[..k])
  }

  /** What follows the first blank line of a message: `message.substr(message.find("\r\n\r\n") + 4)`. */
  function BodyOf(message: string): (r: Option<string>)
    ensures r.None? <==> !Contains(message, BlankLine)
  {
    match Find(message, BlankLine)
    case None => None
    case Some(k) => Some(message[k + 4..])
  }

  predicate StartsWith(s: string, t: string) {
    |t| <= |s| && s[..|t|] == t
  }

  predicate EndsWith(s: string, t: string) {
    |t| <= |s| && s[|s| - |t|..] == t
  }

  lemma StatusLineIsLine()
    ensures LineText(StatusLine)
  {
  }

  lemma OriginLineIsLine()
    ensures LineText("Access-Control-Allow-Origin: *")
  {
  }

  lemma MethodsLineIsLine()
    ensures LineText("Access-Control-Allow-Methods: GET, POST, OPTIONS")
  {
    var a, b := "Access-Control-Allow-Methods: GET", ", POST, OPTIONS";
    assert '\r' !in a && '\n' !in a;
    assert '\r' !in b && '\n' !in b;
    assert "Access-Control-Allow-Methods: GET, POST, OPTIONS" == a + b;
  }

  lemma HeadersLineIsLine()
    ensures LineText("Access-Control-Allow-Headers: Content-Type")
  {
    var a, b := "Access-Control-Allow-Headers: ", "Content-Type";
    assert '\r' !in a && '\n' !in a;
    assert '\r' !in b && '\n' !in b;
    assert "Access-Control-Allow-Headers: Content-Type" == a + b;
  }

  lemma ContentLinesAreLines(length: nat)
    ensures LineText("Content-Type: application/json")
    ensures LineText("Content-Length: " + NatToDecimal(length))
  {
    var d := NatToDecimal(length);
    assert '\r' !in d && '\n' !in d by {
      forall i | 0 <= i < |d| ensures d[i] != '\r' && d[i] != '\n' { assert IsDigit(d[i]); }
    }
  }

  lemma HeaderLinesAreLines(length: nat)
    ensures AllLines(HeaderLines(length))
  {
    StatusLineIsLine();
    OriginLineIsLine();
    MethodsLineIsLine();
    HeadersLineIsLine();
    ContentLinesAreLines(length);
  }

  /** The header block the frame puts before its blank line. */
  function HeaderBlock(length: nat): string {
    Joined(HeaderLines(length), Crlf)
  }

  lemma FrameSplitsAtHeaders(body: string)
    ensures Find(Frame(body), BlankLine) == Some(|HeaderBlock(|body|)|)
  {
    HeaderLinesAreLines(|body|);
    FirstBlankLineEndsHeaders(HeaderLines(|body|), body);
  }

  lemma HeaderBlockShape(length: nat)
    ensures StartsWith(HeaderBlock(length), StatusLine + Crlf)
    ensures EndsWith(HeaderBlock(length), "Content-Length: " + NatToDecimal(length))
  {
    var hs := HeaderLines(length);
    assert hs == [hs[0]] + hs[1..];
    JoinedCons(hs[0], hs[1..], Crlf);
    assert hs == hs[..5] + [hs[5]];
    JoinedSnoc(hs[..5], hs[5], Crlf);
  }

  lemma PartsOfMessage(h: string, body: string)
    ensures (h + BlankLine + body)[..|h|] == h && (h + BlankLine + body)[|h| + 4..] == body
  {
  }

  /**
   * Reading a response back: the first blank line is the one after the headers, so the body is exactly
   * what was framed; the header block starts with the 200 status line and ends with a Content-Length whose
   * numeral denotes the body's length.
   */
  lemma FrameReadsBack(body: string)
    ensures BodyOf(Frame(body)) == Some(body)
    ensures HeadOf(Frame(body)) == Some(HeaderBlock(|body|))
    ensures StartsWith(HeaderBlock(|body|), StatusLine + Crlf)
    ensures EndsWith(HeaderBlock(|body|), "Content-Length: " + NatToDecimal(|body|))
    ensures DecimalValue(NatToDecimal(|body|)) == |body|
  {
    var h := HeaderBlock(|body|);
    var f := Frame(body);
    FrameSplitsAtHeaders(body);
    assert f == h + BlankLine + body;
    PartsOfMessage(h, body);
    HeaderBlockShape(|body|);
    DecimalRoundTrip(|body|);
  }

  /** Every response starts with the 200 status line. */
  lemma FrameStartsWithStatus(body: string)
    ensures StartsWith(Frame(body), StatusLine + Crlf)
  {
    var h := HeaderBlock(|body|);
    HeaderBlockShape(|body|);
    assert Frame(body) == h + (BlankLine + body);
    var p := StatusLine + Crlf;
    assert Frame(body)[..|p|] == h[..|p|];
  }

  // ---------------------------------------------------------------------------------------------
  // extractJsonValue: the pattern "key"\s*:\s*"([^"]+)"

  predicate QuoteFree(s: string) {
    forall i :: 0 <= i < |s| ==> s[i] != '"'
  }

  /** The length of the run of non-quote characters `s` starts with: `[^"]*`. */
  function QuoteFreeLength(s: string): (n: nat)
    ensures n <= |s| && QuoteFree(s[..n])
    ensures n == |s| || s[n] == '"'
  {
    if |s| > 0 && s[0] != '"' then
      assert s[..1 + QuoteFreeLength(s[1..])] == [s[0]] + s[1..][..QuoteFreeLength(s[1..])];
      1 + QuoteFreeLength(s[1..])
    else 0
  }

  /** `([^"]+)"`: a non-empty run of non-quote characters, captured, then the closing quote. */
  function Capture(v: string): (r: Option<string>)
    ensures r.Some? ==> |r.value| > 0 && QuoteFree(r.value) && |r.value| < |v| && v[..|r.value|] == r.value && v[|r.value|] == '"'
  {
    var n := QuoteFreeLength(v);
    if n == 0 || n == |v| then None else Some(v[..n])
  }

  /** `\s*"([^"]+)"`, after the colon. */
  function AfterColon(w: string): (r: Option<string>)
    ensures r.Some? ==> |r.value| > 0 && QuoteFree(r.value)
  {
    if |w| > 0 && IsSpace(w[0]) then AfterColon(w[1..])
    else if |w| > 0 && w[0] == '"' then Capture(w[1..])
    else None
  }

  /** `\s*:\s*"([^"]+)"`, after the quoted key. */
  function AfterKey(u: string): (r: Option<string>)
    ensures r.Some? ==> |r.value| > 0 && QuoteFree(r.value)
  {
    if |u| > 0 && IsSpace(u[0]) then AfterKey(u[1..])
    else if |u| > 0 && u[0] == ':' then AfterColon(u[1..])
    else None
  }

  /**
   * The pattern `"key"\s*:\s*"([^"]+)"` anchored at the start of `t`, with the captured group as the result.
   * The pattern can match at most one way: each `\s*` is followed by a character that is not whitespace, and
   * `[^"]+` must be followed by the quote it cannot contain, so the greedy reading here is the only one.
   */
  function MatchPrefix(t: string, key: string): (r: Option<string>)
    ensures r.Some? ==> |r.value| > 0 && QuoteFree(r.value)
  {
    if StartsWith(t, Quote(key)) then AfterKey(t[|key| + 2..]) else None
  }

  /** The leftmost position at or after `i` where the pattern matches: the search of `std::regex_search`. */
  function FirstMatch(s: string, key: string, i: nat): (r: Option<nat>)
    requires i <= |s|
    ensures r.Some? ==> i <= r.value <= |s| && MatchPrefix(s[r.value..], key).Some?
    ensures r.Some? ==> forall j :: i <= j < r.value ==> MatchPrefix(s[j..], key).None?
    ensures r.None? ==> forall j :: i <= j <= |s| ==> MatchPrefix(s[j..], key).None?
    decreases |s| - i
  {
    if MatchPrefix(s[i..], key).Some? then Some(i)
    else if i == |s| then None
    else FirstMatch(s, key, i + 1)
  }

  /** No match of the pattern starts before position `k`. */
  predicate LeftmostAt(json: string, key: string, k: nat) {
    forall j :: 0 <= j < k && j <= |json| ==> MatchPrefix(json[j..], key).None?
  }

  /** The captured value of the leftmost match, or "" when the pattern matches nowhere. */
  function ExtractJsonValue(json: string, key: string): (r: string)
    ensures r == "" <==> forall j :: 0 <= j <= |json| ==> MatchPrefix(json[j..], key).None?
    ensures r != "" ==> QuoteFree(r)
    ensures r != "" ==> exists k :: 0 <= k <= |json| && MatchPrefix(json[k..], key) == Some(r) && LeftmostAt(json, key, k)
  {
    match FirstMatch(json, key, 0)
    case None => ""
    case Some(k) => MatchPrefix(json[k..], key).value
  }

  /** The extractor returns the value at the leftmost position where the pattern matches. */
  lemma ExtractLeftmost(json: string, key: string, k: nat, v: string)
    requires k <= |json| && MatchPrefix(json[k..], key) == Some(v)
    requires forall j :: 0 <= j < k ==> MatchPrefix(json[j..], key).None?
    ensures ExtractJsonValue(json, key) == v
  {
    var f := FirstMatch(json, key, 0);
    assert f == Some(k);
  }

  /** The quoted key followed by whitespace or a colon: how every match of the pattern opens. */
  predicate Opens(t: string, key: string) {
    |t| >= |key| + 3 && t[0] == '"' && t[1..|key| + 1] == key && t[|key| + 1] == '"' &&
    (IsSpace(t[|key| + 2]) || t[|key| + 2] == ':')
  }

  lemma MatchShape(t: string, key: string)
    requires MatchPrefix(t, key).Some?
    ensures Opens(t, key)
  {
    var q := Quote(key);
    assert t[..|q|] == q;
    assert t[1..|key| + 1] == q[1..|q| - 1];
  }

  lemma {:induction false} QuoteFreeLengthOf(x: string, rest: string)
    requires QuoteFree(x) && |rest| > 0 && rest[0] == '"'
    ensures QuoteFreeLength(x + rest) == |x|
    decreases |x|
  {
    if |x| == 0 {
      assert x + rest == rest;
    } else {
      assert (x + rest)[0] == x[0];
      assert (x + rest)[1..] == x[1..] + rest;
      QuoteFreeLengthOf(x[1..], rest);
    }
  }

  /** `"key":"value"` matches whatever follows it, capturing the value. */
  lemma MatchOfField(key: string, v: string, rest: string)
    requires |v| > 0 && QuoteFree(v)
    ensures MatchPrefix(Quote(key) + ":" + Quote(v) + rest, key) == Some(v)
  {
    var q := Quote(key);
    var t := q + ":" + Quote(v) + rest;
    assert t[..|q|] == q;
    var u := t[|q|..];
    assert u == ":" + Quote(v) + rest;
    var w := u[1..];
    assert w == "\"" + v + "\"" + rest;
    assert w[1..] == v + ("\"" + rest);
    QuoteFreeLengthOf(v, "\"" + rest);
    assert w[1..][..|v|] == v;
  }

  // ---------------------------------------------------------------------------------------------
  // The body of /connect and /disconnect

  /** The body a client sends: `{"source":"<from>","destination":"<to>"}`. */
  function EdgeBody(edge: Edge): string {
    Object([Field("source", Str(edge.from)), Field("destination", Str(edge.to))])
  }

  /**
   * The validation both command handlers do before touching the server: a request without a blank line has
   * no body; a body where either field is missing (or empty) is refused.
   */
  function ParseEdgeRequest(request: string): (r: Result<Edge, string>)
    ensures r.Failure? ==> r.error == NoBodyError || r.error == MissingEdgeError
    ensures r.Failure? && r.error == NoBodyError <==> !Contains(request, BlankLine)
    ensures r.Success? ==> r.value.from != "" && r.value.to != "" && QuoteFree(r.value.from) && QuoteFree(r.value.to)
    ensures r.Success? ==>
      (BodyOf(request).Some? &&
       r.value == Edge(ExtractJsonValue(BodyOf(request).value, "source"), ExtractJsonValue(BodyOf(request).value, "destination")))
    ensures r == Failure(MissingEdgeError) <==>
      (BodyOf(request).Some? &&
       (ExtractJsonValue(BodyOf(request).value, "source") == "" || ExtractJsonValue(BodyOf(request).value, "destination") == ""))
  {
    match BodyOf(request)
    case None => Failure(NoBodyError)
    case Some(body) =>
      var source := ExtractJsonValue(body, "source");
      var destination := ExtractJsonValue(body, "destination");
      if source == "" || destination == "" then Failure(MissingEdgeError)
      else Success(Edge(source, destination))
  }

  /** A port name a client can send in a command body: non-empty and without quotes. */
  predicate Sendable(name: string) {
    |name| > 0 && QuoteFree(name)
  }

  /** The text of an edge body, its source member written out. */
  lemma EdgeBodyText(edge: Edge)
    ensures EdgeBody(edge) == "{" + (Quote("source") + ":" + ("\"" + edge.from + "\"")) + "," + RenderField(Field("destination", Str(edge.to))) + "}"
  {
    TwoFields(Field("source", Str(edge.from)), Field("destination", Str(edge.to)));
  }

  /** Where the characters of a body that opens with a source member sit. */
  lemma SourceLayout(json: string, a: string, y: string)
    requires json == "{" + (Quote("source") + ":" + ("\"" + a + "\"")) + "," + y + "}"
    ensures |json| > 13 + |a|
    ensures json[..11] == "{\"source\":\""
    ensures json[11..11 + |a|] == a
    ensures json[11 + |a|] == '"' && json[12 + |a|] == ','
    ensures json[1..] == Quote("source") + ":" + Quote(a) + ("," + y + "}")
    ensures json[13 + |a|..] == y + "}"
  {
    var lb, q, dq, rest := "{", Quote("source"), "\"", "," + y + "}";
    assert json == lb + (q + ":" + (dq + a + dq)) + rest;
    var p := lb + q + ":" + dq;
    assert p == "{\"source\":\"";
    Layout(lb, q + ":", dq, a, rest);
  }

  /** Splits `lb + (m + (dq + a + dq)) + rest` around `a`. */
  lemma Layout(lb: string, m: string, dq: string, a: string, rest: string)
    ensures var json := lb + (m + (dq + a + dq)) + rest; var p := lb + m + dq;
      json == p + a + (dq + rest) && json[..|p|] == p && json[|p|..|p| + |a|] == a && json[|p| + |a|..] == dq + rest &&
      json[|lb|..] == m + (dq + a + dq) + rest
  {
  }

  /** Fields are extracted from the body a client builds for an edge, each from its own member. */
  lemma ExtractEdgeBody(edge: Edge)
    requires Sendable(edge.from) && Sendable(edge.to)
    ensures ExtractJsonValue(EdgeBody(edge), "source") == edge.from
    ensures ExtractJsonValue(EdgeBody(edge), "destination") == edge.to
  {
    var json := EdgeBody(edge);
    var a := edge.from;
    var y := RenderField(Field("destination", Str(edge.to)));
    EdgeBodyText(edge);
    SourceLayout(json, a, y);
    // "source": the member right after the opening brace
    MatchOfField("source", a, "," + y + "}");
    forall j | 0 <= j < 1 ensures MatchPrefix(json[j..], "source").None? {
      assert json[j] == json[..11][0];
      if MatchPrefix(json[j..], "source").Some? {
        MatchShape(json[j..], "source");
      }
    }
    ExtractLeftmost(json, "source", 1, a);
    // "destination": no earlier position starts a match
    var k := 13 + |a|;
    MatchOfField("destination", edge.to, "}");
    forall j | 0 <= j < k ensures MatchPrefix(json[j..], "destination").None? {
      NoDestinationBefore(json, a, j);
      if MatchPrefix(json[j..], "destination").Some? {
        MatchShape(json[j..], "destination");
      }
    }
    ExtractLeftmost(json, "destination", k, edge.to);
  }

  /** No position before the destination member opens a match for it. */
  lemma NoDestinationBefore(json: string, a: string, j: nat)
    requires QuoteFree(a) && |json| > 13 + |a|
    requires json[..11] == "{\"source\":\"" && json[11..11 + |a|] == a && json[11 + |a|] == '"' && json[12 + |a|] == ','
    requires j < 13 + |a|
    ensures !Opens(json[j..], "destination")
  {
    var t := json[j..];
    var key := "destination";
    if j < 11 {
      assert t[0] == json[..11][j];
      if j == 10 {
        if |a| < 11 {
          assert t[1 + |a|] == json[11 + |a|];
          assert t[1 + |a|] != key[|a|];
        } else if |a| == 11 {
          assert t[13] == json[23];
        } else {
          assert t[12] == json[22] == a[11];
        }
      } else if j == 1 || j == 8 {
        assert t[1] == json[..11][j + 1];
        assert t[1] != key[0];
      }
    } else if j < 11 + |a| {
      assert t[0] == json[11..11 + |a|][j - 11];
    } else if j == 11 + |a| {
      assert t[1] != key[0];
    }
  }

  /** A request whose header lines are followed by a blank line and an edge body parses to that edge. */
  lemma ParseEdgeRequestRoundTrip(lines: seq<string>, edge: Edge)
    requires |lines| > 0 && AllLines(lines)
    requires Sendable(edge.from) && Sendable(edge.to)
    ensures ParseEdgeRequest(Joined(lines, Crlf) + BlankLine + EdgeBody(edge)) == Success(edge)
  {
    var h := Joined(lines, Crlf);
    var request := h + BlankLine + EdgeBody(edge);
    FirstBlankLineEndsHeaders(lines, EdgeBody(edge));
    PartsOfMessage(h, EdgeBody(edge));
    ExtractEdgeBody(edge);
  }
}
