/**
 Handling one request on each of the three protocols: HTTP/1.1
 (`src/server/connection.rs`, `relay` in `src/proxy/mod.rs`), HTTP/2
 (`src/http2/mod.rs`) and HTTP/3 (`src/http3/mod.rs`). What the upstream, the module
 and the client's connection do is given as input.
 */
module FrontEnds {
  import opened Results
  import opened Text
  import opened Requests
  import opened Responses
  import opened Routing
  import opened Configs
  import opened StaticFiles

  // ---------------------------------------------------------------------
  // Inputs and effects
  // ---------------------------------------------------------------------

  /** The kinds of I/O error that the handlers tell apart. */
  datatype IoError = NotConnected | OtherError

  /** What `fetch_from_upstream` returns; no healthy upstream is `Err(NotConnected)`. */
  type Fetched = Result<string, IoError>

  /** What `wasm::invoke` returns. */
  type Invoked = Result<(nat, string), string>

  /**
   What a request meets: the two table snapshots, each target given by its outcome
   for this request, the configuration and the file system.
   */
  datatype World = World(
    proxy: seq<Route<Fetched>>, wasm: seq<Route<Invoked>>,
    cfg: Config, fs: Filesystem, pages: Pages)

  /** The access log. */
  datatype Entry = Entry(verb: string, path: string, status: nat)

  class Logger {
    var access: seq<Entry>

    constructor ()
      ensures access == []
    {
      access := [];
    }

    method Access(verb: string, path: string, status: nat)
      modifies this
      ensures access == old(access) + [Entry(verb, path, status)]
    {
      access := access + [Entry(verb, path, status)];
    }
  }

  /** What is sent on an h2 or h3 stream: a header block, then data. */
  datatype Frame =
    | Head(status: nat, contentType: string, contentLength: Option<nat>)
    | Data(bytes: string)

  /** The sending side of an h2 or h3 stream; the client may reset it before the headers or before the data. */
  class ResponseStream {
    const takesHead: bool
    const takesData: bool
    var frames: seq<Frame>

    constructor (takesHead: bool, takesData: bool)
      ensures this.takesHead == takesHead && this.takesData == takesData && frames == []
    {
      this.takesHead := takesHead;
      this.takesData := takesData;
      frames := [];
    }

    method SendHead(f: Frame) returns (ok: bool)
      modifies this
      ensures ok == takesHead && frames == if ok then old(frames) + [f] else old(frames)
    {
      ok := takesHead;
      if ok {
        frames := frames + [f];
      }
    }

    method SendData(bytes: string) returns (ok: bool)
      modifies this
      ensures ok == takesData && frames == if ok then old(frames) + [Data(bytes)] else old(frames)
    {
      ok := takesData;
      if ok {
        frames := frames + [Data(bytes)];
      }
    }
  }

  // ---------------------------------------------------------------------
  // Decisions shared by the front ends
  // ---------------------------------------------------------------------

  datatype Decision = Proxied(fetched: Fetched) | Module(invoked: Invoked) | Static(answer: Message)

  /** Proxy routes come first, then wasm routes, then static files. */
  function Decide(r: Request, w: World): Decision {
    var proxied := MatchRoute(w.proxy, r.path);
    if proxied.Some? then Proxied(proxied.value.target)
    else
      var invoked := MatchRoute(w.wasm, r.path);
      if invoked.Some? then Module(invoked.value.target)
      else Static(StaticAnswer(r.verb, r.path, w.cfg, w.fs, w.pages))
  }

  function ErrorStatus(e: IoError): nat {
    if e == NotConnected then 503 else 502
  }

  /** The status of a decision, as h2 and h3 log and send it. */
  function StatusOf(d: Decision): nat {
    match d
    case Proxied(Ok(raw)) => SplitRaw(raw).0
    case Proxied(Err(e)) => ErrorStatus(e)
    case Module(Ok((status, _))) => status
    case Module(Err(_)) => 500
    case Static(m) => m.status
  }

  // ---------------------------------------------------------------------
  // HTTP/1.1
  // ---------------------------------------------------------------------

  function StatusText(code: nat): string {
    match code
    case 200 => "OK"
    case 201 => "Created"
    case 204 => "No Content"
    case 301 => "Moved Permanently"
    case 302 => "Found"
    case 400 => "Bad Request"
    case 401 => "Unauthorized"
    case 403 => "Forbidden"
    case 404 => "Not Found"
    case 405 => "Method Not Allowed"
    case 500 => "Internal Server Error"
    case _ => "OK"
  }

  function ErrorText(status: nat): string {
    match status
    case 502 => "Bad Gateway"
    case 503 => "Service Unavailable"
    case _ => "Internal Server Error"
  }

  function ErrorPage(status: nat, w: World): Message {
    PageMessage(status, ErrorText(status), w.cfg.serverName, w.pages)
  }

  function ModuleMessage(status: nat, body: string, w: World): Message {
    Message(status, StatusText(status), w.cfg.serverName, "text/plain; charset=utf-8", body)
  }

  /** The bytes that an HTTP/1.1 client is sent. */
  function WireBytes(d: Decision, w: World): string {
    match d
    case Proxied(Ok(raw)) => raw
    case Proxied(Err(e)) => Serialize(ErrorPage(ErrorStatus(e), w))
    case Module(Ok((status, body))) => Serialize(ModuleMessage(status, body, w))
    case Module(Err(_)) => Serialize(ErrorPage(500, w))
    case Static(m) => Serialize(m)
  }

  /** The client takes all the bytes of the response. */
  predicate TakesAll(bytes: string, limit: nat, flushes: bool) {
    |bytes| <= limit && flushes
  }

  /** The status that HTTP/1.1 logs: a relay counts only if the client took all of it. */
  function LoggedH1(d: Decision, taken: bool, clientError: IoError): nat {
    if d.Proxied? && d.fetched.Ok? && !taken then ErrorStatus(clientError) else StatusOf(d)
  }

  /**
   What reaches the client. When the flush of a relayed response fails although all
   of it was accepted, an error page is sent after it.
   */
  function WireOf(d: Decision, w: World, limit: nat, flushes: bool, clientError: IoError): string {
    if d.Proxied? && d.fetched.Ok? && !flushes then
      Cut(Cut(d.fetched.value, limit) + Serialize(ErrorPage(ErrorStatus(clientError), w)), limit)
    else Cut(WireBytes(d, w), limit)
  }

  /** The first `limit` bytes. */
  function Cut(s: string, limit: nat): string {
    if |s| <= limit then s else s[..limit]
  }

  /** `relay` once the upstream has answered: the status, or the client's write error. */
  method Relay(raw: string, sink: Sink, clientError: IoError) returns (r: Result<nat, IoError>)
    requires |sink.written| <= sink.limit
    modifies sink
    ensures |sink.written| <= sink.limit && sink.written == Cut(old(sink.written) + raw, sink.limit)
    ensures r == if TakesAll(old(sink.written) + raw, sink.limit, sink.flushes) then Ok(SplitRaw(raw).0)
                 else Err(clientError)
  {
    var status := ExtractStatus(raw);
    var ok := sink.WriteAll(raw);
    if !ok { return Err(clientError); }
    ok := sink.Flush();
    if !ok { return Err(clientError); }
    return Ok(status);
  }

  /** Sends the page for an error status and logs it. */
  method SendError(r: Request, status: nat, text: string, w: World, logger: Logger, sink: Sink)
    requires |sink.written| <= sink.limit
    modifies logger, sink
    ensures |sink.written| <= sink.limit
    ensures sink.written
         == Cut(old(sink.written) + Serialize(PageMessage(status, text, w.cfg.serverName, w.pages)), sink.limit)
    ensures logger.access == old(logger.access) + [Entry(r.verb, r.path, status)]
  {
    hide Serialize;
    var resp := new Response.Page(status, text, w.cfg.serverName, w.pages(status));
    var sent := resp.Send(sink);
    logger.Access(r.verb, r.path, status);
  }

  lemma ErrorPages(w: World)
    ensures ErrorPage(500, w) == PageMessage(500, "Internal Server Error", w.cfg.serverName, w.pages)
    ensures ErrorPage(502, w) == PageMessage(502, "Bad Gateway", w.cfg.serverName, w.pages)
    ensures ErrorPage(503, w) == PageMessage(503, "Service Unavailable", w.cfg.serverName, w.pages)
    ensures ErrorStatus(NotConnected) == 503 && ErrorStatus(OtherError) == 502
  {
    hide PageMessage;
  }

  /** `handle_generic` after the request has been parsed. */
  method HandleH1(r: Request, w: World, logger: Logger, sink: Sink, clientError: IoError)
    requires sink.written == ""
    modifies logger, sink
    ensures var d := Decide(r, w);
            && sink.written == WireOf(d, w, sink.limit, sink.flushes, clientError)
            && logger.access == old(logger.access)
                 + [Entry(r.verb, r.path,
                          LoggedH1(d, TakesAll(WireBytes(d, w), sink.limit, sink.flushes), clientError))]
  {
    hide Serialize, SplitRaw, StatusText, ErrorText, ErrorPage, StaticAnswer;
    var route := MatchRoute(w.proxy, r.path);
    if route.Some? {
      HandleProxied(r, route.value.target, w, logger, sink, clientError);
      return;
    }
    var module' := MatchRoute(w.wasm, r.path);
    if module'.Some? {
      HandleModule(r, module'.value.target, w, logger, sink);
      return;
    }
    var response := Serve(r.verb, r.path, w.cfg, w.fs, w.pages);
    logger.Access(r.verb, r.path, response.status);
    var sent := response.Send(sink);
    assert "" + Serialize(response.Value()) == Serialize(response.Value());
  }

  method HandleProxied(r: Request, fetched: Fetched, w: World, logger: Logger, sink: Sink, clientError: IoError)
    requires sink.written == ""
    modifies logger, sink
    ensures var d := Proxied(fetched);
            && sink.written == WireOf(d, w, sink.limit, sink.flushes, clientError)
            && logger.access == old(logger.access)
                 + [Entry(r.verb, r.path,
                          LoggedH1(d, TakesAll(WireBytes(d, w), sink.limit, sink.flushes), clientError))]
  {
    ErrorPages(w);
    hide Serialize, SplitRaw, ErrorPage, PageMessage, ErrorStatus;
    match fetched
    case Ok(raw) =>
      var relayed := Relay(raw, sink, clientError);
      assert "" + raw == raw;
      match relayed {
        case Ok(status) => logger.Access(r.verb, r.path, status);
        case Err(e) =>
          CutStays(raw, Serialize(ErrorPage(ErrorStatus(e), w)), sink.limit);
          SendUpstreamError(r, e, w, logger, sink);
      }
    case Err(e) =>
      SendUpstreamError(r, e, w, logger, sink);
      assert "" + Serialize(ErrorPage(ErrorStatus(e), w)) == Serialize(ErrorPage(ErrorStatus(e), w));
  }

  /** The two error arms of the proxied case. */
  method SendUpstreamError(r: Request, e: IoError, w: World, logger: Logger, sink: Sink)
    requires |sink.written| <= sink.limit
    modifies logger, sink
    ensures |sink.written| <= sink.limit
    ensures sink.written == Cut(old(sink.written) + Serialize(ErrorPage(ErrorStatus(e), w)), sink.limit)
    ensures logger.access == old(logger.access) + [Entry(r.verb, r.path, ErrorStatus(e))]
  {
    ErrorPages(w);
    hide Serialize, ErrorPage, PageMessage, ErrorStatus;
    match e
    case NotConnected => SendError(r, 503, "Service Unavailable", w, logger, sink);
    case OtherError => SendError(r, 502, "Bad Gateway", w, logger, sink);
  }

  /** Nothing more is written to a connection that is full. */
  lemma CutStays(s: string, more: string, limit: nat)
    ensures limit <= |s| ==> Cut(Cut(s, limit) + more, limit) == Cut(s, limit)
  {
  }

  method HandleModule(r: Request, invoked: Invoked, w: World, logger: Logger, sink: Sink)
    requires sink.written == ""
    modifies logger, sink
    ensures var d := Module(invoked);
            && sink.written == Cut(WireBytes(d, w), sink.limit)
            && logger.access == old(logger.access) + [Entry(r.verb, r.path, StatusOf(d))]
  {
    ErrorPages(w);
    hide Serialize, StatusText, ErrorPage, PageMessage;
    match invoked
    case Ok((status, body)) =>
      var resp := new Response(status, StatusText(status), w.cfg.serverName);
      resp.SetBody(body, "text/plain; charset=utf-8");
      logger.Access(r.verb, r.path, status);
      var sent := resp.Send(sink);
      assert "" + Serialize(resp.Value()) == Serialize(resp.Value());
    case Err(_) =>
      SendError(r, 500, "Internal Server Error", w, logger, sink);
      assert "" + Serialize(ErrorPage(500, w)) == Serialize(ErrorPage(500, w));
  }

  // ---------------------------------------------------------------------
  // HTTP/2 and HTTP/3
  // ---------------------------------------------------------------------

  /** The short error bodies of the h2 and h3 bridges, by status; their wording is not modelled. */
  type ShortPages = nat -> string

  function BridgeType(d: Decision): string {
    match d
    case Proxied(Ok(_)) => "application/octet-stream"
    case Proxied(Err(_)) => "text/html; charset=utf-8"
    case Module(Ok(_)) => "text/plain; charset=utf-8"
    case Module(Err(_)) => "text/html; charset=utf-8"
    case Static(m) => m.contentType
  }

  function BridgeBody(d: Decision, short: ShortPages): string {
    match d
    case Proxied(Ok(raw)) => SplitRaw(raw).1
    case Proxied(Err(e)) => short(ErrorStatus(e))
    case Module(Ok((_, body))) => body
    case Module(Err(_)) => short(500)
    case Static(m) => m.body
  }

  /** The status codes from which a response can be built; any other panics the task. */
  predicate Buildable(status: nat) {
    100 <= status <= 999
  }

  /** What reaches the stream: nothing if the status cannot be built or the client does not take it. */
  function Sent(takesHead: bool, takesData: bool, head: Frame, body: string): seq<Frame>
    requires head.Head?
  {
    if !takesHead || !Buildable(head.status) then [] else if takesData then [head, Data(body)] else [head]
  }

  function H2Head(d: Decision, short: ShortPages): (head: Frame)
    ensures head.Head?
  {
    Head(StatusOf(d), BridgeType(d), Some(|BridgeBody(d, short)|))
  }

  function H3Head(d: Decision): (head: Frame)
    ensures head.Head?
  {
    Head(StatusOf(d), BridgeType(d), None)
  }

  /** `send_h2_response`, with a content-length header. */
  method SendH2(stream: ResponseStream, status: nat, contentType: string, body: string)
    modifies stream
    ensures stream.frames == old(stream.frames)
              + Sent(stream.takesHead, stream.takesData, Head(status, contentType, Some(|body|)), body)
  {
    if Buildable(status) {
      var ok := stream.SendHead(Head(status, contentType, Some(|body|)));
      if ok {
        ok := stream.SendData(body);
      }
    }
  }

  /** `send_h3_response`, without one. */
  method SendH3(stream: ResponseStream, status: nat, contentType: string, body: string)
    modifies stream
    ensures stream.frames == old(stream.frames)
              + Sent(stream.takesHead, stream.takesData, Head(status, contentType, None), body)
  {
    if Buildable(status) {
      var ok := stream.SendHead(Head(status, contentType, None));
      if ok {
        ok := stream.SendData(body);
      }
    }
  }

  /** `http2::handle_stream`: log first, then send. */
  method HandleH2(r: Request, w: World, logger: Logger, stream: ResponseStream, short: ShortPages)
    modifies logger, stream
    ensures var d := Decide(r, w);
            && logger.access == old(logger.access) + [Entry(r.verb, r.path, StatusOf(d))]
            && stream.frames == old(stream.frames)
                 + Sent(stream.takesHead, stream.takesData, H2Head(d, short), BridgeBody(d, short))
  {
    hide SplitRaw, StaticAnswer;
    var route := MatchRoute(w.proxy, r.path);
    if route.Some? {
      match route.value.target {
        case Ok(raw) =>
          var (status, body) := SplitRaw(raw);
          logger.Access(r.verb, r.path, status);
          SendH2(stream, status, "application/octet-stream", body);
        case Err(NotConnected) =>
          logger.Access(r.verb, r.path, 503);
          SendH2(stream, 503, "text/html; charset=utf-8", short(503));
        case Err(OtherError) =>
          logger.Access(r.verb, r.path, 502);
          SendH2(stream, 502, "text/html; charset=utf-8", short(502));
      }
      return;
    }
    var module' := MatchRoute(w.wasm, r.path);
    if module'.Some? {
      match module'.value.target {
        case Ok((status, body)) =>
          logger.Access(r.verb, r.path, status);
          SendH2(stream, status, "text/plain; charset=utf-8", body);
        case Err(_) =>
          logger.Access(r.verb, r.path, 500);
          SendH2(stream, 500, "text/html; charset=utf-8", short(500));
      }
      return;
    }
    var response := Serve(r.verb, r.path, w.cfg, w.fs, w.pages);
    logger.Access(r.verb, r.path, response.status);
    SendH2(stream, response.status, response.contentType, response.body);
  }

  /** `http3::handle_stream`: the same decisions over h3. */
  method HandleH3(r: Request, w: World, logger: Logger, stream: ResponseStream, short: ShortPages)
    modifies logger, stream
    ensures var d := Decide(r, w);
            && logger.access == old(logger.access) + [Entry(r.verb, r.path, StatusOf(d))]
            && stream.frames == old(stream.frames)
                 + Sent(stream.takesHead, stream.takesData, H3Head(d), BridgeBody(d, short))
  {
    hide SplitRaw, StaticAnswer;
    var route := MatchRoute(w.proxy, r.path);
    if route.Some? {
      match route.value.target {
        case Ok(raw) =>
          var (status, body) := SplitRaw(raw);
          logger.Access(r.verb, r.path, status);
          SendH3(stream, status, "application/octet-stream", body);
        case Err(NotConnected) =>
          logger.Access(r.verb, r.path, 503);
          SendH3(stream, 503, "text/html; charset=utf-8", short(503));
        case Err(OtherError) =>
          logger.Access(r.verb, r.path, 502);
          SendH3(stream, 502, "text/html; charset=utf-8", short(502));
      }
      return;
    }
    var module' := MatchRoute(w.wasm, r.path);
    if module'.Some? {
      match module'.value.target {
        case Ok((status, body)) =>
          logger.Access(r.verb, r.path, status);
          SendH3(stream, status, "text/plain; charset=utf-8", body);
        case Err(_) =>
          logger.Access(r.verb, r.path, 500);
          SendH3(stream, 500, "text/html; charset=utf-8", short(500));
      }
      return;
    }
    var response := Serve(r.verb, r.path, w.cfg, w.fs, w.pages);
    logger.Access(r.verb, r.path, response.status);
    SendH3(stream, response.status, response.contentType, response.body);
  }

  // ---------------------------------------------------------------------
  // Agreement
  // ---------------------------------------------------------------------

  /** The decision carries an answer, not an error of the server's own. */
  predicate Answered(d: Decision) {
    match d
    case Proxied(f) => f.Ok?
    case Module(i) => i.Ok?
    case Static(_) => true
  }

  /** A module's status has the reason phrase that the server's own answers have with that status. */
  lemma PhrasesAgree(verb: string, path: string, w: World)
    ensures var m := StaticAnswer(verb, path, w.cfg, w.fs, w.pages); StatusText(m.status) == m.text
    ensures StatusText(500) == ErrorPage(500, w).text
  {
    hide Target, ParsePath, IsWithin, Read, MimeFor, Readable;
  }

  lemma LowStatusClean(code: nat)
    requires code < 401
    ensures '\n' !in StatusText(code)
  {
  }

  lemma HighStatusClean(code: nat)
    requires 401 <= code
    ensures '\n' !in StatusText(code)
  {
  }

  lemma StatusTextClean(code: nat)
    ensures '\n' !in StatusText(code)
  {
    hide StatusText;
    if code < 401 { LowStatusClean(code); } else { HighStatusClean(code); }
  }

  lemma ErrorPageClean(status: nat, w: World)
    requires '\n' !in w.cfg.serverName
    ensures CleanHead(ErrorPage(status, w)) && ErrorPage(status, w).status == status
  {
    assert '\n' !in ErrorText(status);
    hide CleanHead, ErrorText;
    PageClean(status, ErrorText(status), w.cfg.serverName, w.pages);
  }

  lemma ModuleMessageClean(status: nat, body: string, w: World)
    requires '\n' !in w.cfg.serverName
    ensures CleanHead(ModuleMessage(status, body, w))
  {
    hide StatusText;
    StatusTextClean(status);
  }

  /** The head of every response that HTTP/1.1 builds itself is clean. */
  lemma WireIsMessage(d: Decision, w: World) returns (m: Message)
    requires '\n' !in w.cfg.serverName && StatusOf(d) <= U16_MAX
    requires !(d.Proxied? && d.fetched.Ok?)
    requires d.Static? ==> CleanHead(d.answer)
    ensures WireBytes(d, w) == Serialize(m) && CleanHead(m) && m.status == StatusOf(d)
    ensures Answered(d) ==> m.body == BridgeBody(d, _ => "")
  {
    hide Serialize, StatusText, ErrorText, CleanHead, ErrorPage;
    match d
    case Proxied(Err(e)) =>
      ErrorPageClean(ErrorStatus(e), w);
      m := ErrorPage(ErrorStatus(e), w);
    case Module(Ok((status, body))) =>
      ModuleMessageClean(status, body, w);
      m := ModuleMessage(status, body, w);
    case Module(Err(_)) =>
      ErrorPageClean(500, w);
      m := ErrorPage(500, w);
    case Static(answer) =>
      m := answer;
  }

  /** Taking apart the bytes of HTTP/1.1 gives the status of the decision, and its body if it is an answer. */
  lemma WireSplits(r: Request, w: World, short: ShortPages)
    requires '\n' !in w.cfg.serverName && StatusOf(Decide(r, w)) <= U16_MAX
    ensures var d := Decide(r, w);
            && SplitRaw(WireBytes(d, w)).0 == StatusOf(d)
            && (Answered(d) ==> SplitRaw(WireBytes(d, w)).1 == BridgeBody(d, short))
  {
    var d := Decide(r, w);
    if d.Static? { StaticAnswerClean(r.verb, r.path, w.cfg, w.fs, w.pages); }
    hide Serialize, SplitRaw, WireBytes, StaticAnswer, CleanHead, Decide;
    if d.Proxied? && d.fetched.Ok? {
      RelayedBytes(d, w);
    } else {
      var m := WireIsMessage(d, w);
      ResponseRoundTrip(m);
    }
  }

  lemma RelayedBytes(d: Decision, w: World)
    requires d.Proxied? && d.fetched.Ok?
    ensures WireBytes(d, w) == d.fetched.value
  {
  }

  /** `frames` carry the split response: headers exactly when they can be built, and its body if it has one. */
  ghost predicate Carries(frames: seq<Frame>, takesHead: bool, takesData: bool, split: (nat, string), answered: bool) {
    && (frames != [] <==> takesHead && 100 <= split.0 <= 999)
    && (frames != [] ==> frames[0].Head? && frames[0].status == split.0)
    && (|frames| == 2 <==> takesHead && takesData && 100 <= split.0 <= 999)
    && |frames| <= 2
    && (|frames| == 2 && answered ==> frames[1] == Data(split.1))
  }

  lemma SentCarries(head: Frame, body: string, takesHead: bool, takesData: bool, split: (nat, string), answered: bool)
    requires head.Head? && head.status == split.0 && (answered ==> body == split.1)
    ensures Carries(Sent(takesHead, takesData, head, body), takesHead, takesData, split, answered)
  {
  }

  /** What HTTP/1.1 wrote and what h2 or h3 sent for one decision belong together. */
  lemma Agreement(d: Decision, w: World, short: ShortPages, takesHead: bool, takesData: bool)
    requires SplitRaw(WireBytes(d, w)).0 == StatusOf(d)
    requires Answered(d) ==> SplitRaw(WireBytes(d, w)).1 == BridgeBody(d, short)
    ensures var split, body := SplitRaw(WireBytes(d, w)), BridgeBody(d, short);
            && Carries(Sent(takesHead, takesData, H2Head(d, short), body), takesHead, takesData, split, Answered(d))
            && Carries(Sent(takesHead, takesData, H3Head(d), body), takesHead, takesData, split, Answered(d))
  {
    hide *;
    HeadsOf(d, short);
    var split, body := SplitRaw(WireBytes(d, w)), BridgeBody(d, short);
    SentCarries(H2Head(d, short), body, takesHead, takesData, split, Answered(d));
    SentCarries(H3Head(d), body, takesHead, takesData, split, Answered(d));
  }

  // Each protocol with an access log of its own.

  method OnH1(r: Request, w: World, sink: Sink, clientError: IoError) returns (log: Entry)
    requires sink.written == ""
    modifies sink
    ensures var d := Decide(r, w);
            && sink.written == WireOf(d, w, sink.limit, sink.flushes, clientError)
            && log == Entry(r.verb, r.path,
                            LoggedH1(d, TakesAll(WireBytes(d, w), sink.limit, sink.flushes), clientError))
  {
    hide *;
    var logger := new Logger();
    HandleH1(r, w, logger, sink, clientError);
    log := logger.access[0];
  }

  method OnH2(r: Request, w: World, stream: ResponseStream, short: ShortPages) returns (log: Entry)
    requires stream.frames == []
    modifies stream
    ensures var d := Decide(r, w);
            && log == Entry(r.verb, r.path, StatusOf(d))
            && stream.frames == Sent(stream.takesHead, stream.takesData, H2Head(d, short), BridgeBody(d, short))
  {
    hide *;
    var logger := new Logger();
    HandleH2(r, w, logger, stream, short);
    log := logger.access[0];
  }

  method OnH3(r: Request, w: World, stream: ResponseStream, short: ShortPages) returns (log: Entry)
    requires stream.frames == []
    modifies stream
    ensures var d := Decide(r, w);
            && log == Entry(r.verb, r.path, StatusOf(d))
            && stream.frames == Sent(stream.takesHead, stream.takesData, H3Head(d), BridgeBody(d, short))
  {
    hide *;
    var logger := new Logger();
    HandleH3(r, w, logger, stream, short);
    log := logger.access[0];
  }

  /** What the matched proxy route, else the matched module, else the file system makes of a request. */
  lemma OutcomeIs(r: Request, w: World)
    ensures var d, p, m := Decide(r, w), MatchRoute(w.proxy, r.path), MatchRoute(w.wasm, r.path);
            && (p.Some? ==> d == Proxied(p.value.target))
            && (p.None? && m.Some? ==> d == Module(m.value.target))
            && (p.None? && m.None? ==> d == Static(StaticAnswer(r.verb, r.path, w.cfg, w.fs, w.pages)))
  {
    hide StaticAnswer, MatchRoute;
  }

  /** The status with which a request is answered. */
  ghost predicate RightStatus(status: nat, r: Request, w: World) {
    match MatchRoute(w.proxy, r.path)
    case Some(route) =>
      (match route.target
       case Ok(raw) => status == SplitRaw(raw).0
       case Err(NotConnected) => status == 503
       case Err(OtherError) => status == 502)
    case None =>
      match MatchRoute(w.wasm, r.path)
      case Some(route) => status == (if route.target.Ok? then route.target.value.0 else 500)
      case None => status == StaticAnswer(r.verb, r.path, w.cfg, w.fs, w.pages).status
  }

  /** The server has an answer, not an error of its own, and this is it. */
  ghost predicate RightAnswer(split: (nat, string), r: Request, w: World) {
    match MatchRoute(w.proxy, r.path)
    case Some(route) => route.target.Ok? && split == SplitRaw(route.target.value)
    case None =>
      match MatchRoute(w.wasm, r.path)
      case Some(route) => route.target.Ok? && split == route.target.value
      case None =>
        var m := StaticAnswer(r.verb, r.path, w.cfg, w.fs, w.pages);
        split == (m.status, m.body)
  }

  lemma StatusIsRight(r: Request, w: World)
    ensures RightStatus(StatusOf(Decide(r, w)), r, w)
  {
    OutcomeIs(r, w);
    hide MatchRoute, StaticAnswer, SplitRaw, Decide;
  }

  lemma AnswerIsRight(r: Request, w: World, split: (nat, string))
    requires split.0 == StatusOf(Decide(r, w)) && Answered(Decide(r, w))
    requires split.1 == BridgeBody(Decide(r, w), _ => "")
    ensures RightAnswer(split, r, w)
  {
    OutcomeIs(r, w);
    hide MatchRoute, StaticAnswer, SplitRaw, Decide;
  }

  /** The server reports an error of its own: an upstream or a module that failed. */
  ghost predicate OwnError(r: Request, w: World) {
    match MatchRoute(w.proxy, r.path)
    case Some(route) => route.target.Err?
    case None =>
      match MatchRoute(w.wasm, r.path)
      case Some(route) => route.target.Err?
      case None => false
  }

  lemma OwnErrorIs(r: Request, w: World)
    ensures OwnError(r, w) <==> !Answered(Decide(r, w))
  {
    OutcomeIs(r, w);
    hide MatchRoute, StaticAnswer, Decide;
  }

  /**
   One request in one world on all three protocols, with the access log entries.

   HTTP/2 and HTTP/3 log the status of the proxied answer, or 503 or 502 without
   one; else that of the module, or 500; else that of the static file.
   HTTP/1.1 logs the same, except for a relay that the client did not take, which is
   logged as 503 or 502. What an HTTP/1.1 client that takes everything gets splits
   into that very status, and HTTP/2 and HTTP/3 send that status exactly when a
   client is there to take it and it is a number from 100 to 999. Unless the server
   reports an error of its own, the split is the answer itself, and its body is sent.
   */
  method HandleOnAll(
      r: Request, w: World, short: ShortPages, sink: Sink, h2: ResponseStream, h3: ResponseStream, clientError: IoError)
    returns (log1: Entry, log2: Entry, log3: Entry)
    requires sink.written == "" && h2.frames == [] && h3.frames == [] && h2 != h3
    requires '\n' !in w.cfg.serverName && StatusOf(Decide(r, w)) <= U16_MAX
    modifies sink, h2, h3
    ensures log2 == log3 == Entry(r.verb, r.path, log2.status) && RightStatus(log2.status, r, w)
    ensures log1 == log2 || (log1 == Entry(r.verb, r.path, if clientError == NotConnected then 503 else 502)
                             && MatchRoute(w.proxy, r.path).Some?)
    ensures TakesAll(WireBytes(Decide(r, w), w), sink.limit, sink.flushes) ==>
      var split := SplitRaw(sink.written);
      && log1 == log2 && log2.status == split.0 && (OwnError(r, w) || RightAnswer(split, r, w))
      && Carries(h2.frames, h2.takesHead, h2.takesData, split, !OwnError(r, w))
      && Carries(h3.frames, h3.takesHead, h3.takesData, split, !OwnError(r, w))
  {
    hide *;
    ghost var d := Decide(r, w);
    AllOutcomes(r, w, short, sink.limit, sink.flushes, clientError);
    Agreement(d, w, short, h2.takesHead, h2.takesData);
    Agreement(d, w, short, h3.takesHead, h3.takesData);
    log1 := OnH1(r, w, sink, clientError);
    log2 := OnH2(r, w, h2, short);
    log3 := OnH3(r, w, h3, short);
  }

  lemma AllOutcomes(r: Request, w: World, short: ShortPages, limit: nat, flushes: bool, clientError: IoError)
    requires '\n' !in w.cfg.serverName && StatusOf(Decide(r, w)) <= U16_MAX
    ensures var d := Decide(r, w);
            var taken, split := TakesAll(WireBytes(d, w), limit, flushes), SplitRaw(WireBytes(d, w));
            && split.0 == StatusOf(d) && (Answered(d) ==> split.1 == BridgeBody(d, short))
            && RightStatus(StatusOf(d), r, w) && (Answered(d) <==> !OwnError(r, w))
            && (OwnError(r, w) || RightAnswer(split, r, w))
            && (taken ==> LoggedH1(d, taken, clientError) == StatusOf(d))
            && (taken ==> WireOf(d, w, limit, flushes, clientError) == WireBytes(d, w))
            && (LoggedH1(d, taken, clientError) == StatusOf(d)
                || (LoggedH1(d, taken, clientError) == (if clientError == NotConnected then 503 else 502)
                    && MatchRoute(w.proxy, r.path).Some?))
  {
    hide *;
    var d := Decide(r, w);
    WireSplits(r, w, short);
    WireSplits(r, w, _ => "");
    StatusIsRight(r, w);
    OwnErrorIs(r, w);
    if Answered(d) { AnswerIsRight(r, w, SplitRaw(WireBytes(d, w))); }
    LoggedStatus(r, w, WireBytes(d, w), limit, flushes, clientError);
    if TakesAll(WireBytes(d, w), limit, flushes) { WireTaken(d, w, limit, flushes, clientError); }
  }

  lemma HeadsOf(d: Decision, short: ShortPages)
    ensures H2Head(d, short).status == StatusOf(d) == H3Head(d).status
  {
  }

  lemma LoggedStatus(r: Request, w: World, bytes: string, limit: nat, flushes: bool, clientError: IoError)
    ensures var d, taken := Decide(r, w), TakesAll(bytes, limit, flushes);
            var logged := LoggedH1(d, taken, clientError);
            && (logged == StatusOf(d) || (logged == (if clientError == NotConnected then 503 else 502)
                                          && MatchRoute(w.proxy, r.path).Some?))
            && (taken ==> logged == StatusOf(d))
  {
    OutcomeIs(r, w);
    hide MatchRoute, StaticAnswer, StatusOf, TakesAll, Decide;
  }

  lemma WireTaken(d: Decision, w: World, limit: nat, flushes: bool, clientError: IoError)
    requires TakesAll(WireBytes(d, w), limit, flushes)
    ensures WireOf(d, w, limit, flushes, clientError) == WireBytes(d, w)
  {
  }

  /**
   An upstream answer whose status is not a number from 100 to 999 is relayed on
   HTTP/1.1 as it is; on HTTP/2 and HTTP/3 it is logged, and nothing is sent.
   */
  lemma UnbuildableIsNotSent(m: Message, w: World, takesHead: bool, takesData: bool, short: ShortPages)
    requires CleanHead(m) && m.status <= U16_MAX && (m.status < 100 || 999 < m.status)
    ensures var d := Proxied(Ok(Serialize(m)));
            && WireBytes(d, w) == Serialize(m) && StatusOf(d) == m.status
            && Sent(takesHead, takesData, H2Head(d, short), BridgeBody(d, short)) == []
            && Sent(takesHead, takesData, H3Head(d), BridgeBody(d, short)) == []
  {
    hide Serialize, SplitRaw;
    ResponseRoundTrip(m);
  }

  // ---------------------------------------------------------------------
  // A connection
  // ---------------------------------------------------------------------

  /** `handle_generic`: a request that cannot be read is answered 500 and not logged as an access. */
  method HandleConnection(
      text: string, broken: bool, utf8: Decoder, w: World, logger: Logger, sink: Sink, clientError: IoError)
    requires sink.written == ""
    modifies logger, sink
    ensures HeadFails(text, broken, utf8) ==>
      && sink.written == Cut(Serialize(ErrorPage(500, w)), sink.limit)
      && logger.access == old(logger.access)
    ensures !HeadFails(text, broken, utf8) ==>
      var r := ParseRequest(text);
      var d := Decide(r, w);
      && sink.written == WireOf(d, w, sink.limit, sink.flushes, clientError)
      && logger.access == old(logger.access)
           + [Entry(r.verb, r.path,
                    LoggedH1(d, TakesAll(WireBytes(d, w), sink.limit, sink.flushes), clientError))]
  {
    ErrorPages(w);
    hide Serialize, HeadFails, ParseRequest, Decide, WireOf, WireBytes, ErrorPage;
    var reader := new BufReader(text, broken, utf8);
    var request := Parse(reader);
    if request.None? {
      var resp := new Response.Page(500, "Internal Server Error", w.cfg.serverName, w.pages(500));
      var sent := resp.Send(sink);
      assert "" + Serialize(resp.Value()) == Serialize(resp.Value());
      return;
    }
    HandleH1(request.value, w, logger, sink, clientError);
  }
}
