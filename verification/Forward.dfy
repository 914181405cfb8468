/**
 The request text that the proxy sends upstream (`fetch_from_upstream` in
 `src/proxy/mod.rs`), and what an upstream that reads requests the way this server
 does makes of it.
 */
module Forward {
  import opened Results
  import opened Text
  import opened Maps
  import opened Requests
  import opened HeaderText

  // ---------------------------------------------------------------------
  // The text
  // ---------------------------------------------------------------------

  /** `Host` and `Connection` are replaced by the proxy's own. */
  predicate Passes(k: string) {
    Lower(k) != "host" && Lower(k) != "connection"
  }

  function HeaderLines(headers: Headers, order: seq<string>): string
    requires forall k | k in order :: k in headers
  {
    if order == [] then ""
    else
      (if Passes(order[0]) then HeaderLine(order[0], headers[order[0]]) else "")
      + HeaderLines(headers, order[1..])
  }

  function StartLine(r: Request): string {
    r.verb + " " + r.path + " HTTP/1.1\r\n"
  }

  function OwnLines(addr: string, peer: string): string {
    HeaderLine("Host", addr) + HeaderLine("X-Forwarded-For", peer) + HeaderLine("Connection", "close")
  }

  function ForwardText(r: Request, addr: string, peer: string, order: seq<string>): string
    requires Enumerates(order, r.headers)
  {
    StartLine(r) + (OwnLines(addr, peer) + (HeaderLines(r.headers, order) + "\r\n"))
  }

  /** The text is pushed piece by piece, the header map being visited in `order`. */
  method BuildRequestText(r: Request, addr: string, peer: string, order: seq<string>) returns (text: string)
    requires Enumerates(order, r.headers)
    ensures text == ForwardText(r, addr, peer, order)
  {
    PrefaceText(r, addr, peer);
    hide StartLine, OwnLines, HeaderLine, Passes, Lower;
    text :=
      r.verb + " " + r.path + " HTTP/1.1\r\n"
      + "Host: " + addr + "\r\n"
      + "X-Forwarded-For: " + peer + "\r\n"
      + "Connection: close\r\n";
    ghost var start := text;
    for i := 0 to |order|
      invariant text + HeaderLines(r.headers, order[i..]) == start + HeaderLines(r.headers, order)
    {
      var k := order[i];
      assert order[i..][1..] == order[i + 1..];
      PassesIf(k);
      if Lower(k) == "host" || Lower(k) == "connection" {
        continue;
      }
      ghost var tail := HeaderLines(r.headers, order[i + 1..]);
      LineText(k, r.headers[k]);
      assert text + (HeaderLine(k, r.headers[k]) + tail) == (text + HeaderLine(k, r.headers[k])) + tail;
      text := text + (k + ": " + r.headers[k] + "\r\n");
    }
    assert order[|order|..] == [] && text + "" == text;
    text := text + "\r\n";
  }

  lemma PassesIf(k: string)
    ensures Passes(k) <==> !(Lower(k) == "host" || Lower(k) == "connection")
  {
  }

  lemma LineText(k: string, v: string)
    ensures HeaderLine(k, v) == k + ": " + v + "\r\n"
  {
  }

  lemma PrefaceText(r: Request, addr: string, peer: string)
    ensures StartLine(r) + OwnLines(addr, peer) ==
      r.verb + " " + r.path + " HTTP/1.1\r\n"
      + "Host: " + addr + "\r\n"
      + "X-Forwarded-For: " + peer + "\r\n"
      + "Connection: close\r\n"
  {
    LineText("Host", addr);
    LineText("X-Forwarded-For", peer);
    LineText("Connection", "close");
    assert "Host" + ": " == "Host: " && "X-Forwarded-For" + ": " == "X-Forwarded-For: ";
    assert "Connection" + ": " + "close" + "\r\n" == "Connection: close\r\n";
    hide HeaderLine;
  }

  // ---------------------------------------------------------------------
  // Reading the header lines back
  // ---------------------------------------------------------------------

  function Passed(headers: Headers): Headers {
    map k | k in headers && Passes(k) :: headers[k]
  }

  function PassedIn(headers: Headers, order: seq<string>): Headers {
    map k | k in order && k in headers && Passes(k) :: headers[k]
  }

  lemma PassedInCons(headers: Headers, k: string, tail: seq<string>, acc: Headers)
    requires k in headers
    ensures Passes(k) ==> acc[k := headers[k]] + PassedIn(headers, tail) == acc + PassedIn(headers, [k] + tail)
    ensures !Passes(k) ==> PassedIn(headers, tail) == PassedIn(headers, [k] + tail)
  {
    hide Passes;
    var order := [k] + tail;
    assert forall x :: x in order <==> x == k || x in tail;
    if !Passes(k) {
      assert PassedIn(headers, tail) == PassedIn(headers, order);
    } else {
      assert acc[k := headers[k]] + PassedIn(headers, tail) == acc + PassedIn(headers, order);
    }
  }

  lemma HeaderLinesCons(headers: Headers, k: string, tail: seq<string>, end: string)
    requires k in headers && forall x | x in tail :: x in headers
    ensures HeaderLines(headers, [k] + tail) + end ==
      if Passes(k) then HeaderLine(k, headers[k]) + (HeaderLines(headers, tail) + end)
      else HeaderLines(headers, tail) + end
  {
    hide Passes, HeaderLine;
    assert ([k] + tail)[1..] == tail;
  }

  lemma ReadNoLines(headers: Headers, acc: Headers, end: string)
    requires end == "\r\n"
    ensures ParseHeaders(HeaderLines(headers, []) + end, acc) == acc + PassedIn(headers, [])
  {
    hide ParseHeaders;
    ReadBlankLine("", acc);
    assert end + "" == end;
    assert HeaderLines(headers, []) + end == end;
    assert acc + PassedIn(headers, []) == acc;
  }

  /** The forwarded lines, in any order, add exactly the headers that pass. */
  lemma {:induction false} ReadHeaderLines(headers: Headers, order: seq<string>, acc: Headers, end: string)
    requires HeadersOk(headers) && (forall k | k in order :: k in headers) && end == "\r\n"
    ensures ParseHeaders(HeaderLines(headers, order) + end, acc) == acc + PassedIn(headers, order)
  {
    if order == [] {
      ReadNoLines(headers, acc, end);
    } else {
      var k, tail := order[0], order[1..];
      assert order == [k] + tail;
      HeaderLinesCons(headers, k, tail, end);
      PassedInCons(headers, k, tail, acc);
      assert HeaderOk(k, headers[k]);
      hide *;
      if Passes(k) {
        ReadCleanHeader(k, headers[k], HeaderLines(headers, tail) + end, acc);
        ReadHeaderLines(headers, tail, acc[k := headers[k]], end);
      } else {
        ReadHeaderLines(headers, tail, acc, end);
      }
    }
  }

  lemma ReadCleanHeader(k: string, v: string, rest: string, headers: Headers)
    requires HeaderOk(k, v)
    ensures ParseHeaders(HeaderLine(k, v) + rest, headers) == ParseHeaders(rest, headers[k := v])
  {
    hide TrimStart, TrimEnd, Trim, HeaderLine, ParseHeaders;
    TrimOfTrimmed(k);
    TrimOfTrimmed(v);
    ReadHeaderLine(k, v, rest, headers);
  }

  /** What the proxy itself says, before the client's headers override it. */
  function OwnHeaders(addr: string, peer: string): Headers {
    map["host" := Trim(addr), "x-forwarded-for" := Trim(peer), "connection" := "close"]
  }

  lemma ReadHostLine(v: string, rest: string, headers: Headers)
    requires '\n' !in v
    ensures ParseHeaders(HeaderLine("Host", v) + rest, headers) == ParseHeaders(rest, headers["host" := Trim(v)])
  {
    hide Trim, HeaderLine, ParseHeaders;
    ReadNamedLine("Host", "host", v, rest, headers);
  }

  lemma ReadForwardedForLine(v: string, rest: string, headers: Headers)
    requires '\n' !in v
    ensures ParseHeaders(HeaderLine("X-Forwarded-For", v) + rest, headers)
         == ParseHeaders(rest, headers["x-forwarded-for" := Trim(v)])
  {
    hide Trim, HeaderLine, ParseHeaders;
    ReadNamedLine("X-Forwarded-For", "x-forwarded-for", v, rest, headers);
  }

  lemma ReadOwnLines(addr: string, peer: string, rest: string)
    requires '\n' !in addr && '\n' !in peer
    ensures ParseHeaders(OwnLines(addr, peer) + rest, map[]) == ParseHeaders(rest, OwnHeaders(addr, peer))
  {
    hide Trim, HeaderLine, ParseHeaders;
    var h1: Headers := map["host" := Trim(addr)];
    var h2 := h1["x-forwarded-for" := Trim(peer)];
    assert h2["connection" := "close"] == OwnHeaders(addr, peer);
    var l1, l2, l3 := HeaderLine("Host", addr), HeaderLine("X-Forwarded-For", peer), HeaderLine("Connection", "close");
    assert OwnLines(addr, peer) + rest == l1 + (l2 + (l3 + rest));
    hide OwnLines, OwnHeaders;
    ReadHostLine(addr, l2 + (l3 + rest), map[]);
    ReadForwardedForLine(peer, l3 + rest, h1);
    ReadConnectionLine(rest, h2);
  }

  // ---------------------------------------------------------------------
  // Reading the start line back
  // ---------------------------------------------------------------------

  /** What follows the verb in a start line. */
  function StartTail(path: string, version: string): string {
    " " + (path + (" " + version)) + "\r\n"
  }

  lemma StartLineShape(r: Request)
    ensures StartLine(r) == r.verb + StartTail(r.path, "HTTP/1.1")
    ensures StartLine(r) == r.verb + (" " + (r.path + (" " + "HTTP/1.1")) + "\r") + "\n"
  {
    assert " HTTP/1.1\r\n" == " " + "HTTP/1.1" + "\r" + "\n";
  }

  lemma TrimLineEnd(a: string, token: string)
    requires token != "" && NoSpace(token)
    ensures TrimEnd(a + token + "\r\n") == a + token
  {
    hide TrimEnd;
    var s, m := a + token, |token| - 1;
    assert s == a + token[..m] + [token[m]];
    TrimEndPad(s, "\r\n");
    TrimEndAfter(a + token[..m], token[m], "");
    assert TrimEnd("") == "";
    assert a + token[..m] + [token[m]] + "" == s;
  }

  lemma StartTailTrimmed(path: string, version: string)
    requires version != "" && NoSpace(version)
    ensures TrimEnd(StartTail(path, version)) == " " + (path + (" " + version))
  {
    hide TrimEnd;
    TrimLineEnd(" " + path + " ", version);
    assert " " + path + " " + version + "\r\n" == StartTail(path, version);
    assert " " + path + " " + version == " " + (path + (" " + version));
  }

  /** The start line is read as `verb`, then whatever tokens come next in `tail`. */
  lemma StartLineTokens(verb: string, tail: string)
    requires verb != "" && NoSpace(verb) && (tail == "" || IsSpace(tail[0]))
    ensures RequestLine(verb + tail) ==
      (var (path, afterPath) := NextToken(TrimEnd(tail));
       (verb, TokenOr(path, "/"), TokenOr(NextToken(afterPath).0, "HTTP/1.1")))
  {
    hide TrimEnd, NextToken;
    var init, last := verb[..|verb| - 1], verb[|verb| - 1];
    TrimEndAfter(init, last, tail);
    assert init + [last] == verb;
    assert TrimEnd(verb + tail) == verb + TrimEnd(tail);
    TokenThen(verb, TrimEnd(tail));
  }

  lemma TokenAfterSpace(s: string)
    ensures NextToken(" " + s) == NextToken(s)
  {
    TokenSkipsSpace(" ", s);
  }

  lemma WholeToken(token: string)
    requires token != "" && NoSpace(token)
    ensures NextToken(token) == (Some(token), "")
  {
    TokenThen(token, "");
    assert token + "" == token;
  }

  /** A path that is one token comes back as it was written. */
  lemma GoodStartTail(verb: string, path: string, version: string)
    requires verb != "" && NoSpace(verb) && path != "" && NoSpace(path) && version != "" && NoSpace(version)
    ensures RequestLine(verb + StartTail(path, version)) == (verb, path, version)
  {
    hide TrimEnd, NextToken;
    StartTailTrimmed(path, version);
    StartLineTokens(verb, StartTail(path, version));
    TokenAfterSpace(path + (" " + version));
    TokenThen(path, " " + version);
    TokenAfterSpace(version);
    WholeToken(version);
  }

  lemma {:induction false} DecodePlain(s: string)
    requires '%' !in s
    ensures PercentDecode(s) == s
  {
    if s == "" {
    } else {
      PlainStart(s);
      DecodePlain(s[1..]);
    }
  }

  lemma SanitizePlain(s: string)
    requires '%' !in s && '?' !in s && !HasDotDot(s)
    ensures Sanitize(s) == s
  {
    IndexAbsent(s, '?');
    assert s[..|s|] == s;
    DecodePlain(s);
  }

  /** A raw path that cannot stand for `path`. */
  predicate Misread(raw: string, path: string) {
    raw == "/" || raw == "HTTP/1.1" || |raw| < |path|
  }

  lemma MisreadDiffers(raw: string, path: string)
    requires Misread(raw, path) && (path == "" || !NoSpace(path))
    ensures Sanitize(raw) != path
  {
    hide Sanitize;
    if raw == "/" || raw == "HTTP/1.1" {
      SanitizePlain(raw);
      assert NoSpace(raw);
    }
  }

  /** A token taken from text that starts with a space is shorter than that text. */
  lemma TokenBound(s: string)
    requires s != "" && s[0] == ' '
    ensures NextToken(s).0.Some? ==> |NextToken(s).0.value| < |s|
  {
    hide NextToken;
    TokenAfterSpace(s[1..]);
    assert s == " " + s[1..];
  }

  lemma BadToken(path: string, version: string)
    requires (path == "" || !NoSpace(path)) && version != "" && NoSpace(version)
    ensures var t := NextToken(path + (" " + version)).0;
            t.Some? && (t.value == version || |t.value| < |path|)
  {
    hide TrimStart, NextToken, TokenLength;
    var core := TrimStart(path);
    var lead := path[..|path| - |core|];
    assert path + (" " + version) == lead + (core + (" " + version));
    TokenSkipsSpace(lead, core + (" " + version));
    if core == "" {
      assert core + (" " + version) == " " + version;
      TokenAfterSpace(version);
      WholeToken(version);
    } else {
      var k := TokenLength(core);
      assert core + (" " + version) == core[..k] + (core[k..] + (" " + version));
      TokenThen(core[..k], core[k..] + (" " + version));
      assert |lead| == 0 ==> core == path;
    }
  }

  /** A line feed in the path ends the start line early. */
  lemma CutStartLine(verb: string, path: string, after: string)
    requires verb != "" && NoSpace(verb) && '\n' in path
    ensures var raw := RequestLine(FirstLine(verb + " " + path + after)).1;
            raw == "/" || |raw| < |path|
  {
    hide TrimStart, TrimEnd, NextToken, FirstLine, IndexOf;
    var cut := IndexOf(path, '\n');
    var head, tail := path[..cut], " " + path[..cut] + "\n";
    assert path == head + "\n" + path[cut + 1..];
    assert '\n' !in head && '\n' !in verb;
    assert verb + " " + path + after == (verb + " " + head) + "\n" + (path[cut + 1..] + after);
    FirstLineIs(verb + " " + head, path[cut + 1..] + after);
    assert (verb + " " + head) + "\n" == verb + tail;
    StartLineTokens(verb, tail);
    TrimEndPad(" " + head, "\n");
    var s := TrimEnd(tail);
    if s != "" {
      assert s[0] == tail[0];
      TokenBound(s);
    }
  }

  /** With an empty path or whitespace in it, the upstream reads another path. */
  lemma BadStartLine(verb: string, path: string, version: string, rest: string)
    requires verb != "" && NoSpace(verb) && (path == "" || !NoSpace(path)) && version != "" && NoSpace(version)
    ensures var raw := RequestLine(FirstLine(verb + StartTail(path, version) + rest)).1;
            raw == "/" || raw == version || |raw| < |path|
  {
    hide TrimStart, TrimEnd, NextToken, FirstLine, RequestLine;
    var tail := StartTail(path, version);
    if '\n' in path {
      var after := " " + version + "\r\n" + rest;
      CutStartLine(verb, path, after);
      assert verb + tail + rest == verb + " " + path + after;
    } else {
      var body := verb + (" " + (path + (" " + version)) + "\r");
      assert body + "\n" == verb + tail;
      FirstLineIs(body, rest);
      BadTailToken(verb, path, version);
    }
  }

  lemma BadTailToken(verb: string, path: string, version: string)
    requires verb != "" && NoSpace(verb) && (path == "" || !NoSpace(path)) && version != "" && NoSpace(version)
    ensures var raw := RequestLine(verb + StartTail(path, version)).1;
            raw == version || |raw| < |path|
  {
    hide TrimEnd, NextToken;
    StartTailTrimmed(path, version);
    StartLineTokens(verb, StartTail(path, version));
    TokenAfterSpace(path + (" " + version));
    BadToken(path, version);
  }

  // ---------------------------------------------------------------------
  // The round trip
  // ---------------------------------------------------------------------

  /** What a caller can check before forwarding. */
  predicate Forwardable(r: Request) {
    r.verb != "" && r.path != "" && NoSpace(r.path) && Sanitize(r.path) == r.path
  }

  /** An empty verb shifts the tokens: the upstream takes the path for the verb. */
  lemma EmptyVerb(path: string, version: string)
    requires path != "" && NoSpace(path) && version != "" && NoSpace(version)
    ensures RequestLine(StartTail(path, version)).0 == path
  {
    hide TrimEnd, NextToken;
    StartTailTrimmed(path, version);
    TokenAfterSpace(path + (" " + version));
    TokenThen(path, " " + version);
  }

  /** The forwarded start line is one line. */
  lemma ForwardStart(r: Request, rest: string)
    requires NoSpace(r.verb) && NoSpace(r.path)
    ensures FirstLine(StartLine(r) + rest) == StartLine(r)
    ensures (StartLine(r) + rest)[|StartLine(r)|..] == rest
  {
    hide FirstLine, StartLine;
    StartLineShape(r);
    var body := r.verb + (" " + (r.path + (" " + "HTTP/1.1")) + "\r");
    assert '\n' !in r.verb && '\n' !in r.path && '\n' !in body;
    FirstLineIs(body, rest);
  }

  /**
   For every request this server can read, and every iteration order of its
   headers, an upstream reading the forwarded text finds the same verb and path
   exactly when the request is forwardable.
   */
  lemma ForwardKeepsTargetIff(input: string, addr: string, peer: string, order: seq<string>)
    requires Enumerates(order, ParseRequest(input).headers)
    ensures var r := ParseRequest(input);
            var q := ParseRequest(ForwardText(r, addr, peer, order));
            (q.verb == r.verb && q.path == r.path) <==> Forwardable(r)
  {
    hide TrimStart, TrimEnd, Trim, IndexOf, TokenLength, NextToken, FirstLine, ParseHeaders, PercentDecode;
    var r := ParseRequest(input);
    ParsedRequestOk(input);
    var rest := OwnLines(addr, peer) + (HeaderLines(r.headers, order) + "\r\n");
    StartLineShape(r);
    assert NoSpace("HTTP/1.1") && NoSpace("/");
    hide TrimEnd, FirstLine, RequestLine, StartLine, StartTail, Sanitize, ParseHeaders, OwnLines, HeaderLines;
    if r.verb == "" {
      assert r.path == "/";
      ForwardStart(r, rest);
      assert "" + StartTail(r.path, "HTTP/1.1") == StartTail(r.path, "HTTP/1.1");
      EmptyVerb(r.path, "HTTP/1.1");
    } else if r.path == "" || !NoSpace(r.path) {
      BadStartLine(r.verb, r.path, "HTTP/1.1", rest);
      MisreadDiffers(RequestLine(FirstLine(StartLine(r) + rest)).1, r.path);
    } else {
      ForwardStart(r, rest);
      GoodStartTail(r.verb, r.path, "HTTP/1.1");
    }
  }

  lemma PassedIs(headers: Headers)
    requires HeadersOk(headers)
    ensures Passed(headers) == headers - {"host", "connection"}
  {
    forall k | k in headers ensures Passes(k) <==> k != "host" && k != "connection" {
      assert HeaderOk(k, headers[k]);
    }
  }

  /**
   And then what it finds is the same request, with the headers of the proxy's own,
   overridden by the client's headers other than `host` and `connection`.
   */
  lemma ForwardRoundTrip(input: string, addr: string, peer: string, order: seq<string>)
    requires Enumerates(order, ParseRequest(input).headers) && Forwardable(ParseRequest(input))
    requires '\n' !in addr && '\n' !in peer
    ensures var r := ParseRequest(input);
            ParseRequest(ForwardText(r, addr, peer, order))
              == Request(r.verb, r.path, "HTTP/1.1",
                         map["host" := Trim(addr), "x-forwarded-for" := Trim(peer), "connection" := "close"]
                         + (r.headers - {"host", "connection"}))
  {
    hide TrimStart, TrimEnd, Trim, IndexOf, TokenLength, NextToken, FirstLine, ParseHeaders, PercentDecode;
    var r := ParseRequest(input);
    ParsedRequestOk(input);
    PassedIs(r.headers);
    assert PassedIn(r.headers, order) == Passed(r.headers);
    StartLineShape(r);
    assert NoSpace("HTTP/1.1");
    assert OwnHeaders(addr, peer) ==
      map["host" := Trim(addr), "x-forwarded-for" := Trim(peer), "connection" := "close"];
    hide TrimEnd, FirstLine, RequestLine, StartLine, StartTail, Sanitize, ParseHeaders, OwnLines, HeaderLines,
         Passed, PassedIn, OwnHeaders;
    var lines := HeaderLines(r.headers, order) + "\r\n";
    ForwardStart(r, OwnLines(addr, peer) + lines);
    GoodStartTail(r.verb, r.path, "HTTP/1.1");
    ReadOwnLines(addr, peer, lines);
    ReadHeaderLines(r.headers, order, OwnHeaders(addr, peer), "\r\n");
  }

  /** Header by header: the proxy's own host and connection, and all else as the client sent it. */
  lemma ForwardedHeaders(input: string, addr: string, peer: string, order: seq<string>)
    requires Enumerates(order, ParseRequest(input).headers) && Forwardable(ParseRequest(input))
    requires '\n' !in addr && '\n' !in peer
    ensures var sent := ParseRequest(input).headers;
            var read := ParseRequest(ForwardText(ParseRequest(input), addr, peer, order)).headers;
            && read.Keys == sent.Keys + {"host", "x-forwarded-for", "connection"}
            && read["host"] == Trim(addr) && read["connection"] == "close"
            && ("x-forwarded-for" !in sent ==> read["x-forwarded-for"] == Trim(peer))
            && forall k | k in sent && k != "host" && k != "connection" :: read[k] == sent[k]
  {
    ForwardRoundTrip(input, addr, peer, order);
    hide ParseRequest, ForwardText, Trim;
    OwnKeys(Trim(addr), Trim(peer), ParseRequest(input).headers);
  }

  lemma OwnKeys(host: string, peer: string, sent: Headers)
    ensures var read := map["host" := host, "x-forwarded-for" := peer, "connection" := "close"]
                        + (sent - {"host", "connection"});
            && read.Keys == sent.Keys + {"host", "x-forwarded-for", "connection"}
            && read["host"] == host && read["connection"] == "close"
            && ("x-forwarded-for" !in sent ==> read["x-forwarded-for"] == peer)
            && forall k | k in sent && k != "host" && k != "connection" :: read[k] == sent[k]
  {
  }

  // ---------------------------------------------------------------------
  // A request that is not forwardable
  // ---------------------------------------------------------------------

  lemma ParsesLine(line: string, rest: string)
    requires FirstLine(line + rest) == line
    ensures ParseRequest(line + rest) ==
      (var (verb, raw, version) := RequestLine(line);
       Request(verb, Sanitize(raw), version, ParseHeaders(rest, map[])))
  {
    hide FirstLine, RequestLine, Sanitize, ParseHeaders;
    assert (line + rest)[|line|..] == rest;
  }

  /** A request line of three tokens: the path is the decoded second one. */
  lemma ReadsRawPath(verb: string, raw: string, rest: string)
    requires verb != "" && NoSpace(verb) && raw != "" && NoSpace(raw)
    ensures var r := ParseRequest(StartLine(Request(verb, raw, "", map[])) + rest);
            r.verb == verb && r.path == Sanitize(raw) && r.headers == ParseHeaders(rest, map[])
  {
    var shown := Request(verb, raw, "", map[]);
    StartLineShape(shown);
    assert NoSpace("HTTP/1.1");
    hide FirstLine, RequestLine, StartLine, StartTail, Sanitize, ParseHeaders, ParseRequest;
    ForwardStart(shown, rest);
    ParsesLine(StartLine(shown), rest);
    GoodStartTail(verb, raw, "HTTP/1.1");
  }

  /** `%20` is decoded to a space. */
  lemma DecodesSpace(a: string, b: string)
    requires '%' !in a && '%' !in b
    ensures PercentDecode(a + "%20" + b) == a + " " + b
  {
    hide PercentDecode;
    assert !Straddles(a, "%20" + b);
    DecodeConcat(a, "%20" + b);
    assert a + "%20" + b == a + ("%20" + b);
    EscapeStart("%20" + b);
    assert ("%20" + b)[3..] == b;
    DecodePlain(a);
    DecodePlain(b);
  }

  lemma SanitizesSpace()
    ensures Sanitize("/a%20b") == "/a b"
  {
    hide PercentDecode, IndexOf;
    assert "/a" + "%20" + "b" == "/a%20b" && "/a" + " " + "b" == "/a b";
    DecodesSpace("/a", "b");
    IndexAbsent("/a%20b", '?');
    assert "/a%20b"[..6] == "/a%20b";
  }

  /** A request for a path with an encoded space. */
  function SpacedInput(): string {
    StartLine(Request("GET", "/a%20b", "", map[])) + "\r\n"
  }

  lemma SpacedInputText()
    ensures SpacedInput() == "GET /a%20b HTTP/1.1\r\n\r\n"
  {
  }

  lemma SpacedInputReads()
    ensures var r := ParseRequest(SpacedInput()); r.verb == "GET" && r.path == "/a b" && r.headers == map[]
  {
    assert NoSpace("GET") && NoSpace("/a%20b") && "\r\n" + "" == "\r\n";
    hide ParseRequest, StartLine, Sanitize, ParseHeaders;
    ReadsRawPath("GET", "/a%20b", "\r\n");
    SanitizesSpace();
    ReadBlankLine("", map[]);
  }

  lemma SpacedPath()
    ensures !NoSpace("/a b")
  {
    assert IsSpace("/a b"[2]);
  }

  /** This request is forwarded with a space in its path, so the upstream reads another request. */
  lemma EncodedSpaceIsMisread(addr: string, peer: string)
    ensures var r := ParseRequest(SpacedInput());
            && r.path == "/a b" && r.headers == map[]
            && var q := ParseRequest(ForwardText(r, addr, peer, []));
               q.verb != r.verb || q.path != r.path
  {
    SpacedInputReads();
    SpacedPath();
    hide ParseRequest, ForwardText, SpacedInput, Sanitize, NoSpace;
    ForwardKeepsTargetIff(SpacedInput(), addr, peer, []);
  }
}
