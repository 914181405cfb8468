/**
 Writing an HTTP/1.1 response (`src/http/response.rs`) and taking one apart again
 (`split_raw_response` and `extract_status` in `src/proxy/mod.rs`).
 */
module Responses {
  import opened Results
  import opened Text
  import opened Requests
  import opened HeaderText

  // ---------------------------------------------------------------------
  // The bytes of a response
  // ---------------------------------------------------------------------

  /** The value of a response object. */
  datatype Message = Message(status: nat, text: string, server: string, contentType: string, body: string)

  function StatusLine(m: Message): string {
    "HTTP/1.1 " + ToDecimal(m.status) + " " + m.text
  }

  function Serialize(m: Message): string {
    StatusLine(m) + "\r\n"
    + (HeaderLine("Server", m.server)
    + (HeaderLine("Content-Type", m.contentType)
    + (HeaderLine("Content-Length", ToDecimal(|m.body|))
    + (HeaderLine("Connection", "close")
    + ("\r\n" + m.body)))))
  }

  /** No line feed in the parts of the head that are copied as they are. */
  predicate CleanHead(m: Message) {
    '\n' !in m.text && '\n' !in m.server && '\n' !in m.contentType
  }

  /** A stream that accepts `limit` bytes and then fails; flushing may fail even before that. */
  class Sink {
    const limit: nat
    const flushes: bool
    var written: string

    constructor (limit: nat, flushes: bool)
      ensures this.limit == limit && this.flushes == flushes && written == ""
    {
      this.limit := limit;
      this.flushes := flushes;
      written := "";
    }

    method Flush() returns (ok: bool)
      ensures ok == flushes
    {
      ok := flushes;
    }

    /** `write_all`: on failure only a prefix has been written. */
    method WriteAll(data: string) returns (ok: bool)
      requires |written| <= limit
      modifies this
      ensures |written| <= limit && ok == (|old(written)| + |data| <= limit)
      ensures written == (if ok then old(written) + data else (old(written) + data)[..limit])
    {
      ok := |written| + |data| <= limit;
      written := if ok then written + data else (written + data)[..limit];
    }
  }

  class Response {
    var status: nat
    var text: string
    var contentType: string
    var body: string
    var server: string

    ghost function Value(): Message
      reads this
    {
      Message(status, text, server, contentType, body)
    }

    constructor (status: nat, text: string, server: string)
      ensures Value() == Message(status, text, server, "text/plain", "")
    {
      this.status := status;
      this.text := text;
      this.server := server;
      contentType := "text/plain";
      body := "";
    }

    /** The error-page constructors: a fresh response whose body is the page for its status. */
    constructor Page(status: nat, text: string, server: string, html: string)
      ensures Value() == Message(status, text, server, "text/html; charset=utf-8", html)
    {
      this.status := status;
      this.text := text;
      this.server := server;
      contentType := "text/plain";
      body := "";
      new;
      SetHtmlBody(html);
    }

    method SetHtmlBody(html: string)
      modifies this
      ensures Value() == old(Value()).(contentType := "text/html; charset=utf-8", body := html)
    {
      contentType := "text/html; charset=utf-8";
      body := html;
    }

    method SetBody(bytes: string, mime: string)
      modifies this
      ensures Value() == old(Value()).(contentType := mime, body := bytes)
    {
      contentType := mime;
      body := bytes;
    }

    /**
     Head first, then body, then a flush; an early failure leaves a prefix of the
     whole message, a failing flush the whole message.
     */
    method Send(sink: Sink) returns (ok: bool)
      requires |sink.written| <= sink.limit
      modifies sink
      ensures |sink.written| <= sink.limit
      ensures var all := old(sink.written) + Serialize(Value());
              && ok == (|all| <= sink.limit && sink.flushes)
              && sink.written == (if |all| <= sink.limit then all else all[..sink.limit])
    {
      hide ToDecimal, Serialize;
      var head :=
        "HTTP/1.1 " + ToDecimal(status) + " " + text + "\r\n"
        + ("Server: " + server + "\r\n")
        + ("Content-Type: " + contentType + "\r\n")
        + ("Content-Length: " + ToDecimal(|body|) + "\r\n")
        + "Connection: close\r\n"
        + "\r\n";
      ghost var all := old(sink.written) + Serialize(Value());
      SerializeText(Value());
      assert all == (sink.written + head) + body;
      ok := sink.WriteAll(head);
      if !ok {
        return;
      }
      ok := sink.WriteAll(body);
      if !ok {
        return;
      }
      ok := sink.Flush();
    }
  }

  /** The head of a response, in the layout of section 4 of RFC 9112. */
  function HeadText(m: Message): string {
    "HTTP/1.1 " + ToDecimal(m.status) + " " + m.text + "\r\n"
    + ("Server: " + m.server + "\r\n")
    + ("Content-Type: " + m.contentType + "\r\n")
    + ("Content-Length: " + ToDecimal(|m.body|) + "\r\n")
    + "Connection: close\r\n"
    + "\r\n"
  }

  lemma LineText(k: string, v: string, shown: string)
    requires shown == k + ": "
    ensures HeaderLine(k, v) == shown + v + "\r\n"
  {
  }

  /** Serializing is writing the head and then the body. */
  lemma SerializeText(m: Message)
    ensures Serialize(m) == HeadText(m) + m.body
  {
    LineText("Server", m.server, "Server: ");
    LineText("Content-Type", m.contentType, "Content-Type: ");
    LineText("Content-Length", ToDecimal(|m.body|), "Content-Length: ");
    CloseText();
    hide HeaderLine, ToDecimal, Serialize;
    SerializeInTwo(m, HeadText(m));
  }

  lemma CloseText()
    ensures HeaderLine("Connection", "close") == "Connection: close\r\n"
  {
  }

  lemma SerializeInTwo(m: Message, head: string)
    requires head == StatusLine(m) + "\r\n" + HeaderLine("Server", m.server)
      + HeaderLine("Content-Type", m.contentType) + HeaderLine("Content-Length", ToDecimal(|m.body|))
      + HeaderLine("Connection", "close") + "\r\n"
    ensures Serialize(m) == head + m.body
  {
    hide HeaderLine, ToDecimal, StatusLine;
  }

  // ---------------------------------------------------------------------
  // Taking a response apart
  // ---------------------------------------------------------------------

  predicate BlankAt(raw: string, p: nat) {
    p + 4 <= |raw| && raw[p] == '\r' && raw[p + 1] == '\n' && raw[p + 2] == '\r' && raw[p + 3] == '\n'
  }

  /** The position of the first CR LF CR LF. */
  function FindBlank(raw: string): (p: Option<nat>)
    ensures p.Some? ==> BlankAt(raw, p.value) && forall q: nat | q < p.value :: !BlankAt(raw, q)
    ensures p.None? ==> forall q: nat :: !BlankAt(raw, q)
  {
    if |raw| < 4 then None
    else if BlankAt(raw, 0) then Some(0)
    else
      var p := FindBlank(raw[1..]);
      assert forall q: nat | 0 < q :: BlankAt(raw, q) <==> BlankAt(raw[1..], q - 1);
      if p.Some? then Some(p.value + 1) else None
  }

  /** The second token of the first line, if it is a 16-bit number; 502 otherwise. */
  function ExtractStatus(raw: string): (status: nat)
    ensures status <= U16_MAX
  {
    var line := StripLineEnd(FirstLine(raw));
    var (_, afterFirst) := NextToken(line);
    var (code, _) := NextToken(afterFirst);
    var value := if code.Some? then ParseUnsigned(code.value, U16_MAX) else None;
    if value.Some? then value.value else 502
  }

  function SplitRaw(raw: string): (r: (nat, string)) {
    var p := FindBlank(raw);
    (ExtractStatus(raw), if p.Some? then raw[p.value + 4..] else "")
  }

  /** A CR LF that ends a line and is not followed by another CR is not part of the blank line. */
  lemma BlankSkipsLine(line: string, rest: string)
    requires '\n' !in line && rest != "" && rest[0] != '\r'
    ensures var raw := line + "\r\n" + rest;
            && (forall q: nat | q < |line| + 2 :: !BlankAt(raw, q))
            && (forall q: nat :: BlankAt(raw, |line| + 2 + q) <==> BlankAt(rest, q))
  {
    var raw := line + "\r\n" + rest;
    var n := |line|;
    assert raw[n] == '\r' && raw[n + 1] == '\n' && raw[n + 2] == rest[0];
    assert forall k | 0 <= k < n :: raw[k] == line[k] && raw[k] != '\n';
    assert forall k | 0 <= k < |rest| :: raw[n + 2 + k] == rest[k];
    forall q: nat | q < n + 2 ensures !BlankAt(raw, q) {
      assert q + 1 < n || q + 1 == n || q == n || q == n + 1;
    }
  }

  /** The head of `raw` ends at `end`, the position after its first blank line. */
  ghost predicate HeadEnds(raw: string, end: nat) {
    && 4 <= end <= |raw| && BlankAt(raw, end - 4)
    && forall q: nat | q < end - 4 :: !BlankAt(raw, q)
  }

  lemma HeadAfterLine(line: string, rest: string, end: nat)
    requires '\n' !in line && rest != "" && rest[0] != '\r' && HeadEnds(rest, end)
    ensures HeadEnds(line + "\r\n" + rest, |line| + 2 + end)
  {
    var raw, n := line + "\r\n" + rest, |line| + 2;
    BlankSkipsLine(line, rest);
    hide BlankAt;
    assert BlankAt(raw, n + (end - 4));
    forall q: nat | q < n + end - 4 ensures !BlankAt(raw, q) {
      if q >= n { assert BlankAt(raw, n + (q - n)) <==> BlankAt(rest, q - n); }
    }
  }

  lemma HeadAfterHeader(k: string, v: string, rest: string, end: nat)
    requires '\n' !in k && '\n' !in v && rest != "" && rest[0] != '\r' && HeadEnds(rest, end)
    ensures HeadEnds(HeaderLine(k, v) + rest, |HeaderLine(k, v)| + end)
  {
    assert HeaderLine(k, v) + rest == (k + ": " + v) + "\r\n" + rest;
    HeadAfterLine(k + ": " + v, rest, end);
  }

  lemma LastHeader(line: string, body: string)
    requires '\n' !in line
    ensures HeadEnds(line + "\r\n\r\n" + body, |line| + 4)
  {
    var raw, n := line + "\r\n\r\n" + body, |line|;
    assert raw[n] == '\r' && raw[n + 1] == '\n' && raw[n + 2] == '\r' && raw[n + 3] == '\n';
    forall q: nat | q < n ensures !BlankAt(raw, q) {
      assert q + 1 < n ==> raw[q + 1] in line;
    }
  }

  lemma HeaderStarts(k: string, v: string, rest: string)
    requires k != ""
    ensures HeaderLine(k, v) + rest != "" && (HeaderLine(k, v) + rest)[0] == k[0]
  {
  }

  /** What follows the status line of a response. */
  function AfterStatus(m: Message): string {
    HeaderLine("Server", m.server)
    + (HeaderLine("Content-Type", m.contentType)
    + (HeaderLine("Content-Length", ToDecimal(|m.body|))
    + (HeaderLine("Connection", "close")
    + ("\r\n" + m.body))))
  }

  lemma SerializeHead(m: Message) returns (end: nat)
    requires CleanHead(m)
    ensures HeadEnds(Serialize(m), end) && Serialize(m)[end..] == m.body
  {
    hide HeaderLine, ToDecimal, HeadEnds, StatusLine;
    ParseDecimal(|m.body|, |m.body|);
    var last := HeaderLine("Connection", "close") + ("\r\n" + m.body);
    LastHeaderLine("Connection", "close", m.body);
    var end1 := |HeaderLine("Connection", "close")| + 2;
    var l3 := HeaderLine("Content-Length", ToDecimal(|m.body|)) + last;
    HeaderStarts("Connection", "close", "\r\n" + m.body);
    HeadAfterHeader("Content-Length", ToDecimal(|m.body|), last, end1);
    HeaderStarts("Content-Length", ToDecimal(|m.body|), last);
    var end2 := |HeaderLine("Content-Length", ToDecimal(|m.body|))| + end1;
    var l2 := HeaderLine("Content-Type", m.contentType) + l3;
    HeadAfterHeader("Content-Type", m.contentType, l3, end2);
    HeaderStarts("Content-Type", m.contentType, l3);
    var end3 := |HeaderLine("Content-Type", m.contentType)| + end2;
    var l1 := HeaderLine("Server", m.server) + l2;
    HeadAfterHeader("Server", m.server, l2, end3);
    HeaderStarts("Server", m.server, l2);
    var end4 := |HeaderLine("Server", m.server)| + end3;
    StatusLineClean(m);
    HeadAfterLine(StatusLine(m), l1, end4);
    end := |StatusLine(m)| + 2 + end4;
  }

  lemma LastHeaderLine(k: string, v: string, body: string)
    requires '\n' !in k && '\n' !in v
    ensures HeadEnds(HeaderLine(k, v) + ("\r\n" + body), |HeaderLine(k, v)| + 2)
  {
    hide HeadEnds;
    LastHeader(k + ": " + v, body);
    assert HeaderLine(k, v) + ("\r\n" + body) == (k + ": " + v) + "\r\n\r\n" + body;
  }

  lemma StatusLineClean(m: Message)
    requires '\n' !in m.text
    ensures '\n' !in StatusLine(m)
  {
    ParseDecimal(m.status, m.status);
  }

  /** The status is the second token of the first line if that is a 16-bit number, and 502 otherwise. */
  lemma StatusOr502(proto: string, code: string, tail: string, rest: string)
    requires proto != "" && NoSpace(proto) && code != "" && NoSpace(code)
    requires (tail == "" || IsSpace(tail[0])) && '\n' !in tail
    ensures var value := ParseUnsigned(code, 65535);
            ExtractStatus(proto + (" " + (code + tail)) + "\r\n" + rest) == if value.Some? then value.value else 502
  {
    hide NextToken, FirstLine, ParseUnsigned, StripLineEnd;
    var line := proto + (" " + (code + tail));
    NoLineFeed(proto);
    NoLineFeed(code);
    var body := line + "\r";
    assert '\n' !in body;
    assert line + "\r\n" + rest == body + "\n" + rest;
    FirstLineIs(body, rest);
    StripCrLf(line);
    TokenThen(proto, " " + (code + tail));
    TokenSkipsSpace(" ", code + tail);
    TokenThen(code, tail);
  }

  /** A first line of fewer than two tokens gives 502. */
  lemma StatusMissing(line: string, rest: string)
    requires NoSpace(line)
    ensures ExtractStatus(line + "\r\n" + rest) == 502
  {
    hide NextToken, FirstLine, StripLineEnd;
    NoLineFeed(line);
    var body := line + "\r";
    assert line + "\r\n" + rest == body + "\n" + rest;
    FirstLineIs(body, rest);
    StripCrLf(line);
    NoTokenInNothing();
    if line != "" {
      assert line + "" == line;
      TokenThen(line, "");
    }
  }

  lemma NoTokenInNothing()
    ensures NextToken("") == (None, "")
  {
  }

  lemma NoLineFeed(token: string)
    requires NoSpace(token)
    ensures '\n' !in token
  {
  }

  lemma StripCrLf(line: string)
    ensures StripLineEnd(line + "\r" + "\n") == line
  {
    var s := line + "\r" + "\n";
    assert s[..|s| - 1] == line + "\r";
    assert (line + "\r")[..|line|] == line;
  }

  lemma StatusLineShape(m: Message)
    ensures StatusLine(m) == "HTTP/1.1" + (" " + (ToDecimal(m.status) + (" " + m.text)))
    ensures NoSpace("HTTP/1.1")
  {
    hide ToDecimal;
    assert "HTTP/1.1 " == "HTTP/1.1" + " ";
  }

  lemma StatusOfSerialized(m: Message, rest: string)
    requires m.status <= U16_MAX && '\n' !in m.text
    ensures ExtractStatus(StatusLine(m) + "\r\n" + rest) == m.status
  {
    StatusLineShape(m);
    hide ToDecimal, ParseUnsigned, StatusLine, ExtractStatus;
    ParseDecimal(m.status, U16_MAX);
    StatusOr502("HTTP/1.1", ToDecimal(m.status), " " + m.text, rest);
  }

  lemma FirstBlank(raw: string, end: nat)
    requires HeadEnds(raw, end)
    ensures FindBlank(raw) == Some(end - 4)
  {
    hide FindBlank, BlankAt;
    var p := FindBlank(raw);
    assert BlankAt(raw, end - 4);
  }

  /** The body is what follows the first blank line, and empty if there is none. */
  lemma SplitBody(head: string, body: string)
    requires forall q: nat | q < |head| :: !BlankAt(head + "\r\n\r\n" + body, q)
    ensures SplitRaw(head + "\r\n\r\n" + body).1 == body
  {
    hide FindBlank, ExtractStatus;
    var raw := head + "\r\n\r\n" + body;
    assert BlankAt(raw, |head|);
    assert FindBlank(raw) == Some(|head|);
    assert raw[|head| + 4..] == body;
  }

  lemma NoBlankNoBody(raw: string)
    requires forall q: nat :: !BlankAt(raw, q)
    ensures SplitRaw(raw).1 == ""
  {
    hide FindBlank, ExtractStatus;
    var p := FindBlank(raw);
  }

  lemma SerializeShape(m: Message)
    ensures Serialize(m) == StatusLine(m) + "\r\n" + AfterStatus(m)
  {
  }

  /**
   Splitting the bytes of a response gives back its status and its body, whatever
   the body contains.
   */
  lemma ResponseRoundTrip(m: Message)
    requires m.status <= U16_MAX && CleanHead(m)
    ensures SplitRaw(Serialize(m)) == (m.status, m.body)
  {
    SerializeShape(m);
    hide Serialize, AfterStatus, StatusLine, FindBlank, ExtractStatus, HeadEnds, BlankAt;
    var end := SerializeHead(m);
    StatusOfSerialized(m, AfterStatus(m));
    FirstBlank(Serialize(m), end);
  }

  /** A reader of the head finds the four headers, and the exact body length among them. */
  lemma ResponseHeaders(m: Message)
    requires CleanHead(m)
    ensures var raw := Serialize(m);
            && FirstLine(raw) == StatusLine(m) + "\r\n"
            && ParseHeaders(raw[|StatusLine(m)| + 2..], map[]) ==
                 map["server" := Trim(m.server), "content-type" := Trim(m.contentType),
                     "content-length" := ToDecimal(|m.body|), "connection" := "close"]
            && ParseUnsigned(ToDecimal(|m.body|), |m.body|) == Some(|m.body|)
  {
    StatusLineClean(m);
    SerializedFirstLine(m);
    ReadResponseHeaders(m);
    ParseDecimal(|m.body|, |m.body|);
  }

  lemma SerializedFirstLine(m: Message)
    requires '\n' !in m.text
    ensures FirstLine(Serialize(m)) == StatusLine(m) + "\r\n"
    ensures Serialize(m)[|StatusLine(m)| + 2..] == AfterStatus(m)
  {
    hide FirstLine, StatusLine, HeaderLine;
    StatusLineClean(m);
    var line := StatusLine(m) + "\r";
    assert '\n' !in line;
    assert Serialize(m) == line + "\n" + AfterStatus(m);
    FirstLineIs(line, AfterStatus(m));
  }

  lemma ReadResponseHeaders(m: Message)
    requires CleanHead(m)
    ensures ParseHeaders(AfterStatus(m), map[]) ==
              map["server" := Trim(m.server), "content-type" := Trim(m.contentType),
                  "content-length" := ToDecimal(|m.body|), "connection" := "close"]
  {
    hide Trim, HeaderLine, ParseHeaders, ToDecimal;
    var l5 := "\r\n" + m.body;
    var l4 := HeaderLine("Connection", "close") + l5;
    var l3 := HeaderLine("Content-Length", ToDecimal(|m.body|)) + l4;
    var l2 := HeaderLine("Content-Type", m.contentType) + l3;
    assert AfterStatus(m) == HeaderLine("Server", m.server) + l2;
    hide AfterStatus;
    var h1: Headers := map["server" := Trim(m.server)];
    var h2 := h1["content-type" := Trim(m.contentType)];
    var h3 := h2["content-length" := ToDecimal(|m.body|)];
    ReadServerLine(m.server, l2);
    ReadContentTypeLine(m.contentType, l3, h1);
    ReadContentLengthLine(|m.body|, l4, h2);
    ReadConnectionLine(l5, h3);
    ReadBlankLine(m.body, h3["connection" := "close"]);
  }

  lemma ReadServerLine(v: string, rest: string)
    requires '\n' !in v
    ensures ParseHeaders(HeaderLine("Server", v) + rest, map[]) == ParseHeaders(rest, map["server" := Trim(v)])
  {
    hide Trim, HeaderLine, ParseHeaders;
    var none: Headers := map[];
    ReadNamedLine("Server", "server", v, rest, none);
    assert none["server" := Trim(v)] == map["server" := Trim(v)];
  }

  lemma ReadContentTypeLine(v: string, rest: string, headers: Headers)
    requires '\n' !in v
    ensures ParseHeaders(HeaderLine("Content-Type", v) + rest, headers)
         == ParseHeaders(rest, headers["content-type" := Trim(v)])
  {
    hide Trim, HeaderLine, ParseHeaders;
    ReadNamedLine("Content-Type", "content-type", v, rest, headers);
  }

  lemma DecimalTrimmed(n: nat)
    ensures Trimmed(ToDecimal(n)) && '\n' !in ToDecimal(n) && Trim(ToDecimal(n)) == ToDecimal(n)
  {
    hide ToDecimal, Trim;
    ParseDecimal(n, n);
    TrimOfTrimmed(ToDecimal(n));
  }

  lemma ReadContentLengthLine(n: nat, rest: string, headers: Headers)
    ensures ParseHeaders(HeaderLine("Content-Length", ToDecimal(n)) + rest, headers)
         == ParseHeaders(rest, headers["content-length" := ToDecimal(n)])
  {
    hide Trim, HeaderLine, ParseHeaders, ToDecimal;
    DecimalTrimmed(n);
    ReadNamedLine("Content-Length", "content-length", ToDecimal(n), rest, headers);
  }
}
