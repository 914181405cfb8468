/**
 Reading an HTTP/1.x request (`src/http/request.rs`): percent decoding, path
 sanitising, the request line and the header block. Characters are single bytes.
 */
module Requests {
  import opened Results
  import opened Text

  // ---------------------------------------------------------------------
  // Percent decoding
  // ---------------------------------------------------------------------

  function HexDigit(c: char): (d: Option<nat>)
    ensures d.Some? ==> d.value < 16
  {
    if '0' <= c <= '9' then Some(c as int - '0' as int)
    else if 'a' <= c <= 'f' then Some(c as int - 'a' as int + 10)
    else if 'A' <= c <= 'F' then Some(c as int - 'A' as int + 10)
    else None
  }

  predicate IsHex(c: char) {
    HexDigit(c).Some?
  }

  /** `u8::from_str_radix` on two characters: a leading `+` is accepted. */
  function HexPair(a: char, b: char): (v: Option<nat>)
    ensures v.Some? ==> v.value < 256 && a != '%' && b != '%'
  {
    if a == '+' then HexDigit(b)
    else if IsHex(a) && IsHex(b) then Some(16 * HexDigit(a).value + HexDigit(b).value)
    else None
  }

  /** The value of each hexadecimal digit, in both cases; no other character has one. */
  lemma HexDigitIs(c: char)
    ensures forall d | 0 <= d < 16 && (c == "0123456789abcdef"[d] || c == "0123456789ABCDEF"[d]) ::
              HexDigit(c) == Some(d)
    ensures HexDigit(c).Some? ==>
              exists d :: 0 <= d < 16 && (c == "0123456789abcdef"[d] || c == "0123456789ABCDEF"[d])
  {
    var low, high := "0123456789abcdef", "0123456789ABCDEF";
    if HexDigit(c).Some? {
      assert c == low[HexDigit(c).value] || c == high[HexDigit(c).value];
    }
  }

  /** Two digits are a byte; a `+` may stand for the first; and nothing else is accepted. */
  lemma HexPairIs(a: char, b: char)
    ensures HexDigit(a).Some? && HexDigit(b).Some? ==>
              HexPair(a, b) == Some(16 * HexDigit(a).value + HexDigit(b).value)
    ensures HexPair('+', b) == HexDigit(b)
    ensures HexPair(a, b).Some? <==> (a == '+' || HexDigit(a).Some?) && HexDigit(b).Some?
  {
  }

  predicate EscapeFirst(s: string) {
    |s| >= 3 && s[0] == '%' && HexPair(s[1], s[2]).Some?
  }

  function PercentDecode(s: string): (out: string)
    ensures |out| <= |s|
  {
    if s == "" then ""
    else if EscapeFirst(s) then [HexPair(s[1], s[2]).value as char] + PercentDecode(s[3..])
    else [s[0]] + PercentDecode(s[1..])
  }

  /** The decoder's index loop. */
  method PercentDecodeLoop(input: string) returns (out: string)
    ensures out == PercentDecode(input)
  {
    hide PercentDecode;
    out := "";
    var i := 0;
    assert input[0..] == input;
    while i < |input|
      invariant i <= |input|
      invariant out + PercentDecode(input[i..]) == PercentDecode(input)
    {
      ghost var tail := input[i..];
      if input[i] == '%' && i + 2 < |input| {
        var val := HexPair(input[i + 1], input[i + 2]);
        if val.Some? {
          EscapeStart(tail);
          assert tail[3..] == input[i + 3..];
          out := out + [val.value as char];
          i := i + 3;
          continue;
        }
      }
      PlainStart(tail);
      assert tail[1..] == input[i + 1..];
      out := out + [input[i]];
      i := i + 1;
    }
    DecodeEmpty(input[i..]);
  }

  lemma DecodeEmpty(s: string)
    requires s == ""
    ensures PercentDecode(s) == ""
  {
  }

  lemma PlainStart(s: string)
    requires s != "" && !EscapeFirst(s)
    ensures PercentDecode(s) == [s[0]] + PercentDecode(s[1..])
  {
  }

  lemma EscapeStart(s: string)
    requires EscapeFirst(s)
    ensures PercentDecode(s) == [HexPair(s[1], s[2]).value as char] + PercentDecode(s[3..])
  {
  }

  /** `e` is some encoding of `s`: each character is kept, or escaped; `%` is always escaped. */
  ghost predicate Encodes(e: string, s: string) {
    if s == "" then e == ""
    else
      || (e != "" && e[0] == s[0] && s[0] != '%' && Encodes(e[1..], s[1..]))
      || (|e| >= 3 && e[0] == '%' && IsHex(e[1]) && IsHex(e[2])
          && HexPair(e[1], e[2]) == Some(s[0] as int) && Encodes(e[3..], s[1..]))
  }

  /** Decoding inverts every encoder that escapes at least `%`. */
  lemma {:induction false} DecodeInverts(e: string, s: string)
    requires Encodes(e, s)
    ensures PercentDecode(e) == s
  {
    if s != "" {
      assert s == [s[0]] + s[1..];
      if e != "" && e[0] == s[0] && s[0] != '%' && Encodes(e[1..], s[1..]) {
        PlainStart(e);
        DecodeInverts(e[1..], s[1..]);
      } else {
        EscapeStart(e);
        DecodeInverts(e[3..], s[1..]);
      }
    }
  }

  function HexChar(d: nat): (c: char)
    requires d < 16
    ensures HexDigit(c) == Some(d)
  {
    if d < 10 then '0' + d as char else 'A' + (d - 10) as char
  }

  predicate Bytes(s: string) {
    forall i | 0 <= i < |s| :: s[i] as int < 256
  }

  /** The encoder of section 2.1 of RFC 3986 that keeps the characters of `keep`. */
  function PercentEncode(s: string, keep: set<char>): string
    requires Bytes(s)
  {
    if s == "" then ""
    else
      var b := s[0] as int;
      (if s[0] in keep then [s[0]] else ['%', HexChar(b / 16), HexChar(b % 16)])
      + PercentEncode(s[1..], keep)
  }

  lemma {:induction false} DecodeEncode(s: string, keep: set<char>)
    requires Bytes(s) && '%' !in keep
    ensures PercentDecode(PercentEncode(s, keep)) == s
  {
    EncodeEncodes(s, keep);
    DecodeInverts(PercentEncode(s, keep), s);
  }

  lemma {:induction false} EncodeEncodes(s: string, keep: set<char>)
    requires Bytes(s) && '%' !in keep
    ensures Encodes(PercentEncode(s, keep), s)
  {
    if s != "" {
      EncodeEncodes(s[1..], keep);
      var e := PercentEncode(s, keep);
      if s[0] in keep {
        assert e[1..] == PercentEncode(s[1..], keep);
      } else {
        assert e[3..] == PercentEncode(s[1..], keep);
      }
    }
  }

  /** An escape that begins in `a` is completed by `b`. */
  predicate Straddles(a: string, b: string) {
    || (|a| >= 1 && |b| >= 2 && a[|a| - 1] == '%' && HexPair(b[0], b[1]).Some?)
    || (|a| >= 2 && |b| >= 1 && a[|a| - 2] == '%' && HexPair(a[|a| - 1], b[0]).Some?)
  }

  /** A text may be decoded in two pieces exactly when no escape straddles the cut. */
  lemma DecodeConcatIff(a: string, b: string)
    ensures PercentDecode(a + b) == PercentDecode(a) + PercentDecode(b) <==> !Straddles(a, b)
  {
    if Straddles(a, b) { DecodeStraddled(a, b); } else { DecodeConcat(a, b); }
  }

  /** In particular after any piece whose last two characters are not `%`. */
  lemma DecodeConcatSafe(a: string, b: string)
    requires |a| >= 1 ==> a[|a| - 1] != '%'
    requires |a| >= 2 ==> a[|a| - 2] != '%'
    ensures PercentDecode(a + b) == PercentDecode(a) + PercentDecode(b)
  {
    DecodeConcat(a, b);
  }

  lemma StraddleTail(a: string, b: string, k: nat)
    requires !Straddles(a, b) && k <= |a|
    ensures !Straddles(a[k..], b)
  {
  }

  lemma FirstEscapeKeeps(a: string, b: string)
    requires !Straddles(a, b) && a != ""
    ensures EscapeFirst(a + b) == EscapeFirst(a)
  {
    var s := a + b;
    assert forall i | 0 <= i < |a| :: s[i] == a[i];
    assert forall i | 0 <= i < |b| :: s[|a| + i] == b[i];
    assert |a| == 1 && |b| >= 2 ==> s[1] == b[0] && s[2] == b[1];
    assert |a| == 2 && |b| >= 1 ==> s[2] == b[0];
  }

  /** The first decoded character, and how many characters it stands for. */
  function DecodeHead(s: string): (char, nat)
    requires s != ""
  {
    if EscapeFirst(s) then (HexPair(s[1], s[2]).value as char, 3) else (s[0], 1)
  }

  lemma DecodeStep(s: string)
    requires s != ""
    ensures var (x, k) := DecodeHead(s); k <= |s| && PercentDecode(s) == [x] + PercentDecode(s[k..])
  {
  }

  lemma HeadKeeps(a: string, b: string)
    requires !Straddles(a, b) && a != ""
    ensures DecodeHead(a + b) == DecodeHead(a)
    ensures var k := DecodeHead(a).1; k <= |a| && (a + b)[k..] == a[k..] + b && !Straddles(a[k..], b)
  {
    FirstEscapeKeeps(a, b);
    StraddleTail(a, b, DecodeHead(a).1);
  }

  lemma {:induction false} DecodeConcat(a: string, b: string)
    requires !Straddles(a, b)
    ensures PercentDecode(a + b) == PercentDecode(a) + PercentDecode(b)
  {
    if a == "" {
      assert a + b == b;
    } else {
      HeadKeeps(a, b);
      DecodeStep(a);
      DecodeStep(a + b);
      hide Straddles, PercentDecode, DecodeHead;
      var (x, k) := DecodeHead(a);
      DecodeConcat(a[k..], b);
      assert [x] + (PercentDecode(a[k..]) + PercentDecode(b)) == ([x] + PercentDecode(a[k..])) + PercentDecode(b);
    }
  }

  lemma {:induction false} DecodeStraddled(a: string, b: string)
    requires Straddles(a, b)
    ensures |PercentDecode(a + b)| + 2 == |PercentDecode(a)| + |PercentDecode(b)|
  {
    hide PercentDecode, HexPair;
    if EscapeFirst(a) {
      EscapeStart(a);
      EscapeStart(a + b);
      DecodeStraddled(a[3..], b);
      assert (a + b)[3..] == a[3..] + b;
    } else if EscapeFirst(a + b) {
      StraddledAtOnce(a, b);
    } else {
      PlainStart(a);
      PlainStart(a + b);
      assert (a + b)[1..] == a[1..] + b;
      DecodeStraddled(a[1..], b);
    }
  }

  lemma StraddledAtOnce(a: string, b: string)
    requires a != "" && !EscapeFirst(a) && EscapeFirst(a + b)
    ensures |PercentDecode(a + b)| + 2 == |PercentDecode(a)| + |PercentDecode(b)|
  {
    hide PercentDecode, HexPair;
    if |a| == 1 {
      StraddledAfterOne(a, b);
    } else {
      StraddledAfterTwo(a, b);
    }
  }

  lemma StraddledAfterOne(a: string, b: string)
    requires |a| == 1 && EscapeFirst(a + b)
    ensures |PercentDecode(a + b)| + 2 == |PercentDecode(a)| + |PercentDecode(b)|
  {
    DecodeEmpty("");
    hide PercentDecode, HexPair;
    var s := a + b;
    assert b[0] == s[1] && b[1] == s[2];
    EscapeStart(s);
    PlainStart(a);
    assert a[1..] == "";
    PlainStart(b);
    PlainStart(b[1..]);
    assert b[1..][1..] == b[2..] == s[3..];
  }

  lemma StraddledAfterTwo(a: string, b: string)
    requires |a| == 2 && EscapeFirst(a + b)
    ensures |PercentDecode(a + b)| + 2 == |PercentDecode(a)| + |PercentDecode(b)|
  {
    DecodeEmpty("");
    hide PercentDecode, HexPair;
    var s := a + b;
    assert a[1] == s[1] && b[0] == s[2];
    EscapeStart(s);
    PlainStart(a);
    PlainStart(a[1..]);
    assert a[1..][1..] == "";
    PlainStart(b);
    assert b[1..] == s[3..];
  }

  // ---------------------------------------------------------------------
  // The path
  // ---------------------------------------------------------------------

  predicate HasDotDot(s: string) {
    exists i :: 0 <= i < |s| - 1 && s[i] == '.' && s[i + 1] == '.'
  }

  function Sanitize(raw: string): (path: string)
    ensures !HasDotDot(path)
    ensures path == "/" || |path| <= |raw|
  {
    var decoded := PercentDecode(raw[..IndexOf(raw, '?')]);
    if HasDotDot(decoded) then "/" else decoded
  }

  /** The query is cut off before anything is decoded. */
  lemma QueryIsCut(path: string, query: string)
    requires '?' !in path
    ensures Sanitize(path + "?" + query) == Sanitize(path)
  {
    hide PercentDecode, HasDotDot;
    IndexAfter(path, '?', query);
    assert path + "?" + query == path + ['?'] + query;
    assert (path + "?" + query)[..|path|] == path;
    IndexAbsent(path, '?');
    assert path[..|path|] == path;
  }

  /** Two dots in a row, anywhere. */
  ghost predicate Climbs(s: string) {
    exists a, b :: s == a + ".." + b
  }

  lemma ClimbsIff(s: string)
    ensures HasDotDot(s) <==> Climbs(s)
  {
    if HasDotDot(s) {
      var i :| 0 <= i < |s| - 1 && s[i] == '.' && s[i + 1] == '.';
      assert s == s[..i] + ".." + s[i + 2..];
    }
    if Climbs(s) {
      var a, b :| s == a + ".." + b;
      assert s[|a|] == '.' && s[|a| + 1] == '.';
    }
  }

  /** Without a query the path is the decoded text, or `/` exactly when that contains two dots in a row. */
  lemma SanitizeIs(path: string)
    requires '?' !in path
    ensures Sanitize(path) == if Climbs(PercentDecode(path)) then "/" else PercentDecode(path)
  {
    hide PercentDecode;
    ClimbsIff(PercentDecode(path));
    hide HasDotDot, Climbs;
    IndexAbsent(path, '?');
    assert path[..|path|] == path;
  }

  // ---------------------------------------------------------------------
  // Request line and headers
  // ---------------------------------------------------------------------

  datatype Request = Request(verb: string, path: string, version: string, headers: map<string, string>)

  type Headers = map<string, string>

  /** A header line is split at its first colon; a line without one is ignored. */
  function AddHeader(headers: Headers, line: string): Headers {
    match SplitOnce(TrimEnd(line), ':')
    case None => headers
    case Some((k, v)) => headers[Lower(Trim(k)) := Trim(v)]
  }

  /** The end of the header block, or of the stream. */
  predicate BlankLine(line: string) {
    line == "" || Trim(line) == ""
  }

  /** Reads header lines until a blank line or the end of the stream. */
  function ParseHeaders(text: string, headers: Headers): Headers
    decreases |text|
  {
    var line := FirstLine(text);
    if BlankLine(line) then headers
    else ParseHeaders(text[|line|..], AddHeader(headers, line))
  }

  lemma HeaderStep(text: string, headers: Headers)
    ensures var line := FirstLine(text);
            ParseHeaders(text, headers) ==
              if BlankLine(line) then headers
              else ParseHeaders(text[|line|..], AddHeader(headers, line))
  {
  }

  function TokenOr(token: Option<string>, default: string): string {
    if token.Some? then token.value else default
  }

  /** The verb, raw path and version of a request line. */
  function RequestLine(line: string): (string, string, string) {
    var (verb, afterVerb) := NextToken(TrimEnd(line));
    var (path, afterPath) := NextToken(afterVerb);
    var (version, _) := NextToken(afterPath);
    (TokenOr(verb, ""), TokenOr(path, "/"), TokenOr(version, "HTTP/1.1"))
  }

  function ParseRequest(text: string): Request {
    var line := FirstLine(text);
    var (verb, rawPath, version) := RequestLine(line);
    Request(verb, Sanitize(rawPath), version, ParseHeaders(text[|line|..], map[]))
  }

  lemma NoToken(pad: string)
    requires AllSpace(pad)
    ensures NextToken(pad) == (None, "") && TrimEnd(pad) == ""
  {
    TrimOfSpace(pad);
    assert pad + "" == pad && "" + pad == pad;
    TokenSkipsSpace(pad, "");
    TrimEndPad("", pad);
  }

  /** A request line of white space only: no verb, path `/`, version HTTP/1.1. */
  lemma EmptyRequestLine(pad: string)
    requires AllSpace(pad)
    ensures RequestLine(pad) == ("", "/", "HTTP/1.1")
  {
    hide TrimEnd, NextToken;
    NoToken(pad);
    NoToken("");
  }

  lemma LoneToken(token: string)
    requires token != "" && NoSpace(token)
    ensures NextToken(token) == (Some(token), "")
  {
    hide NextToken;
    assert token + "" == token;
    TokenThen(token, "");
  }

  lemma TrimEndToken(a: string, token: string, pad: string)
    requires token != "" && NoSpace(token) && AllSpace(pad)
    ensures TrimEnd(a + token + pad) == a + token
  {
    hide TrimEnd;
    TrimEndPad(a + token, pad);
    var s := a + token;
    assert s[|s| - 1] == token[|token| - 1];
    TrimEndKeeps(s);
  }

  lemma TrimEndKeeps(s: string)
    requires s != "" && !IsSpace(s[|s| - 1])
    ensures TrimEnd(s) == s
  {
  }

  /** A verb alone: path `/`, version HTTP/1.1. */
  lemma VerbOnly(verb: string, pad: string)
    requires verb != "" && NoSpace(verb) && AllSpace(pad)
    ensures RequestLine(verb + pad) == (verb, "/", "HTTP/1.1")
  {
    hide TrimEnd, NextToken;
    assert "" + verb + pad == verb + pad && "" + verb == verb;
    TrimEndToken("", verb, pad);
    LoneToken(verb);
    NoToken("");
  }

  /** A verb and a path, with any white space between them: version HTTP/1.1. */
  lemma VerbAndPath(verb: string, gap: string, path: string, pad: string)
    requires verb != "" && NoSpace(verb) && path != "" && NoSpace(path)
    requires gap != "" && AllSpace(gap) && AllSpace(pad)
    ensures RequestLine(verb + gap + path + pad) == (verb, path, "HTTP/1.1")
  {
    hide TrimEnd, NextToken;
    TrimEndToken(verb + gap, path, pad);
    assert verb + gap + path == verb + (gap + path);
    TokenThen(verb, gap + path);
    TokenSkipsSpace(gap, path);
    LoneToken(path);
    NoToken("");
  }

  /** All three, with any white space between them; further tokens are ignored. */
  lemma ThreeTokens(verb: string, gap: string, path: string, gap': string, version: string, more: string)
    requires verb != "" && NoSpace(verb) && path != "" && NoSpace(path) && version != "" && NoSpace(version)
    requires gap != "" && AllSpace(gap) && gap' != "" && AllSpace(gap')
    requires more != "" ==> IsSpace(more[0]) && !IsSpace(more[|more| - 1])
    ensures RequestLine(verb + gap + path + gap' + version + more) == (verb, path, version)
  {
    hide TrimEnd, NextToken;
    var line := verb + gap + path + gap' + version + more;
    var last := version + more;
    assert line[|line| - 1] == last[|last| - 1];
    TrimEndKeeps(line);
    assert line == verb + (gap + (path + (gap' + last)));
    TokenThen(verb, gap + (path + (gap' + last)));
    TokenSkipsSpace(gap, path + (gap' + last));
    TokenThen(path, gap' + last);
    TokenSkipsSpace(gap', last);
    TokenThen(version, more);
  }

  /** A line without a colon is ignored. */
  lemma ColonlessIgnored(headers: Headers, line: string)
    requires ':' !in line
    ensures AddHeader(headers, line) == headers
  {
    var t := TrimEnd(line);
    assert forall i | 0 <= i < |t| :: t[i] == line[i];
    hide TrimEnd;
    IndexAbsent(t, ':');
  }

  /** A line of white space, or the end of the stream, ends the head. */
  lemma SpacesEndHead(pad: string, rest: string, headers: Headers)
    requires AllSpace(pad) && '\n' !in pad
    ensures ParseHeaders(pad + "\n" + rest, headers) == headers && ParseHeaders("", headers) == headers
  {
    hide ParseHeaders, FirstLine, Trim;
    FirstLineIs(pad, rest);
    TrimOfSpace(pad + "\n");
    HeaderStep(pad + "\n" + rest, headers);
    HeaderStep("", headers);
  }

  // ---------------------------------------------------------------------
  // Reading from a connection
  // ---------------------------------------------------------------------

  /** Whether the bytes of a line are UTF-8. */
  type Decoder = string -> bool

  /**
   Reading the next line fails when the connection breaks before the line ends, or
   when the line is not UTF-8. `broken` tells whether the connection breaks after
   `text` rather than being closed.
   */
  predicate LineFails(text: string, broken: bool, utf8: Decoder) {
    (broken && '\n' !in text) || (text != "" && !utf8(FirstLine(text)))
  }

  predicate HeadersFail(text: string, broken: bool, utf8: Decoder)
    decreases |text|
  {
    var line := FirstLine(text);
    LineFails(text, broken, utf8) || (!BlankLine(line) && HeadersFail(text[|line|..], broken, utf8))
  }

  /** Some line that has to be read up to the blank line cannot be read. */
  predicate HeadFails(text: string, broken: bool, utf8: Decoder) {
    LineFails(text, broken, utf8) || HeadersFail(text[|FirstLine(text)|..], broken, utf8)
  }

  lemma HeadersFailStep(text: string, broken: bool, utf8: Decoder)
    ensures var line := FirstLine(text);
            HeadersFail(text, broken, utf8) <==>
              LineFails(text, broken, utf8) || (!BlankLine(line) && HeadersFail(text[|line|..], broken, utf8))
  {
  }

  /** A buffered connection: what has not been read yet. */
  class BufReader {
    const broken: bool
    const utf8: Decoder
    var rest: string

    constructor (text: string, broken: bool, utf8: Decoder)
      ensures rest == text && this.broken == broken && this.utf8 == utf8
    {
      rest := text;
      this.broken := broken;
      this.utf8 := utf8;
    }

    /** Takes one line, with its line feed; the empty string at the end of the stream. */
    method ReadLine() returns (line: Option<string>)
      modifies this
      ensures line.None? <==> LineFails(old(rest), broken, utf8)
      ensures line.Some? ==> line.value == FirstLine(old(rest)) && rest == old(rest)[|line.value|..]
    {
      if LineFails(rest, broken, utf8) {
        return None;
      }
      line := Some(FirstLine(rest));
      rest := rest[|line.value|..];
    }
  }

  /** The header loop of `Request::parse`. */
  method ReadHeaders(reader: BufReader) returns (headers: Option<Headers>)
    modifies reader
    ensures headers.None? <==> HeadersFail(old(reader.rest), reader.broken, reader.utf8)
    ensures headers.Some? ==> headers.value == ParseHeaders(old(reader.rest), map[])
  {
    var collected: Headers := map[];
    while true
      invariant ParseHeaders(reader.rest, collected) == ParseHeaders(old(reader.rest), map[])
      invariant HeadersFail(reader.rest, reader.broken, reader.utf8)
           <==> HeadersFail(old(reader.rest), reader.broken, reader.utf8)
      decreases |reader.rest|
    {
      HeaderStep(reader.rest, collected);
      HeadersFailStep(reader.rest, reader.broken, reader.utf8);
      var line := reader.ReadLine();
      if line.None? {
        return None;
      }
      if BlankLine(line.value) {
        break;
      }
      collected := AddHeader(collected, line.value);
    }
    return Some(collected);
  }

  method Parse(reader: BufReader) returns (request: Option<Request>)
    modifies reader
    ensures request.None? <==> HeadFails(old(reader.rest), reader.broken, reader.utf8)
    ensures request.Some? ==> request.value == ParseRequest(old(reader.rest))
  {
    hide HeadersFail, LineFails, ParseHeaders, Sanitize, RequestLine;
    var requestLine := reader.ReadLine();
    if requestLine.None? {
      return None;
    }
    var (verb, rawPath, version) := RequestLine(requestLine.value);

    var headers := ReadHeaders(reader);
    if headers.None? {
      return None;
    }
    return Some(Request(verb, Sanitize(rawPath), version, headers.value));
  }

  /** Lines one after the other. */
  function LinesText(lines: seq<string>): string {
    if lines == [] then "" else lines[0] + "\n" + LinesText(lines[1..])
  }

  /** Lines that can be read and that do not end the head. */
  ghost predicate HeadLines(lines: seq<string>, utf8: Decoder) {
    forall i | 0 <= i < |lines| :: '\n' !in lines[i] && !BlankLine(lines[i] + "\n") && utf8(lines[i] + "\n")
  }

  lemma OneLineMore(lines: seq<string>, rest: string, broken: bool, utf8: Decoder)
    requires lines != [] && HeadLines(lines, utf8)
    ensures HeadersFail(LinesText(lines) + rest, broken, utf8)
         == HeadersFail(LinesText(lines[1..]) + rest, broken, utf8)
  {
    hide HeadersFail, FirstLine, BlankLine;
    var text := LinesText(lines) + rest;
    assert text == lines[0] + "\n" + (LinesText(lines[1..]) + rest);
    FirstLineIs(lines[0], LinesText(lines[1..]) + rest);
    HeadersFailStep(text, broken, utf8);
    assert text[|lines[0]|] == '\n';
  }

  lemma {:induction false} HeadLinesRead(lines: seq<string>, rest: string, broken: bool, utf8: Decoder)
    requires HeadLines(lines, utf8)
    ensures HeadersFail(LinesText(lines) + rest, broken, utf8) == HeadersFail(rest, broken, utf8)
  {
    hide HeadersFail, BlankLine;
    if lines == [] {
      assert LinesText(lines) + rest == rest;
    } else {
      OneLineMore(lines, rest, broken, utf8);
      HeadLinesRead(lines[1..], rest, broken, utf8);
    }
  }

  /** A header line that is not UTF-8 fails, wherever it stands in the head. */
  lemma BadLineFails(lines: seq<string>, bad: string, rest: string, broken: bool, utf8: Decoder)
    requires HeadLines(lines, utf8) && '\n' !in bad && !utf8(bad + "\n")
    ensures HeadersFail(LinesText(lines) + (bad + "\n" + rest), broken, utf8)
  {
    hide HeadersFail, FirstLine, BlankLine;
    HeadLinesRead(lines, bad + "\n" + rest, broken, utf8);
    FirstLineIs(bad, rest);
    HeadersFailStep(bad + "\n" + rest, broken, utf8);
  }

  /** A head that is cut off within a line fails if the connection broke. */
  lemma CutHeadFails(lines: seq<string>, part: string, utf8: Decoder)
    requires HeadLines(lines, utf8) && '\n' !in part
    ensures HeadersFail(LinesText(lines) + part, true, utf8)
  {
    hide HeadersFail, FirstLine, BlankLine;
    HeadLinesRead(lines, part, true, utf8);
    HeadersFailStep(part, true, utf8);
  }

  /** A complete head of UTF-8 lines is read, whatever comes after it. */
  lemma CompleteHeadReads(lines: seq<string>, pad: string, rest: string, broken: bool, utf8: Decoder)
    requires HeadLines(lines, utf8) && AllSpace(pad) && '\n' !in pad && utf8(pad + "\n")
    ensures !HeadersFail(LinesText(lines) + (pad + "\n" + rest), broken, utf8)
  {
    hide HeadersFail, FirstLine, Trim;
    var text := pad + "\n" + rest;
    HeadLinesRead(lines, text, broken, utf8);
    FirstLineIs(pad, rest);
    TrimOfSpace(pad + "\n");
    HeadersFailStep(text, broken, utf8);
    assert text[|pad|] == '\n';
  }

  /** The request line has to be readable, too. */
  lemma BadRequestLineFails(bad: string, rest: string, broken: bool, utf8: Decoder)
    requires '\n' !in bad
    ensures !utf8(bad + "\n") ==> HeadFails(bad + "\n" + rest, broken, utf8)
    ensures HeadFails(bad, true, utf8)
    ensures utf8(bad + "\n") ==> HeadFails(bad + "\n" + rest, broken, utf8) == HeadersFail(rest, broken, utf8)
  {
    hide HeadersFail, FirstLine;
    FirstLineIs(bad, rest);
    assert (bad + "\n" + rest)[|bad|] == '\n';
  }

  /** On a connection that is closed properly and sends UTF-8, nothing fails: a cut head is read as it is. */
  lemma {:induction false} ClosedNeverFails(text: string, utf8: Decoder)
    requires forall line :: utf8(line)
    ensures !HeadersFail(text, false, utf8) && !HeadFails(text, false, utf8)
    decreases |text|
  {
    var line := FirstLine(text);
    HeadersFailStep(text, false, utf8);
    if text == "" {
    } else {
      ClosedNeverFails(text[|line|..], utf8);
    }
  }

  lemma FirstLineGrows(text: string, more: string)
    requires '\n' in text
    ensures FirstLine(text + more) == FirstLine(text) && FirstLine(text) != ""
    ensures (text + more)[|FirstLine(text)|..] == text[|FirstLine(text)|..] + more
  {
    var i :| 0 <= i < |text| && text[i] == '\n';
    var k := IndexOf(text, '\n');
    assert text + more == text[..k] + ['\n'] + (text[k + 1..] + more);
    IndexAfter(text[..k], '\n', text[k + 1..] + more);
  }

  lemma {:induction false} HeadersSuffice(text: string, more: string, utf8: Decoder, headers: Headers)
    requires !HeadersFail(text, true, utf8)
    ensures !HeadersFail(text + more, true, utf8) && ParseHeaders(text + more, headers) == ParseHeaders(text, headers)
    decreases |text|
  {
    HeadersFailStep(text, true, utf8);
    HeadersFailStep(text + more, true, utf8);
    FirstLineGrows(text, more);
    HeaderStep(text, headers);
    HeaderStep(text + more, headers);
    hide HeadersFail, ParseHeaders, FirstLine;
    var line := FirstLine(text);
    if BlankLine(line) {
    } else {
      HeadersSuffice(text[|line|..], more, utf8, AddHeader(headers, line));
    }
  }

  /**
   What is accepted before the connection breaks is final: any further bytes would
   leave the request as it is.
   */
  lemma HeadSuffices(text: string, more: string, utf8: Decoder)
    requires !HeadFails(text, true, utf8)
    ensures !HeadFails(text + more, true, utf8) && ParseRequest(text + more) == ParseRequest(text)
  {
    FirstLineGrows(text, more);
    HeadersSuffice(text[|FirstLine(text)|..], more, utf8, map[]);
    hide HeadersFail, ParseHeaders, FirstLine, RequestLine, Sanitize;
  }

  // ---------------------------------------------------------------------
  // What every parsed request satisfies
  // ---------------------------------------------------------------------

  predicate HeaderOk(k: string, v: string) {
    && Trimmed(k) && Lower(k) == k && ':' !in k && '\n' !in k
    && Trimmed(v) && '\n' !in v
  }

  predicate HeadersOk(headers: Headers) {
    forall k | k in headers :: HeaderOk(k, headers[k])
  }

  lemma LowerKeeps(s: string)
    requires Trimmed(s) && ':' !in s && '\n' !in s
    ensures Trimmed(Lower(s)) && Lower(Lower(s)) == Lower(s) && ':' !in Lower(s) && '\n' !in Lower(s)
  {
    assert forall i | 0 <= i < |s| :: Lower(s)[i] == LowerChar(s[i]) && s[i] in s;
  }

  lemma LineBody(text: string)
    ensures '\n' !in TrimEnd(FirstLine(text))
  {
    var line := FirstLine(text);
    var body := TrimEnd(line);
    forall i | 0 <= i < |body| ensures body[i] != '\n' {
      assert body[i] == line[i] == text[i];
    }
  }

  lemma HeaderFromLine(line: string)
    requires '\n' !in TrimEnd(line)
    ensures match SplitOnce(TrimEnd(line), ':')
            case None => true
            case Some((k, v)) => HeaderOk(Lower(Trim(k)), Trim(v))
  {
    SplitOncePieces(TrimEnd(line), ':');
    match SplitOnce(TrimEnd(line), ':')
    case None =>
    case Some((k, v)) =>
      TrimIsTrimmed(k);
      TrimIsTrimmed(v);
      LowerKeeps(Trim(k));
  }

  lemma PutHeaderOk(headers: Headers, k: string, v: string)
    requires HeadersOk(headers) && HeaderOk(k, v)
    ensures HeadersOk(headers[k := v])
  {
    hide HeaderOk;
  }

  lemma AddHeaderOk(headers: Headers, text: string)
    requires HeadersOk(headers)
    ensures HeadersOk(AddHeader(headers, FirstLine(text)))
  {
    hide TrimEnd, Trim, Lower, FirstLine, SplitOnce, HeaderOk, HeadersOk;
    var line := FirstLine(text);
    LineBody(text);
    HeaderFromLine(line);
    var halves := SplitOnce(TrimEnd(line), ':');
    if halves.Some? {
      PutHeaderOk(headers, Lower(Trim(halves.value.0)), Trim(halves.value.1));
    }
  }

  lemma {:induction false} ParsedHeadersOk(text: string, headers: Headers)
    requires HeadersOk(headers)
    ensures HeadersOk(ParseHeaders(text, headers))
    decreases |text|
  {
    var line := FirstLine(text);
    if BlankLine(line) {
    } else {
      AddHeaderOk(headers, text);
      ParsedHeadersOk(text[|line|..], AddHeader(headers, line));
    }
  }

  /**
   For every input: names are lower-case, trimmed and colon-free, no line feed
   gets into a header, the verb is one token, and the path cannot climb.
   */
  lemma ParsedRequestOk(text: string)
    ensures var r := ParseRequest(text);
            && HeadersOk(r.headers) && NoSpace(r.verb) && !HasDotDot(r.path)
            && (r.verb == "" ==> r.path == "/")
  {
    var line := FirstLine(text);
    ParsedHeadersOk(text[|line|..], map[]);
    assert Sanitize("/") == "/" by {
      assert "/"[..IndexOf("/", '?')] == "/";
      PlainStart("/");
      assert "/"[1..] == "";
    }
  }
}
