/** Header lines as this server writes them, and reading them back with its own parser. */
module HeaderText {
  import opened Results
  import opened Text
  import opened Requests

  function HeaderLine(k: string, v: string): string {
    k + ": " + v + "\r\n"
  }

  lemma VisibleNotBlank(a: string, c: char, b: string)
    requires !IsSpace(c)
    ensures !BlankLine(a + [c] + b)
  {
    hide TrimStart, TrimEnd;
    var s := a + [c] + b;
    var core := TrimStart(s);
    assert s[|a|] == c;
    assert core != "";
    assert core == "" + [core[0]] + core[1..];
    TrimEndAfter("", core[0], core[1..]);
  }

  /** One header line adds exactly one header. */
  lemma ReadHeaderLine(k: string, v: string, rest: string, headers: Headers)
    requires ':' !in k && '\n' !in k && '\n' !in v
    ensures ParseHeaders(HeaderLine(k, v) + rest, headers)
         == ParseHeaders(rest, headers[Lower(Trim(k)) := Trim(v)])
  {
    hide TrimStart, TrimEnd, Trim, IndexOf, TokenLength, NextToken, FirstLine, ParseHeaders, PercentDecode;
    var body := k + ": " + v + "\r";
    var line := HeaderLine(k, v);
    assert line == body + "\n";
    FirstLineIs(body, rest);
    assert line == k + [':'] + (" " + v + "\r\n");
    VisibleNotBlank(k, ':', " " + v + "\r\n");
    TrimEndAfter(k, ':', " " + v + "\r\n");
    var value := TrimEnd(" " + v + "\r\n");
    SplitOnceAt(k, ':', value);
    TrimIgnoresTrimEnd(" " + v + "\r\n");
    TrimPad(" ", v, "\r\n");
    HeaderStep(line + rest, headers);
  }

  /** The blank line ends the header block, whatever follows. */
  lemma ReadBlankLine(rest: string, headers: Headers)
    ensures ParseHeaders("\r\n" + rest, headers) == headers
  {
    hide TrimStart, TrimEnd, IndexOf, FirstLine, ParseHeaders;
    var line := "\r" + "\n";
    TrimOfSpace(line);
    FirstLineIs("\r", rest);
    assert "\r\n" + rest == "\r" + "\n" + rest;
    HeaderStep("\r\n" + rest, headers);
  }

  lemma CanonicalName(s: string, name: string)
    requires Trimmed(s) && |s| == |name| && forall i | 0 <= i < |s| :: LowerChar(s[i]) == name[i]
    ensures Lower(Trim(s)) == name
  {
    hide Trim;
    TrimOfTrimmed(s);
    assert Lower(s) == name;
  }

  lemma ReadNamedLine(shown: string, name: string, v: string, rest: string, headers: Headers)
    requires Trimmed(shown) && |shown| == |name| && forall i | 0 <= i < |shown| :: LowerChar(shown[i]) == name[i]
    requires ':' !in shown && '\n' !in shown && '\n' !in v
    ensures ParseHeaders(HeaderLine(shown, v) + rest, headers) == ParseHeaders(rest, headers[name := Trim(v)])
  {
    hide Trim, HeaderLine, ParseHeaders;
    CanonicalName(shown, name);
    ReadHeaderLine(shown, v, rest, headers);
  }

  lemma ReadConnectionLine(rest: string, headers: Headers)
    ensures ParseHeaders(HeaderLine("Connection", "close") + rest, headers)
         == ParseHeaders(rest, headers["connection" := "close"])
  {
    hide Trim, HeaderLine, ParseHeaders;
    TrimOfTrimmed("close");
    ReadNamedLine("Connection", "connection", "close", rest, headers);
  }

  lemma TrimEndOff(line: string, pad: string)
    requires line != "" && !IsSpace(line[|line| - 1]) && AllSpace(pad)
    ensures TrimEnd(line + pad) == line
  {
    hide TrimEnd;
    TrimEndPad(line, pad);
    TrimEndKeeps(line);
  }

  lemma PaddedLine(k: string, rest: string, pad: string)
    requires ':' !in k && rest != "" && !IsSpace(rest[|rest| - 1]) && AllSpace(pad)
    ensures SplitOnce(TrimEnd(k + [':'] + rest + pad), ':') == Some((k, rest))
  {
    hide TrimEnd, SplitOnce, AllSpace, IsSpace;
    SplitOnceAt(k, ':', rest);
    TrimEndOff(k + [':'] + rest, pad);
  }

  lemma LineParts(k: string, a: string, v: string, b: string)
    ensures k + ":" + a + v + b + "\r\n" == k + [':'] + (a + v) + (b + "\r\n")
    ensures v != "" ==> (a + v)[|a + v| - 1] == v[|v| - 1]
  {
  }

  lemma SpacesAndTabs(a: string, b: string)
    requires forall i | 0 <= i < |a| :: a[i] == ' ' || a[i] == '\t'
    requires forall i | 0 <= i < |b| :: b[i] == ' ' || b[i] == '\t'
    ensures AllSpace(a) && AllSpace(b + "\r\n")
  {
  }

  lemma TrimPadded(a: string, v: string)
    requires AllSpace(a) && v != "" && Trimmed(v)
    ensures Trim(a + v) == v
  {
    hide Trim;
    assert a + v + "" == a + v;
    TrimPad(a, v, "");
    TrimOfTrimmed(v);
  }

  /** Spaces and tabs around a header value are not part of it (section 5 of RFC 9112). */
  lemma PaddedValue(k: string, a: string, v: string, b: string, headers: Headers)
    requires ':' !in k && Trimmed(k) && Trimmed(v) && v != ""
    requires forall i | 0 <= i < |a| :: a[i] == ' ' || a[i] == '\t'
    requires forall i | 0 <= i < |b| :: b[i] == ' ' || b[i] == '\t'
    ensures AddHeader(headers, k + ":" + a + v + b + "\r\n") == headers[Lower(k) := v]
  {
    hide TrimEnd, Trim, SplitOnce, Lower, AllSpace, IsSpace;
    SpacesAndTabs(a, b);
    LineParts(k, a, v, b);
    PaddedLine(k, a + v, b + "\r\n");
    TrimPadded(a, v);
    TrimOfTrimmed(k);
  }

  lemma AlphabetOrder()
    ensures forall d | 0 <= d < 26 ::
              && "ABCDEFGHIJKLMNOPQRSTUVWXYZ"[d] as int == 'A' as int + d
              && "abcdefghijklmnopqrstuvwxyz"[d] as int == 'a' as int + d
  {
  }

  /** Header names are compared without regard to case. */
  lemma LowerAlphabet(s: string, i: nat)
    requires i < |s|
    ensures forall d | 0 <= d < 26 && s[i] == "ABCDEFGHIJKLMNOPQRSTUVWXYZ"[d] ::
              Lower(s)[i] == "abcdefghijklmnopqrstuvwxyz"[d]
    ensures s[i] !in "ABCDEFGHIJKLMNOPQRSTUVWXYZ" ==> Lower(s)[i] == s[i]
  {
    var upper := "ABCDEFGHIJKLMNOPQRSTUVWXYZ";
    AlphabetOrder();
    if 'A' <= s[i] <= 'Z' { assert s[i] == upper[s[i] as int - 'A' as int]; }
  }
}
