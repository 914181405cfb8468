/**
 The string operations of Rust's standard library that the server relies on, over
 single-byte characters: trimming, line reading, tokens, splitting, decimals.
 Whitespace is ASCII whitespace.
 */
module Text {
  import opened Results

  const U16_MAX: nat := 0xFFFF

  predicate IsSpace(c: char) {
    c == ' ' || c == '\t' || c == '\n' || c == '\r' || c == '\U{000B}' || c == '\U{000C}'
  }

  predicate AllSpace(s: string) {
    forall i | 0 <= i < |s| :: IsSpace(s[i])
  }

  predicate NoSpace(s: string) {
    forall i | 0 <= i < |s| :: !IsSpace(s[i])
  }

  // ---------------------------------------------------------------------
  // Trimming
  // ---------------------------------------------------------------------

  function TrimStart(s: string): (r: string)
    ensures |r| <= |s| && r == s[|s| - |r|..] && AllSpace(s[..|s| - |r|])
    ensures r != "" ==> !IsSpace(r[0])
  {
    if s != "" && IsSpace(s[0]) then TrimStart(s[1..]) else s
  }

  function TrimEnd(s: string): (r: string)
    ensures |r| <= |s| && r == s[..|r|] && AllSpace(s[|r|..])
    ensures r != "" ==> !IsSpace(r[|r| - 1])
  {
    if s != "" && IsSpace(s[|s| - 1]) then TrimEnd(s[..|s| - 1]) else s
  }

  function Trim(s: string): string {
    TrimEnd(TrimStart(s))
  }

  predicate Trimmed(s: string) {
    s != "" ==> !IsSpace(s[0]) && !IsSpace(s[|s| - 1])
  }

  lemma TrimStartStep(s: string)
    requires s != "" && IsSpace(s[0])
    ensures TrimStart(s) == TrimStart(s[1..])
  {
  }

  lemma TrimEndStep(s: string)
    requires s != "" && IsSpace(s[|s| - 1])
    ensures TrimEnd(s) == TrimEnd(s[..|s| - 1])
  {
  }

  lemma {:induction false} TrimStartPad(pad: string, s: string)
    requires AllSpace(pad)
    ensures TrimStart(pad + s) == TrimStart(s)
  {
    if pad == "" {
      assert pad + s == s;
    } else {
      hide TrimStart;
      TrimStartPad(pad[1..], s);
      TrimStartStep(pad + s);
      assert (pad + s)[1..] == pad[1..] + s;
    }
  }

  lemma TrimEndOne(s: string, c: char)
    requires IsSpace(c)
    ensures TrimEnd(s + [c]) == TrimEnd(s)
  {
    TrimEndStep(s + [c]);
    hide TrimEnd;
    assert (s + [c])[..|s|] == s;
  }

  lemma {:induction false} TrimEndPad(s: string, pad: string)
    requires AllSpace(pad)
    ensures TrimEnd(s + pad) == TrimEnd(s)
  {
    hide TrimEnd, IsSpace;
    if pad == "" {
      assert s + pad == s;
    } else {
      var init, last := pad[..|pad| - 1], pad[|pad| - 1];
      TrimEndPad(s, init);
      TrimEndOne(s + init, last);
      assert s + pad == s + init + [last];
    }
  }

  lemma TrimIsTrimmed(s: string)
    ensures Trimmed(Trim(s))
    ensures forall c | c in Trim(s) :: c in s
  {
  }

  lemma TrimOfTrimmed(s: string)
    requires Trimmed(s)
    ensures Trim(s) == s && TrimStart(s) == s && TrimEnd(s) == s
  {
  }

  lemma TrimOfSpace(s: string)
    requires AllSpace(s)
    ensures TrimStart(s) == "" && Trim(s) == ""
  {
    TrimStartPad(s, "");
    assert s + "" == s;
  }

  /** What is left after trimming the start, whatever follows. */
  lemma TrimStartAfter(s: string, after: string)
    ensures TrimStart(s) != "" ==> TrimStart(s + after) == TrimStart(s) + after
    ensures TrimStart(s) == "" ==> AllSpace(s)
  {
    var core := TrimStart(s);
    var lead := s[..|s| - |core|];
    if core != "" {
      assert s + after == lead + (core + after);
      TrimStartPad(lead, core + after);
      assert (core + after)[0] == core[0];
    } else {
      assert lead == s;
    }
  }

  lemma AllSpaceConcat(a: string, b: string)
    requires AllSpace(a) && AllSpace(b)
    ensures AllSpace(a + b)
  {
  }

  /** Surrounding whitespace does not matter. */
  lemma TrimPad(before: string, s: string, after: string)
    requires AllSpace(before) && AllSpace(after)
    ensures Trim(before + s + after) == Trim(s)
  {
    hide TrimStart, TrimEnd;
    assert before + s + after == before + (s + after);
    TrimStartPad(before, s + after);
    TrimStartAfter(s, after);
    if TrimStart(s) == "" {
      AllSpaceConcat(s, after);
      TrimOfSpace(s + after);
      TrimOfSpace(s);
    } else {
      TrimEndPad(TrimStart(s), after);
    }
  }

  lemma TrimIgnoresTrimEnd(s: string)
    ensures Trim(TrimEnd(s)) == Trim(s)
  {
    var r := TrimEnd(s);
    assert s == "" + r + s[|r|..];
    TrimPad("", r, s[|r|..]);
  }

  /** Text after a visible character is trimmed on its own. */
  lemma TrimEndAfter(a: string, c: char, b: string)
    requires !IsSpace(c)
    ensures TrimEnd(a + [c] + b) == a + [c] + TrimEnd(b)
  {
    var r := TrimEnd(b);
    var s := a + [c] + r;
    assert a + [c] + b == s + b[|r|..];
    TrimEndPad(s, b[|r|..]);
    assert s[|s| - 1] == if r == "" then c else r[|r| - 1];
  }

  // ---------------------------------------------------------------------
  // Searching and splitting
  // ---------------------------------------------------------------------

  /** The position of the first `c`, or the length of the string. */
  function IndexOf(s: string, c: char): (i: nat)
    ensures i <= |s| && (forall k | 0 <= k < i :: s[k] != c) && (i < |s| ==> s[i] == c)
  {
    if s == "" || s[0] == c then 0 else 1 + IndexOf(s[1..], c)
  }

  lemma IndexAfter(a: string, c: char, b: string)
    requires c !in a
    ensures IndexOf(a + [c] + b, c) == |a|
  {
    var s := a + [c] + b;
    assert s[|a|] == c;
    assert forall k | 0 <= k < |a| :: s[k] == a[k];
  }

  lemma IndexAbsent(s: string, c: char)
    requires c !in s
    ensures IndexOf(s, c) == |s|
  {
  }

  /** `split_once`: the text before and after the first `c`. */
  function SplitOnce(s: string, c: char): Option<(string, string)> {
    var i := IndexOf(s, c);
    if i < |s| then Some((s[..i], s[i + 1..])) else None
  }

  lemma SplitOnceAt(a: string, c: char, b: string)
    requires c !in a
    ensures SplitOnce(a + [c] + b, c) == Some((a, b))
  {
    IndexAfter(a, c, b);
    var s := a + [c] + b;
    assert s[..|a|] == a && s[|a| + 1..] == b;
  }

  lemma SplitOncePieces(s: string, c: char)
    ensures match SplitOnce(s, c)
            case None => true
            case Some((a, b)) => c !in a && (forall x | x in a || x in b :: x in s)
  {
  }

  /** `split(c)`: all the pieces between occurrences of `c`. */
  function Split(s: string, c: char): (pieces: seq<string>)
    ensures pieces != []
    decreases |s|
  {
    var i := IndexOf(s, c);
    if i == |s| then [s] else [s[..i]] + Split(s[i + 1..], c)
  }

  function Join(pieces: seq<string>, c: char): string
    requires pieces != []
  {
    if |pieces| == 1 then pieces[0] else pieces[0] + [c] + Join(pieces[1..], c)
  }

  lemma SplitFirst(piece: string, c: char, rest: string)
    requires c !in piece
    ensures Split(piece + [c] + rest, c) == [piece] + Split(rest, c)
  {
    hide IndexOf;
    IndexAfter(piece, c, rest);
    var s := piece + [c] + rest;
    assert s[..|piece|] == piece && s[|piece| + 1..] == rest;
  }

  lemma {:induction false} SplitJoin(pieces: seq<string>, c: char)
    requires pieces != [] && forall k | 0 <= k < |pieces| :: c !in pieces[k]
    ensures Split(Join(pieces, c), c) == pieces
  {
    if |pieces| == 1 {
      IndexAbsent(pieces[0], c);
    } else {
      hide Split, IndexOf;
      SplitJoin(pieces[1..], c);
      SplitFirst(pieces[0], c, Join(pieces[1..], c));
    }
  }

  /** The first line of a stream, with its line feed if there is one (`read_line`). */
  function FirstLine(s: string): (line: string)
    ensures |line| <= |s| && line == s[..|line|] && (s != "" ==> line != "")
  {
    var i := IndexOf(s, '\n');
    if i < |s| then s[..i + 1] else s
  }

  lemma FirstLineIs(line: string, rest: string)
    requires '\n' !in line
    ensures FirstLine(line + "\n" + rest) == line + "\n"
    ensures (line + "\n" + rest)[|line| + 1..] == rest
  {
    IndexAfter(line, '\n', rest);
    var s := line + "\n" + rest;
    assert s[..|line| + 1] == line + "\n";
    assert s[|line| + 1..] == rest;
  }

  /** A line without its ending, as `str::lines` yields it. */
  function StripLineEnd(line: string): (r: string)
    ensures |r| <= |line| && r == line[..|r|]
  {
    if line != "" && line[|line| - 1] == '\n' then
      var l := line[..|line| - 1];
      if l != "" && l[|l| - 1] == '\r' then l[..|l| - 1] else l
    else line
  }

  /** `str::lines`. */
  function Lines(s: string): seq<string>
    decreases |s|
  {
    if s == "" then []
    else
      var line := FirstLine(s);
      [StripLineEnd(line)] + Lines(s[|line|..])
  }

  // ---------------------------------------------------------------------
  // Tokens
  // ---------------------------------------------------------------------

  function TokenLength(s: string): (k: nat)
    ensures k <= |s| && (forall i | 0 <= i < k :: !IsSpace(s[i])) && (k < |s| ==> IsSpace(s[k]))
  {
    if s == "" || IsSpace(s[0]) then 0 else 1 + TokenLength(s[1..])
  }

  /** One step of `split_whitespace`: the next token and the text after it. */
  function NextToken(s: string): (r: (Option<string>, string))
    ensures r.0.Some? ==> r.0.value != "" && NoSpace(r.0.value)
    ensures r.0.Some? ==> |r.0.value| + |r.1| <= |s|
  {
    var t := TrimStart(s);
    var k := TokenLength(t);
    if t == "" then (None, "") else (Some(t[..k]), t[k..])
  }

  lemma TokenThen(token: string, rest: string)
    requires token != "" && NoSpace(token) && (rest == "" || IsSpace(rest[0]))
    ensures NextToken(token + rest) == (Some(token), rest)
  {
    var s := token + rest;
    assert TrimStart(s) == s;
    assert forall i | 0 <= i < |token| :: s[i] == token[i];
    assert rest != "" ==> s[|token|] == rest[0];
    assert TokenLength(s) == |token|;
    assert s[..|token|] == token && s[|token|..] == rest;
  }

  lemma TokenSkipsSpace(pad: string, s: string)
    requires AllSpace(pad)
    ensures NextToken(pad + s) == NextToken(s)
  {
    TrimStartPad(pad, s);
  }

  // ---------------------------------------------------------------------
  // Case and decimals
  // ---------------------------------------------------------------------

  function LowerChar(c: char): char {
    if 'A' <= c <= 'Z' then c - 'A' + 'a' else c
  }

  function Lower(s: string): (r: string)
    ensures |r| == |s|
  {
    seq(|s|, i requires 0 <= i < |s| => LowerChar(s[i]))
  }

  predicate IsDigit(c: char) {
    '0' <= c <= '9'
  }

  function DigitChar(d: nat): (c: char)
    requires d < 10
    ensures IsDigit(c)
  {
    '0' + d as char
  }

  function ToDecimal(n: nat): (s: string)
    ensures s != "" && forall i | 0 <= i < |s| :: IsDigit(s[i])
  {
    if n < 10 then [DigitChar(n)] else ToDecimal(n / 10) + [DigitChar(n % 10)]
  }

  function DigitsValue(s: string): Option<nat> {
    if s == "" then Some(0)
    else
      var init, last := DigitsValue(s[..|s| - 1]), s[|s| - 1];
      if init.Some? && IsDigit(last) then Some(10 * init.value + (last as int - '0' as int)) else None
  }

  /** `str::parse` of an unsigned integer with the given largest value: one leading `+` is accepted. */
  function ParseUnsigned(s: string, max: nat): (r: Option<nat>)
    ensures r.Some? ==> r.value <= max
  {
    var digits := if s != "" && s[0] == '+' then s[1..] else s;
    if digits == "" then None
    else
      var v := DigitsValue(digits);
      if v.Some? && v.value <= max then v else None
  }

  lemma {:induction false} DecimalValue(n: nat)
    ensures DigitsValue(ToDecimal(n)) == Some(n)
  {
    if n < 10 {
      assert DigitsValue("") == Some(0);
      assert ToDecimal(n)[..0] == "";
    } else {
      DecimalValue(n / 10);
      var s := ToDecimal(n);
      assert s[..|s| - 1] == ToDecimal(n / 10);
    }
  }

  lemma ParseDecimal(n: nat, max: nat)
    requires n <= max
    ensures ParseUnsigned(ToDecimal(n), max) == Some(n)
    ensures NoSpace(ToDecimal(n)) && '\n' !in ToDecimal(n)
  {
    DecimalValue(n);
    assert IsDigit(ToDecimal(n)[0]);
  }

  /** One leading `+` is accepted. */
  lemma ParsePlus(n: nat, max: nat)
    requires n <= max
    ensures ParseUnsigned("+" + ToDecimal(n), max) == Some(n)
  {
    hide ToDecimal, DigitsValue;
    DecimalValue(n);
    assert ("+" + ToDecimal(n))[1..] == ToDecimal(n);
  }

  /** A number that is too large is refused. */
  lemma ParseTooLarge(n: nat, max: nat)
    requires max < n
    ensures ParseUnsigned(ToDecimal(n), max) == None
  {
    hide ToDecimal, DigitsValue;
    DecimalValue(n);
    assert IsDigit(ToDecimal(n)[0]);
  }

  lemma {:induction false} DigitsOnly(s: string)
    ensures DigitsValue(s).Some? <==> forall i | 0 <= i < |s| :: IsDigit(s[i])
  {
    if s == "" {
    } else {
      var init := s[..|s| - 1];
      DigitsOnly(init);
      assert forall i | 0 <= i < |init| :: s[i] == init[i];
    }
  }

  /** Anything else than digits after an optional `+` is refused. */
  lemma ParseNonDigit(s: string, i: nat, max: nat)
    requires i < |s| && !IsDigit(s[i]) && (s[i] != '+' || 0 < i)
    ensures ParseUnsigned(s, max) == None
  {
    DigitsOnly(s);
    DigitsOnly(s[1..]);
    hide DigitsValue;
    assert 0 < i ==> s[1..][i - 1] == s[i];
  }
}
