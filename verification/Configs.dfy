/**
 The configuration file (`src/config/mod.rs`): `key = value` lines, the settings
 taken from them, and the proxy routes that are read back from printed ones.
 */
module Configs {
  import opened Results
  import opened Text
  import opened Maps
  import opened Routing

  type Settings = map<string, string>

  const USIZE_MAX: nat := 0xFFFF_FFFF_FFFF_FFFF

  // ---------------------------------------------------------------------
  // Key and value lines
  // ---------------------------------------------------------------------

  function TrimQuotesStart(s: string): (r: string)
    ensures |r| <= |s| && r == s[|s| - |r|..]
  {
    if s != "" && s[0] == '"' then TrimQuotesStart(s[1..]) else s
  }

  function TrimQuotesEnd(s: string): (r: string)
    ensures |r| <= |s| && r == s[..|r|]
  {
    if s != "" && s[|s| - 1] == '"' then TrimQuotesEnd(s[..|s| - 1]) else s
  }

  /** `trim_matches('"')`. */
  function TrimQuotes(s: string): string {
    TrimQuotesEnd(TrimQuotesStart(s))
  }

  /** The setting on one line, if there is one. */
  function SettingOf(line: string): Option<(string, string)> {
    var l := Trim(line);
    if l == "" || l[0] == '#' then None
    else
      match SplitOnce(l, '=')
      case None => None
      case Some((k, v)) => Some((Trim(k), TrimQuotes(Trim(v))))
  }

  function AddSetting(m: Settings, line: string): Settings {
    match SettingOf(line)
    case None => m
    case Some((k, v)) => m[k := v]
  }

  /** The settings of a list of lines: a later line overrides an earlier one. */
  function SettingsOf(lines: seq<string>): Settings {
    if lines == [] then map[] else AddSetting(SettingsOf(lines[..|lines| - 1]), lines[|lines| - 1])
  }

  method ParseKv(contents: string) returns (m: Settings)
    ensures m == SettingsOf(Lines(contents))
  {
    hide SettingOf;
    m := map[];
    var lines := Lines(contents);
    for i := 0 to |lines|
      invariant m == SettingsOf(lines[..i])
    {
      assert lines[..i + 1][..i] == lines[..i];
      var setting := SettingOf(lines[i]);
      if setting.Some? {
        m := m[setting.value.0 := setting.value.1];
      }
    }
    assert lines[..|lines|] == lines;
  }

  // ---------------------------------------------------------------------
  // Routes
  // ---------------------------------------------------------------------

  type ProxyRoute = Route<seq<string>>

  function ProxyKey(): string {
    "proxy_route "
  }

  /** The comma-separated pieces, trimmed, without the empty ones. */
  function NonEmptyTrimmed(pieces: seq<string>): seq<string> {
    if pieces == [] then []
    else
      var first := Trim(pieces[0]);
      (if first == "" then [] else [first]) + NonEmptyTrimmed(pieces[1..])
  }

  /** `strip_prefix`. */
  function StripPrefix(prefix: string, s: string): Option<string> {
    if prefix <= s then Some(s[|prefix|..]) else None
  }

  /** The proxy route that a setting defines: none if the key is another one or no upstream is left. */
  function RouteOf(k: string, v: string): Option<ProxyRoute> {
    match StripPrefix(ProxyKey(), k)
    case None => None
    case Some(prefix) =>
      var upstreams := NonEmptyTrimmed(Split(v, ','));
      if upstreams == [] then None else Some(Route(Trim(prefix), upstreams))
  }

  function RoutesFrom(m: Settings, order: seq<string>): seq<ProxyRoute>
    requires forall k | k in order :: k in m
  {
    if order == [] then []
    else
      var init, last := RoutesFrom(m, order[..|order| - 1]), order[|order| - 1];
      match RouteOf(last, m[last])
      case None => init
      case Some(r) => init + [r]
  }

  function WasmKey(): string {
    "wasm_route "
  }

  function WasmRoutesFrom(m: Settings, order: seq<string>): seq<(string, string)>
    requires forall k | k in order :: k in m
  {
    if order == [] then []
    else
      var init, last := WasmRoutesFrom(m, order[..|order| - 1]), order[|order| - 1];
      match StripPrefix(WasmKey(), last)
      case None => init
      case Some(prefix) => init + [(Trim(prefix), Trim(m[last]))]
  }

  // ---------------------------------------------------------------------
  // Loading a configuration
  // ---------------------------------------------------------------------

  datatype Config = Config(
    host: string, port: nat, documentRoot: string, serverName: string, indexFile: string,
    workerThreads: nat, accessLog: string, errorLog: string,
    tlsEnabled: bool, tlsPort: nat, tlsCert: string, tlsKey: string,
    proxyRoutes: seq<ProxyRoute>, wasmRoutes: seq<(string, string)>,
    checkInterval: nat, checkTimeout: nat)

  function Default(): Config {
    Config("0.0.0.0", 9090, "./www", "NWarp", "index.html",
           4, "./logs/access.log", "./logs/error.log",
           false, 9443, "./certs/dev-cert.pem", "./certs/dev-key.pem",
           [], [], 5, 2)
  }

  function TextSetting(m: Settings, k: string, default: string): string {
    if k in m then m[k] else default
  }

  function NumberSetting(m: Settings, k: string, max: nat, default: nat): nat {
    if k in m && ParseUnsigned(m[k], max).Some? then ParseUnsigned(m[k], max).value else default
  }

  predicate FlagSetting(m: Settings, k: string, default: bool) {
    if k in m then Lower(m[k]) == "true" || m[k] == "1" else default
  }

  function AtLeastOne(n: nat): nat {
    if n < 1 then 1 else n
  }

  /** What every loaded configuration satisfies. */
  predicate Sane(cfg: Config) {
    && 1 <= cfg.workerThreads <= USIZE_MAX && cfg.port <= U16_MAX && cfg.tlsPort <= U16_MAX
    && 1 <= cfg.checkInterval <= USIZE_MAX && 1 <= cfg.checkTimeout <= USIZE_MAX
    && '\n' !in cfg.serverName
    && forall i | 0 <= i < |cfg.proxyRoutes| :: cfg.proxyRoutes[i].target != []
  }

  /** All settings other than routes: each key overrides its default, numbers that do not parse are ignored. */
  function Scalars(m: Settings): Config {
    Config(
      TextSetting(m, "host", "0.0.0.0"),
      NumberSetting(m, "port", U16_MAX, 9090),
      TextSetting(m, "document_root", "./www"),
      TextSetting(m, "server_name", "NWarp"),
      TextSetting(m, "index", "index.html"),
      AtLeastOne(NumberSetting(m, "worker_threads", USIZE_MAX, 4)),
      TextSetting(m, "access_log", "./logs/access.log"),
      TextSetting(m, "error_log", "./logs/error.log"),
      FlagSetting(m, "tls_enabled", false),
      NumberSetting(m, "tls_port", U16_MAX, 9443),
      TextSetting(m, "tls_cert", "./certs/dev-cert.pem"),
      TextSetting(m, "tls_key", "./certs/dev-key.pem"),
      [], [],
      AtLeastOne(NumberSetting(m, "health_check_interval", USIZE_MAX, 5)),
      AtLeastOne(NumberSetting(m, "health_check_timeout", USIZE_MAX, 2)))
  }

  /** The assignments to the fields of the configuration, in the order of the source. */
  method LoadScalars(m: Settings) returns (cfg: Config)
    ensures cfg == Scalars(m)
  {
    hide TextSetting, NumberSetting;
    cfg := Default();
    cfg := cfg.(host := TextSetting(m, "host", cfg.host));
    cfg := cfg.(port := NumberSetting(m, "port", U16_MAX, cfg.port));
    cfg := cfg.(documentRoot := TextSetting(m, "document_root", cfg.documentRoot));
    cfg := cfg.(serverName := TextSetting(m, "server_name", cfg.serverName));
    cfg := cfg.(indexFile := TextSetting(m, "index", cfg.indexFile));
    cfg := cfg.(workerThreads := AtLeastOne(NumberSetting(m, "worker_threads", USIZE_MAX, cfg.workerThreads)));
    cfg := cfg.(accessLog := TextSetting(m, "access_log", cfg.accessLog));
    cfg := cfg.(errorLog := TextSetting(m, "error_log", cfg.errorLog));
    cfg := cfg.(tlsEnabled := FlagSetting(m, "tls_enabled", cfg.tlsEnabled));
    cfg := cfg.(tlsPort := NumberSetting(m, "tls_port", U16_MAX, cfg.tlsPort));
    cfg := cfg.(tlsCert := TextSetting(m, "tls_cert", cfg.tlsCert));
    cfg := cfg.(tlsKey := TextSetting(m, "tls_key", cfg.tlsKey));
    cfg := cfg.(checkInterval := AtLeastOne(NumberSetting(m, "health_check_interval", USIZE_MAX, cfg.checkInterval)));
    cfg := cfg.(checkTimeout := AtLeastOne(NumberSetting(m, "health_check_timeout", USIZE_MAX, cfg.checkTimeout)));
  }

  /** The loop over the settings that collects proxy routes. */
  method LoadProxyRoutes(m: Settings, order: seq<string>) returns (routes: seq<ProxyRoute>)
    requires Enumerates(order, m)
    ensures routes == RoutesFrom(m, order)
  {
    hide RouteOf;
    routes := [];
    for i := 0 to |order|
      invariant routes == RoutesFrom(m, order[..i])
    {
      assert order[..i + 1][..i] == order[..i];
      var r := RouteOf(order[i], m[order[i]]);
      if r.Some? {
        routes := routes + [r.value];
      }
    }
    assert order[..|order|] == order;
  }

  method LoadWasmRoutes(m: Settings, order: seq<string>) returns (routes: seq<(string, string)>)
    requires Enumerates(order, m)
    ensures routes == WasmRoutesFrom(m, order)
  {
    hide StripPrefix, Trim;
    routes := [];
    for i := 0 to |order|
      invariant routes == WasmRoutesFrom(m, order[..i])
    {
      assert order[..i + 1][..i] == order[..i];
      var prefix := StripPrefix(WasmKey(), order[i]);
      if prefix.Some? {
        routes := routes + [(Trim(prefix.value), Trim(m[order[i]]))];
      }
    }
    assert order[..|order|] == order;
  }

  /**
   `Config::load`. `contents` is None when the file is missing or unreadable;
   `order` is the order in which the map of settings happens to be iterated.
   */
  method Load(contents: Option<string>, order: seq<string>) returns (cfg: Config)
    requires contents.Some? ==> Enumerates(order, SettingsOf(Lines(contents.value)))
    ensures contents.None? ==> cfg == Default()
    ensures contents.Some? ==>
      var m := SettingsOf(Lines(contents.value));
      cfg == Scalars(m).(proxyRoutes := RoutesFrom(m, order), wasmRoutes := WasmRoutesFrom(m, order))
    ensures Sane(cfg)
  {
    hide Scalars;
    if contents.None? {
      return Default();
    }
    var m := ParseKv(contents.value);
    cfg := LoadScalars(m);
    var proxyRoutes := LoadProxyRoutes(m, order);
    var wasmRoutes := LoadWasmRoutes(m, order);
    cfg := cfg.(proxyRoutes := proxyRoutes, wasmRoutes := wasmRoutes);
    ScalarsSane(contents.value);
    RoutesHaveUpstreams(m, order);
  }

  // ---------------------------------------------------------------------
  // What every loaded configuration satisfies
  // ---------------------------------------------------------------------

  predicate CleanSettings(m: Settings) {
    forall k | k in m :: '\n' !in k && '\n' !in m[k]
  }

  lemma SettingClean(line: string)
    requires '\n' !in line
    ensures SettingOf(line).Some? ==> '\n' !in SettingOf(line).value.0 && '\n' !in SettingOf(line).value.1
  {
    hide Trim, TrimQuotes, SplitOnce;
    var l := Trim(line);
    TrimIsTrimmed(line);
    SplitOncePieces(l, '=');
    var halves := SplitOnce(l, '=');
    if halves.Some? {
      TrimIsTrimmed(halves.value.0);
      TrimIsTrimmed(halves.value.1);
      QuotesOnlyRemoved(Trim(halves.value.1));
    }
  }

  lemma QuotesOnlyRemoved(s: string)
    ensures forall c | c in TrimQuotes(s) :: c in s
  {
    var t := TrimQuotesStart(s);
    assert forall c | c in t :: c in s;
  }

  lemma {:induction false} SettingsClean(lines: seq<string>)
    requires forall i | 0 <= i < |lines| :: '\n' !in lines[i]
    ensures CleanSettings(SettingsOf(lines))
  {
    hide SettingOf;
    if lines == [] {
    } else {
      SettingsClean(lines[..|lines| - 1]);
      SettingClean(lines[|lines| - 1]);
    }
  }

  lemma {:induction false} LinesClean(s: string)
    ensures forall i | 0 <= i < |Lines(s)| :: '\n' !in Lines(s)[i]
    decreases |s|
  {
    if s == "" {
    } else {
      var line := FirstLine(s);
      LinesClean(s[|line|..]);
      StrippedClean(s);
    }
  }

  lemma StrippedClean(s: string)
    ensures '\n' !in StripLineEnd(FirstLine(s))
  {
    var line, r := FirstLine(s), StripLineEnd(FirstLine(s));
    assert forall i | 0 <= i < |r| :: r[i] == line[i] == s[i];
  }

  lemma ScalarsSane(contents: string)
    ensures Sane(Scalars(SettingsOf(Lines(contents))))
  {
    hide SettingsOf, Lines, ParseUnsigned, Lower;
    LinesClean(contents);
    SettingsClean(Lines(contents));
  }

  lemma {:induction false} RoutesHaveUpstreams(m: Settings, order: seq<string>)
    requires forall k | k in order :: k in m
    ensures forall r | r in RoutesFrom(m, order) :: r.target != []
  {
    hide NonEmptyTrimmed, StripPrefix, Split, Trim;
    if order == [] {
    } else {
      RoutesHaveUpstreams(m, order[..|order| - 1]);
    }
  }

  // ---------------------------------------------------------------------
  // Printing settings and reading them back
  // ---------------------------------------------------------------------

  lemma SettingFrom(line: string, l: string, a: string, b: string)
    requires Trim(line) == l && l != "" && l[0] != '#' && SplitOnce(l, '=') == Some((a, b))
    ensures SettingOf(line) == Some((Trim(a), TrimQuotes(Trim(b))))
  {
    hide Trim, TrimQuotes, SplitOnce;
  }

  lemma TrimAfter(s: string)
    requires s != "" && Trimmed(s)
    ensures Trim(s + " ") == s
  {
    hide Trim;
    assert "" + s + " " == s + " ";
    TrimPad("", s, " ");
    TrimOfTrimmed(s);
  }

  lemma TrimNothing()
    ensures Trim("") == "" && TrimQuotes("") == ""
  {
  }

  lemma EmptySettingLine(k: string)
    requires k != "" && Trimmed(k)
    ensures var l := k + " ="; Trim(k + " = ") == l && l[0] == k[0]
  {
    var l := k + " =";
    assert l[0] == k[0] && l[|l| - 1] == '=';
    hide Trim;
    assert k + " = " == l + " ";
    TrimAfter(l);
  }

  lemma ReadEmptySetting(k: string)
    requires k != "" && k[0] != '#' && Trimmed(k) && '=' !in k
    ensures SettingOf(k + " = ") == Some((k, ""))
  {
    hide Trim, TrimQuotes, SplitOnce, SettingOf, Trimmed;
    EmptySettingLine(k);
    assert k + " =" == (k + " ") + ['='] + "";
    SplitOnceAt(k + " ", '=', "");
    SettingFrom(k + " = ", k + " =", k + " ", "");
    TrimAfter(k);
    TrimNothing();
  }

  lemma ReadFullSetting(k: string, v: string)
    requires k != "" && k[0] != '#' && Trimmed(k) && '=' !in k && v != "" && Trimmed(v)
    ensures SettingOf(k + " = " + v) == Some((k, TrimQuotes(v)))
  {
    hide Trim, TrimQuotes, SplitOnce;
    var line := k + " = " + v;
    assert line[0] == k[0] && line[|line| - 1] == v[|v| - 1];
    TrimOfTrimmed(line);
    assert line == (k + " ") + ['='] + (" " + v);
    SplitOnceAt(k + " ", '=', " " + v);
    SettingFrom(line, line, k + " ", " " + v);
    assert "" + k + " " == k + " " && " " + v + "" == " " + v;
    TrimPad("", k, " ");
    TrimPad(" ", v, "");
    TrimOfTrimmed(k);
    TrimOfTrimmed(v);
  }

  /** `k = v` is read as the setting of `k` to `v`, unchanged by trimming and quote removal. */
  lemma ReadSettingLine(k: string, v: string)
    requires k != "" && k[0] != '#' && Trimmed(k) && '=' !in k && Trimmed(v) && TrimQuotes(v) == v
    ensures SettingOf(k + " = " + v) == Some((k, v))
  {
    hide SettingOf, TrimQuotes;
    if v == "" {
      assert k + " = " + v == k + " = ";
      ReadEmptySetting(k);
    } else {
      ReadFullSetting(k, v);
    }
  }

  function Unlines(lines: seq<string>): string {
    if lines == [] then "" else lines[0] + "\n" + Unlines(lines[1..])
  }

  lemma TrimStripped(line: string)
    ensures SettingOf(StripLineEnd(line + "\n")) == SettingOf(line)
  {
    var full := line + "\n";
    var r := StripLineEnd(full);
    assert full[..|full| - 1] == line;
    assert line == "" + r + line[|r|..];
    assert AllSpace(line[|r|..]);
    TrimPad("", r, line[|r|..]);
  }

  lemma LinesStep(s: string)
    requires s != ""
    ensures Lines(s) == [StripLineEnd(FirstLine(s))] + Lines(s[|FirstLine(s)|..])
  {
  }

  /** `read` holds the lines as a line reader yields them. */
  ghost predicate ReadAs(read: seq<string>, lines: seq<string>) {
    |read| == |lines| && forall i | 0 <= i < |lines| :: read[i] == StripLineEnd(lines[i] + "\n")
  }

  lemma {:induction false} LinesOfUnlines(lines: seq<string>)
    requires forall i | 0 <= i < |lines| :: '\n' !in lines[i]
    ensures ReadAs(Lines(Unlines(lines)), lines)
  {
    hide StripLineEnd, FirstLine, Lines;
    if lines == [] {
      NoLines();
    } else {
      LinesOfUnlines(lines[1..]);
      FirstLineIs(lines[0], Unlines(lines[1..]));
      LinesStep(Unlines(lines));
      assert lines == [lines[0]] + lines[1..];
    }
  }

  lemma NoLines()
    ensures Lines("") == []
  {
  }

  lemma {:induction false} SameSettings(read: seq<string>, lines: seq<string>)
    requires ReadAs(read, lines)
    ensures SettingsOf(read) == SettingsOf(lines)
  {
    hide StripLineEnd, SettingOf;
    if lines == [] {
    } else {
      var n := |lines| - 1;
      assert read[n] == StripLineEnd(lines[n] + "\n");
      SameSettings(read[..n], lines[..n]);
      TrimStripped(lines[n]);
    }
  }

  /** Loading a text made of lines gives the settings of these lines. */
  lemma SettingsOfText(lines: seq<string>)
    requires forall i | 0 <= i < |lines| :: '\n' !in lines[i]
    ensures SettingsOf(Lines(Unlines(lines))) == SettingsOf(lines)
  {
    LinesOfUnlines(lines);
    SameSettings(Lines(Unlines(lines)), lines);
  }

  /** A file of one line. */
  lemma OneSetting(k: string, v: string)
    requires k != "" && k[0] != '#' && Trimmed(k) && '=' !in k && '\n' !in k
    requires Trimmed(v) && TrimQuotes(v) == v && '\n' !in v
    ensures SettingsOf(Lines(k + " = " + v + "\n")) == map[k := v]
  {
    hide SettingOf, Lines, TrimQuotes, Trimmed;
    var line := k + " = " + v;
    ReadSettingLine(k, v);
    SettingsOfText([line]);
    assert [line][1..] == [] && [line][..0] == [];
    assert Unlines([line]) == line + "\n" + Unlines([]);
    assert line + "\n" + "" == line + "\n";
    assert SettingsOf([]) == map[];
  }

  // ---------------------------------------------------------------------
  // Printing routes and reading them back
  // ---------------------------------------------------------------------

  /** A route that survives printing. */
  predicate Printable(r: ProxyRoute) {
    && r.prefix != "" && Trimmed(r.prefix) && '=' !in r.prefix && '\n' !in r.prefix
    && r.target != []
    && (forall i | 0 <= i < |r.target| ::
          r.target[i] != "" && Trimmed(r.target[i]) && ',' !in r.target[i] && '\n' !in r.target[i])
    && r.target[0][0] != '"' && Last(r.target[|r.target| - 1]) != '"'
  }

  function Last(s: string): char {
    if s == "" then ' ' else s[|s| - 1]
  }

  function KeyOf(r: ProxyRoute): string {
    ProxyKey() + r.prefix
  }

  function RouteLine(r: ProxyRoute): string
    requires r.target != []
  {
    KeyOf(r) + " = " + Join(r.target, ',')
  }

  /** A line of a configuration file: a printed route, or any text that defines no proxy route. */
  datatype DocLine = Routed(route: ProxyRoute) | Noise(text: string)

  predicate ValidLine(l: DocLine) {
    match l
    case Routed(r) => Printable(r)
    case Noise(text) =>
      '\n' !in text && (SettingOf(text).Some? ==> !(ProxyKey() <= SettingOf(text).value.0))
  }

  function TextOf(l: DocLine): string
    requires ValidLine(l)
  {
    match l
    case Routed(r) => RouteLine(r)
    case Noise(text) => text
  }

  predicate ValidDoc(doc: seq<DocLine>) {
    && (forall i | 0 <= i < |doc| :: ValidLine(doc[i]))
    && (forall i, j | 0 <= i < j < |doc| && doc[i].Routed? && doc[j].Routed? ::
          doc[i].route.prefix != doc[j].route.prefix)
  }

  function Texts(doc: seq<DocLine>): seq<string>
    requires forall i | 0 <= i < |doc| :: ValidLine(doc[i])
  {
    seq(|doc|, i requires 0 <= i < |doc| => TextOf(doc[i]))
  }

  function Print(doc: seq<DocLine>): string
    requires forall i | 0 <= i < |doc| :: ValidLine(doc[i])
  {
    Unlines(Texts(doc))
  }

  function RoutesIn(doc: seq<DocLine>): (routes: seq<ProxyRoute>)
  {
    if doc == [] then []
    else RoutesIn(doc[..|doc| - 1]) + (if doc[|doc| - 1].Routed? then [doc[|doc| - 1].route] else [])
  }

  // One line

  lemma JoinEnds(pieces: seq<string>, c: char)
    requires pieces != [] && forall i | 0 <= i < |pieces| :: pieces[i] != ""
    ensures var j := Join(pieces, c);
            j != "" && j[0] == pieces[0][0] && j[|j| - 1] == Last(pieces[|pieces| - 1])
  {
    if |pieces| > 1 { JoinEnds(pieces[1..], c); }
  }

  lemma JoinChars(pieces: seq<string>, c: char, x: char)
    requires pieces != [] && x != c && forall i | 0 <= i < |pieces| :: x !in pieces[i]
    ensures x !in Join(pieces, c)
  {
    if |pieces| > 1 { JoinChars(pieces[1..], c, x); }
  }

  /** The joined upstreams are unchanged by trimming, of space and of quotes. */
  lemma JoinedValue(r: ProxyRoute)
    requires Printable(r)
    ensures var v := Join(r.target, ',');
            v != "" && Trimmed(v) && TrimQuotes(v) == v && '\n' !in v
  {
    hide Join;
    JoinEnds(r.target, ',');
    JoinChars(r.target, ',', '\n');
    assert Trimmed(r.target[0]) && Trimmed(r.target[|r.target| - 1]);
  }

  lemma RouteKey(r: ProxyRoute)
    requires Printable(r)
    ensures var k := KeyOf(r);
            && k != "" && k[0] == 'p' && Trimmed(k) && '=' !in k && '\n' !in k
            && StripPrefix(ProxyKey(), k) == Some(r.prefix)
  {
    var k := KeyOf(r);
    assert k[|k| - 1] == r.prefix[|r.prefix| - 1];
  }

  /** A printed route is read as one setting, and no comment. */
  lemma ReadRouteLine(r: ProxyRoute)
    requires Printable(r)
    ensures SettingOf(RouteLine(r)) == Some((KeyOf(r), Join(r.target, ',')))
  {
    RouteKey(r);
    JoinedValue(r);
    hide Join, KeyOf, SettingOf, Trim, TrimQuotes;
    ReadSettingLine(KeyOf(r), Join(r.target, ','));
  }

  lemma {:induction false} TrimmedPieces(pieces: seq<string>)
    requires forall i | 0 <= i < |pieces| :: pieces[i] != "" && Trimmed(pieces[i])
    ensures NonEmptyTrimmed(pieces) == pieces
  {
    hide Trim;
    if pieces == [] {
    } else {
      TrimOfTrimmed(pieces[0]);
      TrimmedPieces(pieces[1..]);
    }
  }

  /** And the setting gives the route back. */
  lemma ReadRoute(r: ProxyRoute)
    requires Printable(r)
    ensures RouteOf(KeyOf(r), Join(r.target, ',')) == Some(r)
  {
    hide Join, Split, Trim, NonEmptyTrimmed;
    RouteKey(r);
    SplitJoin(r.target, ',');
    TrimmedPieces(r.target);
    TrimOfTrimmed(r.prefix);
  }

  lemma TextClean(l: DocLine)
    requires ValidLine(l)
    ensures '\n' !in TextOf(l)
  {
    if l.Routed? {
      hide Join, KeyOf;
      RouteKey(l.route);
      JoinedValue(l.route);
    }
  }

  // The whole document

  /** What the settings of a document know about proxy routes. */
  ghost predicate Knows(m: Settings, routes: seq<ProxyRoute>) {
    && (forall r | r in routes :: Printable(r) && KeyOf(r) in m && m[KeyOf(r)] == Join(r.target, ','))
    && (forall k | k in m && ProxyKey() <= k :: exists r :: r in routes && k == KeyOf(r))
  }

  lemma {:induction false} SettingsKnow(doc: seq<DocLine>, lines: seq<string>)
    requires ValidDoc(doc) && |lines| == |doc|
    requires forall i | 0 <= i < |doc| :: SettingOf(lines[i]) == SettingOf(TextOf(doc[i]))
    ensures Knows(SettingsOf(lines), RoutesIn(doc))
  {
    hide SettingOf, Printable, KeyOf, Knows, SettingsOf, RoutesIn, AddSetting;
    if doc == [] {
      NothingKnown(lines);
      assert doc == [];
    } else {
      var n := |doc| - 1;
      assert ValidLine(doc[n]);
      SettingsKnow(doc[..n], lines[..n]);
      if doc[n].Routed? {
        NewPrefix(doc);
        assert SettingOf(lines[n]) == SettingOf(TextOf(doc[n]));
        RoutedKnown(SettingsOf(lines[..n]), RoutesIn(doc[..n]), doc[n].route, lines[n]);
      } else {
        NoiseKeeps(SettingsOf(lines[..n]), RoutesIn(doc[..n]), lines[n], doc[n].text);
      }
      SettingsLast(lines);
      RoutesLast(doc);
    }
  }

  lemma NothingKnown(lines: seq<string>)
    requires lines == []
    ensures Knows(SettingsOf(lines), RoutesIn([]))
  {
  }

  lemma SettingsLast(lines: seq<string>)
    requires lines != []
    ensures SettingsOf(lines) == AddSetting(SettingsOf(lines[..|lines| - 1]), lines[|lines| - 1])
  {
  }

  lemma RoutesLast(doc: seq<DocLine>)
    requires doc != []
    ensures var init, last := RoutesIn(doc[..|doc| - 1]), doc[|doc| - 1];
            RoutesIn(doc) == if last.Routed? then init + [last.route] else init
  {
    var init, last := RoutesIn(doc[..|doc| - 1]), doc[|doc| - 1];
    assert init + [] == init;
  }

  /** The last line's prefix is new. */
  lemma NewPrefix(doc: seq<DocLine>)
    requires ValidDoc(doc) && doc != [] && doc[|doc| - 1].Routed?
    ensures forall r | r in RoutesIn(doc[..|doc| - 1]) :: r.prefix != doc[|doc| - 1].route.prefix
  {
    hide RoutesIn, ValidLine;
    forall r | r in RoutesIn(doc[..|doc| - 1]) ensures r.prefix != doc[|doc| - 1].route.prefix {
      var i := RouteFrom(doc[..|doc| - 1], r);
      assert doc[i].Routed?;
    }
  }

  lemma RoutedKnown(m: Settings, routes: seq<ProxyRoute>, r: ProxyRoute, line: string)
    requires Knows(m, routes) && Printable(r) && SettingOf(line) == SettingOf(RouteLine(r))
    requires forall q | q in routes :: q.prefix != r.prefix
    ensures Knows(AddSetting(m, line), routes + [r])
  {
    assert r.target != [];
    hide SettingOf, Join, Printable, KeyOf, Knows, RouteLine;
    ReadRouteLine(r);
    forall q | q in routes ensures KeyOf(q) != KeyOf(r) { KeyInjective(q, r); }
    KnowsMore(m, routes, r);
  }

  lemma KeyInjective(a: ProxyRoute, b: ProxyRoute)
    requires a.prefix != b.prefix
    ensures KeyOf(a) != KeyOf(b)
  {
    assert KeyOf(a)[|ProxyKey()|..] == a.prefix;
    assert KeyOf(b)[|ProxyKey()|..] == b.prefix;
  }

  lemma {:induction false} RouteFrom(doc: seq<DocLine>, r: ProxyRoute) returns (i: nat)
    requires r in RoutesIn(doc)
    ensures i < |doc| && doc[i] == Routed(r)
  {
    var n := |doc| - 1;
    if r in RoutesIn(doc[..n]) { i := RouteFrom(doc[..n], r); } else { i := n; }
  }

  lemma KnowsMore(m: Settings, routes: seq<ProxyRoute>, r: ProxyRoute)
    requires Knows(m, routes) && Printable(r) && forall q | q in routes :: KeyOf(q) != KeyOf(r)
    ensures Knows(m[KeyOf(r) := Join(r.target, ',')], routes + [r])
  {
    assert r.target != [];
    hide Join, Printable, KeyOf;
    var m' := m[KeyOf(r) := Join(r.target, ',')];
    forall k | k in m' && ProxyKey() <= k ensures exists q :: q in routes + [r] && k == KeyOf(q) {
      if k == KeyOf(r) {
        assert r in routes + [r];
      } else {
        var q :| q in routes && k == KeyOf(q);
        assert q in routes + [r];
      }
    }
  }

  lemma NoiseKeeps(m: Settings, routes: seq<ProxyRoute>, line: string, text: string)
    requires Knows(m, routes) && SettingOf(line) == SettingOf(text) && ValidLine(Noise(text))
    ensures Knows(AddSetting(m, line), routes)
  {
    hide SettingOf, Join, Printable, KeyOf;
    if SettingOf(line).Some? {
      var (k, v) := SettingOf(line).value;
      forall r | r in routes ensures KeyOf(r) != k {
        KeyStarts(r);
      }
    }
  }

  lemma KeyStarts(r: ProxyRoute)
    ensures ProxyKey() <= KeyOf(r)
  {
  }

  ghost predicate NoRepeats(routes: seq<ProxyRoute>) {
    forall i, j | 0 <= i < j < |routes| :: routes[i] != routes[j]
  }

  /** `out` holds exactly the known routes whose key is in `order`, each once. */
  ghost predicate Collected(out: seq<ProxyRoute>, routes: seq<ProxyRoute>, order: seq<string>) {
    && NoRepeats(out)
    && forall r :: r in out <==> r in routes && KeyOf(r) in order
  }

  lemma RoutesStep(m: Settings, order: seq<string>)
    requires order != [] && forall k | k in order :: k in m
    ensures var init, k := order[..|order| - 1], order[|order| - 1];
            RoutesFrom(m, order) ==
              RoutesFrom(m, init) + (if RouteOf(k, m[k]).Some? then [RouteOf(k, m[k]).value] else [])
  {
    hide RouteOf;
  }

  /** Routes come out of the settings once each, whatever the iteration order. */
  lemma {:induction false} RoutesOut(m: Settings, routes: seq<ProxyRoute>, order: seq<string>)
    requires Knows(m, routes) && forall k | k in order :: k in m
    requires forall i, j | 0 <= i < j < |order| :: order[i] != order[j]
    ensures Collected(RoutesFrom(m, order), routes, order)
  {
    hide RouteOf, Collected, Knows, RoutesFrom;
    if order == [] {
      NothingCollected(m, routes, order);
    } else {
      var init, last := order[..|order| - 1], order[|order| - 1];
      RoutesOut(m, routes, init);
      RoutesStep(m, order);
      assert order == init + [last] && last !in init;
      RouteAt(m, routes, last);
      CollectedMore(RoutesFrom(m, init), routes, init, last, RouteOf(last, m[last]));
      assert RoutesFrom(m, init) + [] == RoutesFrom(m, init);
    }
  }

  lemma NothingCollected(m: Settings, routes: seq<ProxyRoute>, order: seq<string>)
    requires order == []
    ensures Collected(RoutesFrom(m, order), routes, order)
  {
  }

  lemma CollectedMore(
      out: seq<ProxyRoute>, routes: seq<ProxyRoute>, init: seq<string>, k: string, r: Option<ProxyRoute>)
    requires Collected(out, routes, init) && k !in init
    requires match r
             case None => forall q | q in routes :: KeyOf(q) != k
             case Some(q) => q in routes && KeyOf(q) == k && forall p | p in routes && KeyOf(p) == k :: p == q
    ensures Collected(if r.Some? then out + [r.value] else out, routes, init + [k])
  {
    hide KeyOf;
    var order := init + [k];
    assert forall x :: x in order <==> x in init || x == k;
    if r.Some? {
      var out' := out + [r.value];
      assert forall q :: q in out' <==> q in out || q == r.value;
      assert r.value !in out;
    }
  }

  lemma RouteAt(m: Settings, routes: seq<ProxyRoute>, k: string)
    requires Knows(m, routes) && k in m
    ensures match RouteOf(k, m[k])
            case None => forall r | r in routes :: KeyOf(r) != k
            case Some(q) => q in routes && KeyOf(q) == k && forall r | r in routes && KeyOf(r) == k :: r == q
  {
    hide Join, KeyOf, Split, NonEmptyTrimmed, Trim;
    forall r | r in routes && KeyOf(r) == k ensures RouteOf(k, m[k]) == Some(r) {
      ReadRoute(r);
    }
    if !(ProxyKey() <= k) {
      forall r | r in routes ensures KeyOf(r) != k { KeyStarts(r); }
    }
  }

  lemma {:induction false} DocNoRepeats(doc: seq<DocLine>)
    requires ValidDoc(doc)
    ensures NoRepeats(RoutesIn(doc))
  {
    if doc != [] {
      hide RoutesIn, ValidLine;
      DocNoRepeats(doc[..|doc| - 1]);
      RoutesLast(doc);
      if doc[|doc| - 1].Routed? {
        NewPrefix(doc);
      }
    } else {
      assert RoutesIn(doc) == [];
    }
  }

  lemma {:induction false} SameBag(a: seq<ProxyRoute>, b: seq<ProxyRoute>)
    requires NoRepeats(a) && NoRepeats(b) && forall r :: r in a <==> r in b
    ensures multiset(a) == multiset(b)
  {
    forall r ensures multiset(a)[r] == multiset(b)[r] {
      AtMostOnce(a, r);
      AtMostOnce(b, r);
    }
  }

  lemma {:induction false} AtMostOnce(a: seq<ProxyRoute>, r: ProxyRoute)
    requires NoRepeats(a)
    ensures multiset(a)[r] == if r in a then 1 else 0
  {
    if a == [] {
    } else {
      var n := |a| - 1;
      AtMostOnce(a[..n], r);
      assert a == a[..n] + [a[n]];
    }
  }

  /**
   Printing routes with distinct prefixes and reading the text back gives the
   same routes up to order, in every iteration order, with comments, blank lines
   and other settings between the routes.
   */
  lemma ConfigRoundTrip(doc: seq<DocLine>, order: seq<string>)
    requires ValidDoc(doc) && Enumerates(order, SettingsOf(Lines(Print(doc))))
    ensures multiset(RoutesFrom(SettingsOf(Lines(Print(doc))), order)) == multiset(RoutesIn(doc))
  {
    forall i | 0 <= i < |doc| ensures '\n' !in Texts(doc)[i] {
      TextClean(doc[i]);
    }
    hide SettingOf, SettingsOf, Lines, Unlines, TextOf, ValidLine, Knows, RoutesFrom, RoutesIn;
    SettingsOfText(Texts(doc));
    SettingsKnow(doc, Texts(doc));
    SameRoutes(SettingsOf(Texts(doc)), doc, order);
  }

  lemma SameRoutes(m: Settings, doc: seq<DocLine>, order: seq<string>)
    requires ValidDoc(doc) && Knows(m, RoutesIn(doc)) && Enumerates(order, m)
    ensures multiset(RoutesFrom(m, order)) == multiset(RoutesIn(doc))
  {
    hide RoutesFrom, RoutesIn, KeyOf, Join, Printable, ValidDoc, NoRepeats;
    RoutesOut(m, RoutesIn(doc), order);
    DocNoRepeats(doc);
    SameBag(RoutesFrom(m, order), RoutesIn(doc));
  }

  lemma PrintedPrefixes(doc: seq<DocLine>)
    requires ValidDoc(doc)
    ensures PrefixDetermines(RoutesIn(doc))
  {
    hide RoutesIn, ValidLine;
    var routes := RoutesIn(doc);
    forall i, j | 0 <= i < |routes| && 0 <= j < |routes| && routes[i].prefix == routes[j].prefix
      ensures routes[i] == routes[j]
    {
      var x := RouteFrom(doc, routes[i]);
      var y := RouteFrom(doc, routes[j]);
    }
  }

  /** Hence every request is routed as the printed routes say, in whatever order they are loaded. */
  lemma ConfigRouting(doc: seq<DocLine>, order: seq<string>, path: string)
    requires ValidDoc(doc) && Enumerates(order, SettingsOf(Lines(Print(doc))))
    ensures MatchRoute(RoutesFrom(SettingsOf(Lines(Print(doc))), order), path) == MatchRoute(RoutesIn(doc), path)
  {
    hide SettingsOf, Lines, Print, RoutesFrom, RoutesIn, MatchRoute, ValidLine, PrefixDetermines;
    ConfigRoundTrip(doc, order);
    PrintedPrefixes(doc);
    SameTableSameMatch(RoutesIn(doc), RoutesFrom(SettingsOf(Lines(Print(doc))), order), path);
  }
}
