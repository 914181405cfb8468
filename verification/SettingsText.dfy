/**
 Settings other than routes (`src/config/mod.rs`): what one key changes, and reading a
 printed configuration back.
 */
module SettingsText {
  import opened Results
  import opened Text
  import opened Maps
  import opened Routing
  import opened Configs

  // ---------------------------------------------------------------------
  // One key, one field
  // ---------------------------------------------------------------------

  lemma OtherKey(m: Settings, k: string, v: string, key: string, max: nat, text: string, number: nat, flag: bool)
    requires k != key
    ensures TextSetting(m[k := v], key, text) == TextSetting(m, key, text)
    ensures NumberSetting(m[k := v], key, max, number) == NumberSetting(m, key, max, number)
    ensures FlagSetting(m[k := v], key, flag) == FlagSetting(m, key, flag)
  {
    hide ParseUnsigned, Lower;
  }

  lemma FirstFields(m: Settings, k: string, v: string)
    ensures var a, b := Scalars(m), Scalars(m[k := v]);
            && (k != "host" ==> b.host == a.host)
            && (k != "port" ==> b.port == a.port)
            && (k != "document_root" ==> b.documentRoot == a.documentRoot)
            && (k != "server_name" ==> b.serverName == a.serverName)
            && (k != "index" ==> b.indexFile == a.indexFile)
            && (k != "worker_threads" ==> b.workerThreads == a.workerThreads)
            && (k != "access_log" ==> b.accessLog == a.accessLog)
  {
    hide TextSetting, NumberSetting, FlagSetting;
    if k != "host" { OtherKey(m, k, v, "host", 0, "0.0.0.0", 0, false); }
    if k != "port" { OtherKey(m, k, v, "port", U16_MAX, "", 9090, false); }
    if k != "document_root" { OtherKey(m, k, v, "document_root", 0, "./www", 0, false); }
    if k != "server_name" { OtherKey(m, k, v, "server_name", 0, "NWarp", 0, false); }
    if k != "index" { OtherKey(m, k, v, "index", 0, "index.html", 0, false); }
    if k != "worker_threads" { OtherKey(m, k, v, "worker_threads", USIZE_MAX, "", 4, false); }
    if k != "access_log" { OtherKey(m, k, v, "access_log", 0, "./logs/access.log", 0, false); }
  }

  lemma LastFields(m: Settings, k: string, v: string)
    ensures var a, b := Scalars(m), Scalars(m[k := v]);
            && (k != "error_log" ==> b.errorLog == a.errorLog)
            && (k != "tls_enabled" ==> b.tlsEnabled == a.tlsEnabled)
            && (k != "tls_port" ==> b.tlsPort == a.tlsPort)
            && (k != "tls_cert" ==> b.tlsCert == a.tlsCert)
            && (k != "tls_key" ==> b.tlsKey == a.tlsKey)
            && (k != "health_check_interval" ==> b.checkInterval == a.checkInterval)
            && (k != "health_check_timeout" ==> b.checkTimeout == a.checkTimeout)
  {
    hide TextSetting, NumberSetting, FlagSetting;
    if k != "error_log" { OtherKey(m, k, v, "error_log", 0, "./logs/error.log", 0, false); }
    if k != "tls_enabled" { OtherKey(m, k, v, "tls_enabled", 0, "", 0, false); }
    if k != "tls_port" { OtherKey(m, k, v, "tls_port", U16_MAX, "", 9443, false); }
    if k != "tls_cert" { OtherKey(m, k, v, "tls_cert", 0, "./certs/dev-cert.pem", 0, false); }
    if k != "tls_key" { OtherKey(m, k, v, "tls_key", 0, "./certs/dev-key.pem", 0, false); }
    if k != "health_check_interval" { OtherKey(m, k, v, "health_check_interval", USIZE_MAX, "", 5, false); }
    if k != "health_check_timeout" { OtherKey(m, k, v, "health_check_timeout", USIZE_MAX, "", 2, false); }
  }

  /** A key changes no field but its own; a key that is none of these changes nothing. */
  lemma OneKeyOneField(m: Settings, k: string, v: string)
    ensures var a, b := Scalars(m), Scalars(m[k := v]);
            && (k != "host" ==> b.host == a.host)
            && (k != "port" ==> b.port == a.port)
            && (k != "document_root" ==> b.documentRoot == a.documentRoot)
            && (k != "server_name" ==> b.serverName == a.serverName)
            && (k != "index" ==> b.indexFile == a.indexFile)
            && (k != "worker_threads" ==> b.workerThreads == a.workerThreads)
            && (k != "access_log" ==> b.accessLog == a.accessLog)
            && (k != "error_log" ==> b.errorLog == a.errorLog)
            && (k != "tls_enabled" ==> b.tlsEnabled == a.tlsEnabled)
            && (k != "tls_port" ==> b.tlsPort == a.tlsPort)
            && (k != "tls_cert" ==> b.tlsCert == a.tlsCert)
            && (k != "tls_key" ==> b.tlsKey == a.tlsKey)
            && (k != "health_check_interval" ==> b.checkInterval == a.checkInterval)
            && (k != "health_check_timeout" ==> b.checkTimeout == a.checkTimeout)
            && b.proxyRoutes == a.proxyRoutes && b.wasmRoutes == a.wasmRoutes
  {
    FirstFields(m, k, v);
    LastFields(m, k, v);
    assert Scalars(m).proxyRoutes == [] && Scalars(m).wasmRoutes == [];
    assert Scalars(m[k := v]).proxyRoutes == [] && Scalars(m[k := v]).wasmRoutes == [];
    hide Scalars;
  }

  // ---------------------------------------------------------------------
  // What a line defines
  // ---------------------------------------------------------------------

  /** A comment defines nothing, indented or not. */
  lemma CommentIgnored(pad: string, text: string)
    requires AllSpace(pad)
    ensures SettingOf(pad + "#" + text) == None
  {
    var line := pad + "#" + text;
    assert line == pad + ("#" + text);
    TrimStartPad(pad, "#" + text);
    TrimStartStays("#" + text);
    TrimEndHash(text);
    hide TrimStart, TrimEnd, SplitOnce, TrimQuotes;
    assert Trim(line)[0] == '#';
  }

  lemma TrimStartStays(s: string)
    requires s != "" && !IsSpace(s[0])
    ensures TrimStart(s) == s
  {
  }

  lemma TrimEndHash(text: string)
    ensures var t := TrimEnd("#" + text); t != "" && t[0] == '#'
  {
    hide TrimEnd;
    assert "" + ['#'] + text == "#" + text;
    TrimEndAfter("", '#', text);
  }

  /** Neither does a line without `=`. */
  lemma NoEqualsIgnored(line: string)
    requires '=' !in line
    ensures SettingOf(line) == None
  {
    TrimIsTrimmed(line);
    hide Trim, TrimQuotes;
    IndexAbsent(Trim(line), '=');
  }

  /** Quotes around a value are removed, and protect the space inside them. */
  lemma QuotesRemoved(k: string, v: string)
    requires k != "" && k[0] != '#' && Trimmed(k) && '=' !in k
    requires v != "" && v[0] != '"' && v[|v| - 1] != '"'
    ensures SettingOf(k + " = " + ("\"" + v + "\"")) == Some((k, v))
  {
    var q := "\"" + v + "\"";
    hide SettingOf, TrimQuotes;
    ReadFullSetting(k, q);
    QuotesOff(v);
  }

  lemma QuotesOff(v: string)
    requires v != "" && v[0] != '"' && v[|v| - 1] != '"'
    ensures TrimQuotes("\"" + v + "\"") == v
  {
    var q := "\"" + v + "\"";
    assert q[1..] == v + "\"";
    assert TrimQuotesStart(v + "\"") == v + "\"";
    assert (v + "\"")[..|v|] == v;
    assert TrimQuotesEnd(v) == v;
  }

  // ---------------------------------------------------------------------
  // Upstream lists
  // ---------------------------------------------------------------------

  /** `pieces` are the texts of `clean`, each with space around it, and blank texts in between. */
  ghost predicate Pads(pieces: seq<string>, clean: seq<string>) {
    if pieces == [] then clean == []
    else
      || (AllSpace(pieces[0]) && Pads(pieces[1..], clean))
      || (clean != [] && clean[0] != "" && Trimmed(clean[0]) && Around(pieces[0], clean[0])
          && Pads(pieces[1..], clean[1..]))
  }

  ghost predicate Around(piece: string, text: string) {
    exists a, b :: AllSpace(a) && AllSpace(b) && piece == a + text + b
  }

  lemma {:induction false} PadsRead(pieces: seq<string>, clean: seq<string>)
    requires Pads(pieces, clean)
    ensures NonEmptyTrimmed(pieces) == clean
  {
    hide Trim, AllSpace;
    if pieces == [] {
    } else if AllSpace(pieces[0]) && Pads(pieces[1..], clean) {
      TrimOfSpace(pieces[0]);
      PadsRead(pieces[1..], clean);
    } else {
      var a, b :| AllSpace(a) && AllSpace(b) && pieces[0] == a + clean[0] + b;
      TrimPad(a, clean[0], b);
      TrimOfTrimmed(clean[0]);
      PadsRead(pieces[1..], clean[1..]);
      assert clean == [clean[0]] + clean[1..];
    }
  }

  /**
   The upstreams of a route are the comma-separated texts without the space around
   them; blank ones, as after a trailing comma, do not count, and a route without
   any is no route.
   */
  lemma UpstreamsRead(prefix: string, pieces: seq<string>, clean: seq<string>)
    requires pieces != [] && (forall i | 0 <= i < |pieces| :: ',' !in pieces[i]) && Pads(pieces, clean)
    ensures RouteOf("proxy_route " + prefix, Join(pieces, ','))
         == if clean == [] then None else Some(Route(Trim(prefix), clean))
  {
    hide Join, Split, Trim, NonEmptyTrimmed, Pads;
    SplitJoin(pieces, ',');
    PadsRead(pieces, clean);
    assert ("proxy_route " + prefix)[|ProxyKey()|..] == prefix;
  }

  lemma WasmKeyOf(prefix: string)
    requires prefix != "" && Trimmed(prefix) && '=' !in prefix
    ensures var k := "wasm_route " + prefix;
            && k[0] != '#' && Trimmed(k) && '=' !in k && StripPrefix(WasmKey(), k) == Some(prefix)
  {
    var k := "wasm_route " + prefix;
    assert k[|k| - 1] == prefix[|prefix| - 1] && k[0] == 'w';
    assert k[|WasmKey()|..] == prefix;
  }

  lemma OneWasmRoute(k: string, prefix: string, file: string)
    requires StripPrefix(WasmKey(), k) == Some(prefix) && Trimmed(prefix) && Trimmed(file)
    ensures WasmRoutesFrom(map[k := file], [k]) == [(prefix, file)]
  {
    hide StripPrefix, Trim;
    TrimOfTrimmed(prefix);
    TrimOfTrimmed(file);
    assert [k][..0] == [];
  }

  /** A wasm route line is read as its prefix and its module file. */
  lemma WasmRouteReads(prefix: string, file: string)
    requires prefix != "" && Trimmed(prefix) && '=' !in prefix
    requires Trimmed(file) && TrimQuotes(file) == file
    ensures SettingOf("wasm_route " + prefix + " = " + file) == Some(("wasm_route " + prefix, file))
    ensures WasmRoutesFrom(map["wasm_route " + prefix := file], ["wasm_route " + prefix]) == [(prefix, file)]
  {
    hide SettingOf, WasmRoutesFrom, StripPrefix, Trimmed, TrimQuotes;
    WasmKeyOf(prefix);
    ReadSettingLine("wasm_route " + prefix, file);
    OneWasmRoute("wasm_route " + prefix, prefix, file);
  }

  // ---------------------------------------------------------------------
  // Numbers and flags
  // ---------------------------------------------------------------------

  /** A number too large, or not a number, leaves the default; a leading `+` is accepted. */
  lemma NumberReads(m: Settings, k: string, n: nat, max: nat, default: nat)
    requires k in m
    ensures m[k] == ToDecimal(n) ==> NumberSetting(m, k, max, default) == if n <= max then n else default
    ensures m[k] == "+" + ToDecimal(n) && n <= max ==> NumberSetting(m, k, max, default) == n
    ensures (exists i :: 0 < i < |m[k]| && !IsDigit(m[k][i])) ==> NumberSetting(m, k, max, default) == default
  {
    hide ToDecimal, ParseUnsigned;
    if n <= max {
      ParseDecimal(n, max);
      ParsePlus(n, max);
    } else {
      ParseTooLarge(n, max);
    }
    if i: nat :| 0 < i < |m[k]| && !IsDigit(m[k][i]) {
      ParseNonDigit(m[k], i, max);
    }
  }

  /** The three numbers that must not be zero are 1 if they are set to zero. */
  lemma ZeroIsOne(m: Settings, n: nat)
    requires n <= USIZE_MAX
    ensures var clamped := if n == 0 then 1 else n;
            && ("worker_threads" in m && m["worker_threads"] == ToDecimal(n) ==> Scalars(m).workerThreads == clamped)
            && ("health_check_interval" in m && m["health_check_interval"] == ToDecimal(n) ==>
                  Scalars(m).checkInterval == clamped)
            && ("health_check_timeout" in m && m["health_check_timeout"] == ToDecimal(n) ==>
                  Scalars(m).checkTimeout == clamped)
  {
    hide ToDecimal, ParseUnsigned;
    ParseDecimal(n, USIZE_MAX);
  }

  /** A flag is set by `1` and by `true` in any case, and by nothing else. */
  lemma FlagReads(m: Settings, k: string, default: bool)
    requires k in m
    ensures FlagSetting(m, k, default) <==>
      var v := m[k];
      v == "1" || (|v| == 4 && v[0] in "tT" && v[1] in "rR" && v[2] in "uU" && v[3] in "eE")
  {
    var v := m[k];
    if |v| == 4 {
      assert Lower(v) == [LowerChar(v[0]), LowerChar(v[1]), LowerChar(v[2]), LowerChar(v[3])];
    }
  }

  // ---------------------------------------------------------------------
  // Printing a map of settings
  // ---------------------------------------------------------------------

  /** A key and a value that survive printing. */
  predicate Showable(k: string, v: string) {
    && k != "" && k[0] != '#' && Trimmed(k) && '=' !in k && '\n' !in k
    && Trimmed(v) && TrimQuotes(v) == v && '\n' !in v
  }

  predicate ShowableMap(m: Settings) {
    forall k | k in m :: Showable(k, m[k])
  }

  function LineOf(k: string, v: string): string {
    k + " = " + v
  }

  function LinesFor(m: Settings, order: seq<string>): (lines: seq<string>)
    requires forall k | k in order :: k in m
    ensures |lines| == |order|
  {
    seq(|order|, i requires 0 <= i < |order| => LineOf(order[i], m[order[i]]))
  }

  lemma LineClean(k: string, v: string)
    requires Showable(k, v)
    ensures '\n' !in LineOf(k, v) && SettingOf(LineOf(k, v)) == Some((k, v))
  {
    hide SettingOf, Trim, TrimQuotes, Trimmed;
    ReadSettingLine(k, v);
  }

  lemma {:induction false} LinesGive(m: Settings, order: seq<string>)
    requires ShowableMap(m) && (forall k | k in order :: k in m)
    ensures var s := SettingsOf(LinesFor(m, order));
            && (forall k | k in order :: k in s) && (forall k | k in s :: k in order && s[k] == m[k])
  {
    hide SettingOf, LineOf, Showable;
    if order == [] {
    } else {
      var init, last := order[..|order| - 1], order[|order| - 1];
      LinesGive(m, init);
      assert LinesFor(m, order)[..|order| - 1] == LinesFor(m, init);
      assert Showable(last, m[last]);
      LineClean(last, m[last]);
    }
  }

  lemma LinesClean(m: Settings, order: seq<string>)
    requires ShowableMap(m) && Enumerates(order, m)
    ensures forall i | 0 <= i < |order| :: '\n' !in LinesFor(m, order)[i]
  {
    hide Showable, LineOf;
    forall i | 0 <= i < |order| ensures '\n' !in LinesFor(m, order)[i] {
      assert Showable(order[i], m[order[i]]);
      LineClean(order[i], m[order[i]]);
    }
  }

  lemma SameMap(s: Settings, m: Settings, order: seq<string>)
    requires Enumerates(order, m)
    requires (forall k | k in order :: k in s) && (forall k | k in s :: k in order && s[k] == m[k])
    ensures s == m
  {
    assert s.Keys == m.Keys;
  }

  /** Any settings can be printed, in any order of their keys, and are read back as they were. */
  lemma SettingsRoundTrip(m: Settings, order: seq<string>)
    requires ShowableMap(m) && Enumerates(order, m)
    ensures SettingsOf(Lines(Unlines(LinesFor(m, order)))) == m
  {
    hide SettingsOf, Lines, Unlines, LinesFor, ShowableMap;
    LinesClean(m, order);
    SettingsOfText(LinesFor(m, order));
    LinesGive(m, order);
    SameMap(SettingsOf(LinesFor(m, order)), m, order);
  }

  // ---------------------------------------------------------------------
  // Printing a configuration
  // ---------------------------------------------------------------------

  /** The settings of a configuration, each field under its key. */
  function Shown(cfg: Config): Settings {
    map[
      "host" := cfg.host,
      "port" := ToDecimal(cfg.port),
      "document_root" := cfg.documentRoot,
      "server_name" := cfg.serverName,
      "index" := cfg.indexFile,
      "worker_threads" := ToDecimal(cfg.workerThreads),
      "access_log" := cfg.accessLog,
      "error_log" := cfg.errorLog,
      "tls_enabled" := if cfg.tlsEnabled then "true" else "false",
      "tls_port" := ToDecimal(cfg.tlsPort),
      "tls_cert" := cfg.tlsCert,
      "tls_key" := cfg.tlsKey,
      "health_check_interval" := ToDecimal(cfg.checkInterval),
      "health_check_timeout" := ToDecimal(cfg.checkTimeout)
    ]
  }

  lemma ShownNumber(m: Settings, k: string, n: nat, max: nat, default: nat)
    requires k in m && m[k] == ToDecimal(n) && n <= max
    ensures NumberSetting(m, k, max, default) == n
  {
    ParseDecimal(n, max);
  }

  lemma ShownFlag(m: Settings, k: string, b: bool, default: bool)
    requires k in m && m[k] == (if b then "true" else "false")
    ensures FlagSetting(m, k, default) == b
  {
    assert Lower("true") == "true";
    assert Lower("false")[0] == 'f';
  }

  /** Every field is read from the key under which it was shown. */
  lemma ShownIsRead(cfg: Config)
    requires Sane(cfg)
    ensures Scalars(Shown(cfg)) == cfg.(proxyRoutes := [], wasmRoutes := [])
  {
    var m := Shown(cfg);
    ShownKeys(cfg);
    ShownFirst(cfg);
    ShownLast(cfg);
    hide Shown, NumberSetting, FlagSetting, ToDecimal;
    ShownNumber(m, "port", cfg.port, U16_MAX, 9090);
    ShownNumber(m, "worker_threads", cfg.workerThreads, USIZE_MAX, 4);
    ShownNumber(m, "tls_port", cfg.tlsPort, U16_MAX, 9443);
    ShownNumber(m, "health_check_interval", cfg.checkInterval, USIZE_MAX, 5);
    ShownNumber(m, "health_check_timeout", cfg.checkTimeout, USIZE_MAX, 2);
    ShownFlag(m, "tls_enabled", cfg.tlsEnabled, false);
  }

  lemma ShownKeys(cfg: Config)
    ensures Shown(cfg).Keys == {"host", "port", "document_root", "server_name", "index", "worker_threads", "access_log",
                                "error_log", "tls_enabled", "tls_port", "tls_cert", "tls_key",
                                "health_check_interval", "health_check_timeout"}
  {
    hide ToDecimal;
  }

  lemma ShownFirst(cfg: Config)
    ensures var m := Shown(cfg);
            && m["host"] == cfg.host && m["port"] == ToDecimal(cfg.port) && m["document_root"] == cfg.documentRoot
            && m["server_name"] == cfg.serverName && m["index"] == cfg.indexFile
            && m["worker_threads"] == ToDecimal(cfg.workerThreads) && m["access_log"] == cfg.accessLog
  {
    hide ToDecimal;
  }

  lemma ShownLast(cfg: Config)
    ensures var m := Shown(cfg);
            && m["error_log"] == cfg.errorLog && m["tls_enabled"] == (if cfg.tlsEnabled then "true" else "false")
            && m["tls_port"] == ToDecimal(cfg.tlsPort) && m["tls_cert"] == cfg.tlsCert && m["tls_key"] == cfg.tlsKey
            && m["health_check_interval"] == ToDecimal(cfg.checkInterval)
            && m["health_check_timeout"] == ToDecimal(cfg.checkTimeout)
  {
    hide ToDecimal;
  }

  /** A text that survives printing. */
  predicate PlainText(v: string) {
    Trimmed(v) && TrimQuotes(v) == v && '\n' !in v
  }

  predicate PlainTexts(cfg: Config) {
    && PlainText(cfg.host) && PlainText(cfg.documentRoot) && PlainText(cfg.serverName) && PlainText(cfg.indexFile)
    && PlainText(cfg.accessLog) && PlainText(cfg.errorLog) && PlainText(cfg.tlsCert) && PlainText(cfg.tlsKey)
  }

  predicate PlainKey(k: string) {
    k != "" && forall i | 0 <= i < |k| :: 'a' <= k[i] <= 'z' || k[i] == '_'
  }

  lemma NumberPlain(n: nat)
    ensures PlainText(ToDecimal(n))
  {
    hide ToDecimal;
    ParseDecimal(n, n);
    var s := ToDecimal(n);
    assert IsDigit(s[0]) && IsDigit(s[|s| - 1]);
  }

  lemma WordPlain(s: string)
    requires s != "" && (forall i | 0 <= i < |s| :: 'a' <= s[i] <= 'z')
    ensures PlainText(s)
  {
    assert s[0] != '"' && s[|s| - 1] != '"';
  }

  lemma FlagPlain(b: bool)
    ensures PlainText(if b then "true" else "false")
  {
    hide PlainText;
    WordPlain("true");
    WordPlain("false");
  }

  lemma FirstKeysPlain(k: string)
    requires k in {"host", "port", "document_root", "server_name", "index", "worker_threads", "access_log"}
    ensures PlainKey(k)
  {
  }

  lemma LastKeysPlain(k: string)
    requires k in {"error_log", "tls_enabled", "tls_port", "tls_cert", "tls_key", "health_check_interval",
                   "health_check_timeout"}
    ensures PlainKey(k)
  {
  }

  lemma KeyPlain(k: string, cfg: Config)
    requires k in Shown(cfg)
    ensures PlainKey(k)
  {
    ShownKeys(cfg);
    hide Shown, PlainKey;
    if k in {"host", "port", "document_root", "server_name", "index", "worker_threads", "access_log"} {
      FirstKeysPlain(k);
    } else {
      LastKeysPlain(k);
    }
  }

  lemma ValuePlain(k: string, cfg: Config)
    requires k in Shown(cfg) && PlainTexts(cfg)
    ensures PlainText(Shown(cfg)[k])
  {
    ShownKeys(cfg);
    ShownFirst(cfg);
    ShownLast(cfg);
    hide Shown, PlainText, ToDecimal;
    NumberPlain(cfg.port);
    NumberPlain(cfg.workerThreads);
    NumberPlain(cfg.tlsPort);
    NumberPlain(cfg.checkInterval);
    NumberPlain(cfg.checkTimeout);
    FlagPlain(cfg.tlsEnabled);
  }

  lemma ShowableParts(k: string, v: string)
    requires PlainKey(k) && PlainText(v)
    ensures Showable(k, v)
  {
    hide TrimQuotes;
  }

  /**
   Printing a configuration, one line for each field in any order, and loading the
   text gives every field back.
   */
  lemma ConfigFieldsRoundTrip(cfg: Config, order: seq<string>)
    requires Sane(cfg) && PlainTexts(cfg) && Enumerates(order, Shown(cfg))
    ensures Scalars(SettingsOf(Lines(Unlines(LinesFor(Shown(cfg), order)))))
         == cfg.(proxyRoutes := [], wasmRoutes := [])
  {
    ShownIsRead(cfg);
    hide Shown, Scalars, PlainText, PlainTexts, PlainKey, Showable, SettingsOf, Lines, Unlines, LinesFor, Sane;
    forall k | k in Shown(cfg) ensures Showable(k, Shown(cfg)[k]) {
      KeyPlain(k, cfg);
      ValuePlain(k, cfg);
      ShowableParts(k, Shown(cfg)[k]);
    }
    SettingsRoundTrip(Shown(cfg), order);
  }
}
