/**
 Serving static files (`src/http/router.rs`) over a file system that does not
 change during the request. Reading a path means resolving it and reading the file
 at its canonical path, so a path that cannot be resolved cannot be read.
 */
module StaticFiles {
  import opened Results
  import opened Text
  import opened Requests
  import opened Configs
  import opened Responses

  // ---------------------------------------------------------------------
  // Paths
  // ---------------------------------------------------------------------

  /**
   A path as its components; `.` and empty components are dropped. A path that ends
   in a slash (or in `/.`) is a different path to the file system, though not to
   comparison by components.
   */
  datatype Path = Path(absolute: bool, parts: seq<string>, slash: bool)

  function Components(pieces: seq<string>): seq<string> {
    if pieces == [] then [] else Component(pieces[0]) + Components(pieces[1..])
  }

  function Component(piece: string): seq<string> {
    if piece == "" || piece == "." then [] else [piece]
  }

  function ParsePath(s: string): Path {
    var pieces := Split(s, '/');
    var last := pieces[|pieces| - 1];
    Path(s != "" && s[0] == '/', Components(pieces), last == "" || last == ".")
  }

  /** `Path::join`: an absolute second path replaces the first. */
  function JoinPath(base: Path, rel: Path): Path {
    if rel.absolute then rel else Path(base.absolute, base.parts + rel.parts, rel.slash)
  }

  /** `Path::starts_with`, component by component. */
  predicate StartsWith(p: Path, base: Path) {
    p.absolute == base.absolute && base.parts <= p.parts
  }

  function TrimSlashes(s: string): (r: string)
    ensures r != "" ==> r[0] != '/'
  {
    if s != "" && s[0] == '/' then TrimSlashes(s[1..]) else s
  }

  // ---------------------------------------------------------------------
  // The file system
  // ---------------------------------------------------------------------

  datatype Filesystem = Filesystem(canonical: map<Path, Path>, files: map<Path, string>, dirs: set<Path>)

  function Canonicalize(fs: Filesystem, p: Path): Option<Path> {
    if p in fs.canonical then Some(fs.canonical[p]) else None
  }

  function Read(fs: Filesystem, p: Path): Option<string> {
    var c := Canonicalize(fs, p);
    if c.Some? && c.value in fs.files then Some(fs.files[c.value]) else None
  }

  predicate IsDir(fs: Filesystem, p: Path) {
    var c := Canonicalize(fs, p);
    c.Some? && c.value in fs.dirs
  }

  /** The canonical root, or the root as configured if it cannot be resolved. */
  function RootOf(fs: Filesystem, root: Path): Path {
    if Canonicalize(fs, root).Some? then Canonicalize(fs, root).value else root
  }

  /** `path_is_within`: by canonical paths if the target exists, lexically otherwise. */
  predicate IsWithin(fs: Filesystem, target: Path, root: Path) {
    var c := Canonicalize(fs, target);
    if c.Some? then StartsWith(c.value, RootOf(fs, root)) else StartsWith(target, root)
  }

  // ---------------------------------------------------------------------
  // Media types
  // ---------------------------------------------------------------------

  /** The position after the last dot of a file name; 0 if there is no extension. */
  function ExtensionStart(name: string): (k: nat)
    ensures k <= |name|
  {
    if |name| <= 1 then 0
    else if name[|name| - 1] == '.' then |name|
    else ExtensionStart(name[..|name| - 1])
  }

  function Extension(p: Path): string {
    if p.parts == [] then ""
    else
      var name := p.parts[|p.parts| - 1];
      var k := ExtensionStart(name);
      if k == 0 then "" else name[k..]
  }

  function MimeFor(p: Path): string {
    match Extension(p)
    case "html" => "text/html; charset=utf-8"
    case "htm" => "text/html; charset=utf-8"
    case "css" => "text/css"
    case "js" => "application/javascript"
    case "json" => "application/json"
    case "png" => "image/png"
    case "jpg" => "image/jpeg"
    case "jpeg" => "image/jpeg"
    case "gif" => "image/gif"
    case "svg" => "image/svg+xml"
    case "ico" => "image/x-icon"
    case "txt" => "text/plain; charset=utf-8"
    case "xml" => "application/xml"
    case "pdf" => "application/pdf"
    case "woff" => "font/woff"
    case "woff2" => "font/woff2"
    case _ => "application/octet-stream"
  }

  // ---------------------------------------------------------------------
  // Resolution
  // ---------------------------------------------------------------------

  /** The path named by the request, before the directory check. */
  function Named(path: string, cfg: Config): Path {
    var rel := TrimSlashes(path);
    JoinPath(ParsePath(cfg.documentRoot), ParsePath(if rel == "" then cfg.indexFile else rel))
  }

  /** The file that is finally looked up: the index file if a directory was named. */
  function Target(path: string, cfg: Config, fs: Filesystem): Path {
    var named := Named(path, cfg);
    if IsDir(fs, named) then JoinPath(named, ParsePath(cfg.indexFile)) else named
  }

  /** The HTML of an error page, by status; its wording is not modelled. */
  type Pages = nat -> string

  predicate Readable(verb: string) {
    verb == "GET" || verb == "HEAD"
  }

  function FileMessage(server: string, p: Path, bytes: string): Message {
    Message(200, "OK", server, MimeFor(p), bytes)
  }

  function PageMessage(status: nat, text: string, server: string, pages: Pages): Message {
    Message(status, text, server, "text/html; charset=utf-8", pages(status))
  }

  /** `router::route`. */
  method Serve(verb: string, path: string, cfg: Config, fs: Filesystem, pages: Pages) returns (r: Response)
    ensures fresh(r)
    ensures r.Value() == StaticAnswer(verb, path, cfg, fs, pages)
  {
    if verb != "GET" && verb != "HEAD" {
      r := new Response(405, "Method Not Allowed", cfg.serverName);
      r.SetHtmlBody(pages(405));
      return;
    }
    var relPath := TrimSlashes(path);
    if relPath == "" {
      relPath := cfg.indexFile;
    }
    var root := ParsePath(cfg.documentRoot);
    var fullPath := JoinPath(root, ParsePath(relPath));
    if IsDir(fs, fullPath) {
      fullPath := JoinPath(fullPath, ParsePath(cfg.indexFile));
    }
    if !IsWithin(fs, fullPath, root) {
      r := new Response.Page(403, "Forbidden", cfg.serverName, pages(403));
      return;
    }
    var bytes := Read(fs, fullPath);
    if bytes.Some? {
      r := new Response(200, "OK", cfg.serverName);
      r.SetBody(bytes.value, MimeFor(fullPath));
    } else {
      r := new Response.Page(404, "Not Found", cfg.serverName, pages(404));
    }
  }

  function StaticAnswer(verb: string, path: string, cfg: Config, fs: Filesystem, pages: Pages): Message {
    var target := Target(path, cfg, fs);
    if !Readable(verb) then PageMessage(405, "Method Not Allowed", cfg.serverName, pages)
    else if !IsWithin(fs, target, ParsePath(cfg.documentRoot)) then PageMessage(403, "Forbidden", cfg.serverName, pages)
    else
      match Read(fs, target)
      case Some(bytes) => FileMessage(cfg.serverName, target, bytes)
      case None => PageMessage(404, "Not Found", cfg.serverName, pages)
  }

  // ---------------------------------------------------------------------
  // What is served
  // ---------------------------------------------------------------------

  /** A file at canonical path `at`, inside the document root. */
  ghost predicate InsideRoot(fs: Filesystem, cfg: Config, at: Path) {
    var root := ParsePath(cfg.documentRoot);
    at in fs.files && StartsWith(at, if root in fs.canonical then fs.canonical[root] else root)
  }

  /**
   A 200 answer carries the content of a file whose canonical path extends the
   canonical document root by whole components, for every path whatsoever; and a
   readable file inside the root that the request names is served.
   */
  lemma ServedFromInside(verb: string, path: string, cfg: Config, fs: Filesystem, pages: Pages)
    ensures var r, c := StaticAnswer(verb, path, cfg, fs, pages), Canonicalize(fs, Target(path, cfg, fs));
            && (r.status == 200 <==> Readable(verb) && c.Some? && InsideRoot(fs, cfg, c.value))
            && (r.status == 200 ==> r.body == fs.files[c.value])
  {
  }

  lemma {:induction false} SplitConcat(a: string, b: string)
    ensures Split(a + "/" + b, '/') == Split(a, '/') + Split(b, '/')
    decreases |a|
  {
    hide Split;
    var i := IndexOf(a, '/');
    assert a + "/" + b == a + ['/'] + b;
    if i == |a| {
      SplitFirst(a, '/', b);
      WholePiece(a);
    } else {
      var first, rest := a[..i], a[i + 1..];
      assert a == first + ['/'] + rest;
      SplitConcat(rest, b);
      assert '/' !in first;
      SplitFirst(first, '/', rest);
      assert a + "/" + b == first + ['/'] + (rest + "/" + b);
      SplitFirst(first, '/', rest + "/" + b);
    }
  }

  lemma WholePiece(s: string)
    requires '/' !in s
    ensures Split(s, '/') == [s]
  {
    IndexAbsent(s, '/');
  }

  lemma ComponentsStep(pieces: seq<string>)
    requires pieces != []
    ensures Components(pieces) == Component(pieces[0]) + Components(pieces[1..])
  {
    hide Component;
  }

  lemma ComponentsEmpty()
    ensures Components([]) == []
  {
  }

  lemma Regroup(x: seq<string>, y: seq<string>, z: seq<string>)
    ensures x + (y + z) == (x + y) + z
  {
  }

  lemma HeadOfConcat(a: seq<string>, b: seq<string>)
    requires a != []
    ensures a + b != [] && (a + b)[0] == a[0] && (a + b)[1..] == a[1..] + b
  {
  }

  lemma {:induction false} ComponentsConcat(a: seq<string>, b: seq<string>)
    ensures Components(a + b) == Components(a) + Components(b)
  {
    hide Components, Component;
    if a == [] {
      ComponentsEmpty();
      assert a + b == b && [] + Components(b) == Components(b);
    } else {
      ComponentsConcat(a[1..], b);
      ComponentsStep(a);
      HeadOfConcat(a, b);
      ComponentsStep(a + b);
      Regroup(Component(a[0]), Components(a[1..]), Components(b));
    }
  }

  /** A path below another one, in text and in components. */
  lemma ParseJoin(a: string, b: string)
    requires a != "" && (b == "" || b[0] != '/')
    ensures ParsePath(a + "/" + b) == JoinPath(ParsePath(a), ParsePath(b))
  {
    SplitConcat(a, b);
    hide Split;
    ComponentsConcat(Split(a, '/'), Split(b, '/'));
  }

  lemma TrimSlashesJoin(rel: string, name: string)
    requires rel != "" && rel[0] != '/'
    ensures TrimSlashes(rel + "/" + name) == rel + "/" + name && TrimSlashes(rel) == rel
  {
    assert (rel + "/" + name)[0] == rel[0];
  }

  /** The path that a request names below the document root. */
  function PathOf(rel: string, cfg: Config): Path {
    JoinPath(ParsePath(cfg.documentRoot), ParsePath(rel))
  }

  /** A request for a directory is answered as a request for the index file in it. */
  lemma DirectoryServesIndex(verb: string, rel: string, cfg: Config, fs: Filesystem, pages: Pages)
    requires cfg.indexFile != "" && cfg.indexFile[0] != '/' && rel != "" && rel[0] != '/'
    requires PathOf(rel, cfg) in fs.canonical && fs.canonical[PathOf(rel, cfg)] in fs.dirs
    requires var p := PathOf(rel + "/" + cfg.indexFile, cfg); p in fs.canonical ==> fs.canonical[p] !in fs.dirs
    ensures StaticAnswer(verb, rel, cfg, fs, pages) == StaticAnswer(verb, rel + "/" + cfg.indexFile, cfg, fs, pages)
  {
    ParseJoin(rel, cfg.indexFile);
    TrimSlashesJoin(rel, cfg.indexFile);
    NotAbsolute(rel);
    NotAbsolute(cfg.indexFile);
    hide ParsePath, TrimSlashes, IsWithin, Read, FileMessage, PageMessage, Readable;
    var root, sub, index := ParsePath(cfg.documentRoot), ParsePath(rel), ParsePath(cfg.indexFile);
    assert JoinPath(JoinPath(root, sub), index) == JoinPath(root, JoinPath(sub, index));
  }

  /** A file below the root is served with its content and the type of its name. */
  lemma FileIsServed(rel: string, cfg: Config, fs: Filesystem, pages: Pages)
    requires rel != "" && rel[0] != '/' && PathOf(rel, cfg) in fs.canonical
    requires var c := fs.canonical[PathOf(rel, cfg)];
             c in fs.files && c !in fs.dirs && InsideRoot(fs, cfg, c)
    ensures StaticAnswer("GET", rel, cfg, fs, pages)
         == Message(200, "OK", cfg.serverName, MimeFor(PathOf(rel, cfg)), fs.files[fs.canonical[PathOf(rel, cfg)]])
  {
    TrimSlashesJoin(rel, "");
    hide ParsePath, TrimSlashes, MimeFor, PageMessage;
  }

  lemma NotAbsolute(s: string)
    requires s != "" && s[0] != '/'
    ensures !ParsePath(s).absolute
  {
  }

  lemma RootServesIndex(verb: string, slashes: string, cfg: Config, fs: Filesystem, pages: Pages)
    requires forall i | 0 <= i < |slashes| :: slashes[i] == '/'
    requires cfg.indexFile != "" && cfg.indexFile[0] != '/'
    ensures StaticAnswer(verb, slashes, cfg, fs, pages) == StaticAnswer(verb, cfg.indexFile, cfg, fs, pages)
  {
    OnlySlashes(slashes);
    hide ParsePath, IsDir, IsWithin, Read, FileMessage, PageMessage, Readable;
  }

  lemma {:induction false} OnlySlashes(s: string)
    requires forall i | 0 <= i < |s| :: s[i] == '/'
    ensures TrimSlashes(s) == ""
  {
    if s == "" {
    } else {
      OnlySlashes(s[1..]);
    }
  }

  /** A path and the same path with more slashes in front are answered alike. */
  lemma LeadingSlashes(verb: string, slashes: string, rel: string, cfg: Config, fs: Filesystem, pages: Pages)
    requires forall i | 0 <= i < |slashes| :: slashes[i] == '/'
    ensures StaticAnswer(verb, slashes + rel, cfg, fs, pages) == StaticAnswer(verb, rel, cfg, fs, pages)
  {
    SlashesTrimmed(slashes, rel);
    hide TrimSlashes, ParsePath, IsDir, IsWithin, Read, FileMessage, PageMessage, Readable;
  }

  lemma {:induction false} SlashesTrimmed(slashes: string, rel: string)
    requires forall i | 0 <= i < |slashes| :: slashes[i] == '/'
    ensures TrimSlashes(slashes + rel) == TrimSlashes(rel)
  {
    if slashes == "" {
      assert slashes + rel == rel;
    } else {
      SlashesTrimmed(slashes[1..], rel);
      assert (slashes + rel)[1..] == slashes[1..] + rel;
    }
  }

  /** Any other method is refused with 405, whatever the path; GET and HEAD never are. */
  lemma OtherMethodIs405(verb: string, path: string, cfg: Config, fs: Filesystem, pages: Pages)
    ensures StaticAnswer(verb, path, cfg, fs, pages).status == 405 <==> verb != "GET" && verb != "HEAD"
  {
    hide Target, ParsePath, IsWithin, Read, MimeFor;
  }

  /** The extension of a file is what follows its last dot, unless that dot starts the name. */
  lemma {:induction false} ExtensionIs(stem: string, ext: string)
    requires stem != "" && '.' !in ext
    ensures ExtensionStart(stem + "." + ext) == |stem| + 1
  {
    var name := stem + "." + ext;
    if ext == "" {
      assert name == stem + ".";
    } else {
      var init := ext[..|ext| - 1];
      assert name[..|name| - 1] == stem + "." + init;
      assert name[|name| - 1] == ext[|ext| - 1];
      ExtensionIs(stem, init);
    }
  }

  lemma JoinStays(base: Path, rel: Path)
    requires !rel.absolute
    ensures StartsWith(JoinPath(base, rel), base)
  {
  }

  lemma StartsTrans(p: Path, q: Path, r: Path)
    requires StartsWith(p, q) && StartsWith(q, r)
    ensures StartsWith(p, r)
  {
  }

  lemma RelativeAfterTrim(s: string)
    ensures TrimSlashes(s) != "" ==> !ParsePath(TrimSlashes(s)).absolute
  {
  }

  /** Whether the configured index file, taken as absolute, decides the target. */
  predicate IndexDecides(path: string, cfg: Config, fs: Filesystem) {
    ParsePath(cfg.indexFile).absolute && (TrimSlashes(path) == "" || IsDir(fs, Named(path, cfg)))
  }

  /**
   A target that does not exist is answered 404, never 403, except exactly when
   the index file is configured as an absolute path outside the document root and
   the request asks for the index.
   */
  lemma MissingTarget(verb: string, path: string, cfg: Config, fs: Filesystem, pages: Pages)
    requires Readable(verb) && Canonicalize(fs, Target(path, cfg, fs)).None?
    ensures var r := StaticAnswer(verb, path, cfg, fs, pages);
            && (r.status == 404 || r.status == 403)
            && (r.status == 403 <==>
                  IndexDecides(path, cfg, fs) && !StartsWith(ParsePath(cfg.indexFile), ParsePath(cfg.documentRoot)))
  {
    hide ParsePath, TrimSlashes;
    var root, index := ParsePath(cfg.documentRoot), ParsePath(cfg.indexFile);
    var rel := TrimSlashes(path);
    RelativeAfterTrim(path);
    var named, target := Named(path, cfg), Target(path, cfg, fs);
    if !IndexDecides(path, cfg, fs) {
      JoinStays(root, ParsePath(if rel == "" then cfg.indexFile else rel));
      if IsDir(fs, named) {
        JoinStays(named, index);
        StartsTrans(target, named, root);
      }
    } else {
      assert target == index;
    }
  }

  /** In particular with a relative index file. */
  lemma MissingIs404(verb: string, path: string, cfg: Config, fs: Filesystem, pages: Pages)
    requires Readable(verb) && Canonicalize(fs, Target(path, cfg, fs)).None?
    requires !ParsePath(cfg.indexFile).absolute
    ensures StaticAnswer(verb, path, cfg, fs, pages).status == 404
  {
    MissingTarget(verb, path, cfg, fs, pages);
  }

  lemma IndexConfigured()
    ensures Scalars(SettingsOf(Lines("index = /index.html\n"))).indexFile == "/index.html"
    ensures Scalars(SettingsOf(Lines("index = /index.html\n"))).documentRoot == "./www"
  {
    hide SettingsOf, Lines, Scalars;
    IndexSetting();
    IndexScalars();
  }

  lemma IndexKey(k: string)
    requires k == "index"
    ensures k != "" && k[0] != '#' && Trimmed(k) && '=' !in k && '\n' !in k
  {
  }

  lemma IndexValue(v: string)
    requires v == "/index.html"
    ensures Trimmed(v) && TrimQuotes(v) == v && '\n' !in v
  {
    hide TrimQuotes;
    QuotesAbsent(v);
  }

  lemma IndexText(k: string, v: string)
    requires k == "index" && v == "/index.html"
    ensures k + " = " + v + "\n" == "index = /index.html\n"
  {
  }

  lemma IndexSetting()
    ensures SettingsOf(Lines("index = /index.html\n")) == map["index" := "/index.html"]
  {
    hide SettingsOf, Lines, TrimQuotes, Trimmed;
    var k, v := "index", "/index.html";
    IndexKey(k);
    IndexValue(v);
    IndexText(k, v);
    OneSetting(k, v);
  }

  lemma QuotesAbsent(s: string)
    requires s != "" && s[0] != '"' && s[|s| - 1] != '"'
    ensures TrimQuotes(s) == s
  {
  }

  lemma IndexScalars()
    ensures var cfg := Scalars(map["index" := "/index.html"]);
            cfg.indexFile == "/index.html" && cfg.documentRoot == "./www"
  {
  }

  lemma IndexPaths()
    ensures ParsePath("/index.html").absolute && !ParsePath("./www").absolute && TrimSlashes("/") == ""
  {
    assert "/"[1..] == "";
    assert TrimSlashes("") == "";
  }

  /** With this configuration file, a missing index is answered 403. */
  lemma MissingIndexIs403(fs: Filesystem, pages: Pages)
    requires ParsePath("/index.html") !in fs.canonical
    ensures var cfg := Scalars(SettingsOf(Lines("index = /index.html\n")));
            StaticAnswer("GET", "/", cfg, fs, pages).status == 403
  {
    IndexConfigured();
    IndexPaths();
    var cfg := Scalars(SettingsOf(Lines("index = /index.html\n")));
    hide SettingsOf, Lines, Scalars, ParsePath, TrimSlashes, StaticAnswer;
    MissingTarget("GET", "/", cfg, fs, pages);
  }

  // ---------------------------------------------------------------------
  // Without symbolic links
  // ---------------------------------------------------------------------

  /** `p` is `q`, or lies below it without going up. */
  ghost predicate Below(p: Path, q: Path) {
    && p.absolute == q.absolute && q.parts <= p.parts && ".." !in p.parts[|q.parts|..]
    && (p.parts == q.parts ==> p.slash || !q.slash)
  }

  /** What lies below a directory resolves to something below what the directory resolves to. */
  ghost predicate NoLinks(fs: Filesystem) {
    forall p, q | p in fs.canonical && Below(p, q) :: q in fs.canonical && StartsWith(fs.canonical[p], fs.canonical[q])
  }

  lemma {:induction false} ComponentsAre(pieces: seq<string>)
    ensures forall x | x in Components(pieces) :: x in pieces
    ensures Components(pieces) == [] ==> forall x | x in pieces :: x == "" || x == "."
  {
    if pieces == [] {
    } else {
      ComponentsAre(pieces[1..]);
      assert pieces == [pieces[0]] + pieces[1..];
    }
  }

  lemma {:induction false} DotsInPiece(s: string)
    requires ".." in Split(s, '/')
    ensures HasDotDot(s)
    decreases |s|
  {
    var i := IndexOf(s, '/');
    if i == |s| {
      assert s == "..";
      assert s[0] == '.' && s[0 + 1] == '.';
    } else if s[..i] == ".." {
      assert s[..i][0] == s[0] && s[..i][1] == s[1];
      assert s[0] == '.' && s[0 + 1] == '.';
    } else {
      var rest := s[i + 1..];
      DotsInPiece(rest);
      var k :| 0 <= k < |rest| - 1 && rest[k] == '.' && rest[k + 1] == '.';
      assert s[i + 1 + k] == '.' && s[i + 1 + k + 1] == '.';
    }
  }

  lemma {:induction false} TrimSlashesDots(s: string)
    requires HasDotDot(TrimSlashes(s))
    ensures HasDotDot(s)
  {
    if s == "" || s[0] != '/' {
    } else {
      TrimSlashesDots(s[1..]);
      var k :| 0 <= k < |s[1..]| - 1 && s[1..][k] == '.' && s[1..][k + 1] == '.';
      assert s[k + 1] == '.' && s[k + 1 + 1] == '.';
    }
  }

  /** A text without `..` is a path that does not go up; and without components it ends in a slash. */
  lemma DotFreePath(s: string)
    ensures !HasDotDot(s) ==> ".." !in ParsePath(s).parts
    ensures ParsePath(s).parts == [] ==> ParsePath(s).slash
  {
    var pieces := Split(s, '/');
    ComponentsAre(pieces);
    if ".." in pieces { DotsInPiece(s); }
    assert pieces[|pieces| - 1] in pieces;
  }

  lemma JoinBelow(base: Path, rel: Path)
    requires !rel.absolute && ".." !in rel.parts && (rel.parts == [] ==> rel.slash)
    ensures Below(JoinPath(base, rel), base)
  {
    assert (base.parts + rel.parts)[|base.parts|..] == rel.parts;
  }

  lemma BelowTrans(p: Path, q: Path, r: Path)
    requires Below(p, q) && Below(q, r)
    ensures Below(p, r)
  {
    assert p.parts[|r.parts|..] == q.parts[|r.parts|..] + p.parts[|q.parts|..];
  }

  lemma TargetBelow(path: string, cfg: Config, fs: Filesystem)
    requires !HasDotDot(path) && !ParsePath(cfg.indexFile).absolute && !HasDotDot(cfg.indexFile)
    ensures Below(Target(path, cfg, fs), ParsePath(cfg.documentRoot))
  {
    hide ParsePath, TrimSlashes, Below;
    var root, index := ParsePath(cfg.documentRoot), ParsePath(cfg.indexFile);
    var rel := TrimSlashes(path);
    RelativeAfterTrim(path);
    if HasDotDot(rel) { TrimSlashesDots(path); }
    DotFreePath(rel);
    DotFreePath(cfg.indexFile);
    var named := Named(path, cfg);
    JoinBelow(root, ParsePath(if rel == "" then cfg.indexFile else rel));
    if IsDir(fs, named) {
      JoinBelow(named, index);
      BelowTrans(JoinPath(named, index), named, root);
    }
  }

  lemma BelowIsWithin(fs: Filesystem, target: Path, root: Path)
    requires NoLinks(fs) && Below(target, root)
    ensures IsWithin(fs, target, root)
  {
    hide NoLinks;
    if target in fs.canonical { LinkFree(fs, target, root); }
  }

  lemma LinkFree(fs: Filesystem, p: Path, q: Path)
    requires NoLinks(fs) && p in fs.canonical && Below(p, q)
    ensures q in fs.canonical && StartsWith(fs.canonical[p], fs.canonical[q])
  {
    hide Below, StartsWith;
  }

  lemma WithinIsNot403(verb: string, path: string, cfg: Config, fs: Filesystem, pages: Pages)
    requires IsWithin(fs, Target(path, cfg, fs), ParsePath(cfg.documentRoot))
    ensures StaticAnswer(verb, path, cfg, fs, pages).status != 403
  {
    hide IsWithin, Target, ParsePath, Read, MimeFor, Readable;
  }

  /**
   Where no symbolic link leads elsewhere, no request that the server reads is ever
   answered 403, whatever its bytes: sanitizing has removed what could climb.
   */
  lemma ParsedIsNeverForbidden(text: string, cfg: Config, fs: Filesystem, pages: Pages)
    requires NoLinks(fs) && !ParsePath(cfg.indexFile).absolute && !HasDotDot(cfg.indexFile)
    ensures var r := ParseRequest(text); StaticAnswer(r.verb, r.path, cfg, fs, pages).status != 403
  {
    hide ParseRequest, ParsePath, Target, HasDotDot, Below, IsWithin, NoLinks, StaticAnswer;
    var r := ParseRequest(text);
    ParsedRequestOk(text);
    TargetBelow(r.path, cfg, fs);
    BelowIsWithin(fs, Target(r.path, cfg, fs), ParsePath(cfg.documentRoot));
    WithinIsNot403(r.verb, r.path, cfg, fs, pages);
  }

  /** Media types contain no line feed, so no file name can break the response head. */
  lemma MimeClean(p: Path)
    ensures '\n' !in MimeFor(p)
  {
    hide Extension;
  }

  lemma PageClean(status: nat, text: string, server: string, pages: Pages)
    requires '\n' !in text && '\n' !in server
    ensures CleanHead(PageMessage(status, text, server, pages))
  {
  }

  lemma FileClean(server: string, p: Path, bytes: string)
    requires '\n' !in server
    ensures CleanHead(FileMessage(server, p, bytes))
  {
    hide MimeFor;
    MimeClean(p);
  }

  lemma StaticAnswerClean(verb: string, path: string, cfg: Config, fs: Filesystem, pages: Pages)
    requires '\n' !in cfg.serverName
    ensures CleanHead(StaticAnswer(verb, path, cfg, fs, pages))
    ensures StaticAnswer(verb, path, cfg, fs, pages).status in {200, 403, 404, 405}
  {
    PageClean(405, "Method Not Allowed", cfg.serverName, pages);
    PageClean(403, "Forbidden", cfg.serverName, pages);
    PageClean(404, "Not Found", cfg.serverName, pages);
    hide CleanHead, Target, ParsePath, IsWithin, Read;
    var target := Target(path, cfg, fs);
    if Read(fs, target).Some? {
      FileClean(cfg.serverName, target, Read(fs, target).value);
    }
  }
}
