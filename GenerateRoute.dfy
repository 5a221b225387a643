/** The `/api/generate` routes: generation of a site into a named archive,
    its download, the listing of archives newest first, the style and
    provider catalogues, and the style preview. The directory listings, the
    file-system lookups, the clock and the schema check are parameters; a
    response is its status and JSON body. */
module GenerateRoute {
  import opened Wrappers
  import opened Js
  import opened Text
  import opened Portfolio
  import opened Sorting
  import LlmService

  datatype Response = Json(status: int, body: JsValue) | SendFile(name: string)

  /** `(req.query.x as string) || fallback` for a query parameter given at
      most once. */
  function QueryOr(q: Option<string>, fallback: string): (r: string)
    ensures q.Some? && q.value != "" ==> r == q.value
    ensures q.None? || q.value == "" ==> r == fallback
  {
    if q.Some? && q.value != "" then q.value else fallback
  }

  /** The archive's base name: the owner's name with every whitespace run as
      one `_`, then `_`, then the ISO timestamp with `:` and `.` as `-`. */
  function Filename(name: string, iso: string): (r: string)
    ensures |r| == |UnderscoreSpaces(name)| + 1 + |iso|
    ensures r[..|r| - |iso|] == UnderscoreSpaces(name) + "_"
    ensures ':' !in r[|r| - |iso|..] && '.' !in r[|r| - |iso|..]
  {
    var head, stamp := UnderscoreSpaces(name) + "_", ReplaceEach(iso, {':', '.'}, '-');
    assert (head + stamp)[|head|..] == stamp;
    head + stamp
  }

  /** The timestamp part keeps its length and loses every `:` and `.`; the
      whole name has no whitespace when the timestamp has none. */
  lemma FilenameShape(name: string, iso: string)
    ensures var stamp := ReplaceEach(iso, {':', '.'}, '-');
      && Filename(name, iso) == UnderscoreSpaces(name) + "_" + stamp
      && |stamp| == |iso| && ':' !in stamp && '.' !in stamp
      && (NoSpace(iso) ==> NoSpace(Filename(name, iso)))
  {
    var stamp := ReplaceEach(iso, {':', '.'}, '-');
    if NoSpace(iso) {
      var f := Filename(name, iso);
      forall i | 0 <= i < |f| ensures !IsSpace(f[i]) {
        var u := UnderscoreSpaces(name);
        if i > |u| {
          assert f[i] == stamp[i - |u| - 1];
          assert iso[i - |u| - 1] in iso;
        }
      }
    }
  }

  const DownloadPrefix := "/api/generate/download/"

  function MetadataJs(m: LlmService.Metadata): JsValue {
    Obj(map["generatedAt" := Str(m.generatedAt), "provider" := Str(m.provider),
            "style" := Str(m.style), "name" := Str(m.name)])
  }

  function SuccessBody(g: LlmService.GeneratedPortfolio, zip: string): (r: JsValue)
    ensures Prop(r, "downloadUrl") == Some(Str(DownloadPrefix + zip))
    ensures Prop(r, "portfolio").Some? && Prop(Prop(r, "portfolio").value, "html") == Some(Str(g.html))
  {
    Obj(map[
      "success" := Bool(true),
      "message" := Str("Portfolio generated successfully"),
      "portfolio" := Obj(map["html" := Str(g.html), "css" := Str(g.css), "js" := Str(g.js), "metadata" := MetadataJs(g.metadata)]),
      "downloadUrl" := Str(DownloadPrefix + zip)])
  }

  /** A response and the archive it wrote, if any. */
  datatype Outcome = Outcome(response: Response, written: Option<string>)

  /** `POST /api/generate`: defaults for provider and style, a 400 for a body
      the schema rejects (nothing generated), a 500 for any failure of the
      service, and otherwise the site and the URL of the archive, which is
      named after the owner and the request time. No model is ever passed
      on. */
  function Generate(provider: Option<string>, style: Option<string>, body: JsValue,
                    validate: JsValue -> Result<PortfolioData, JsValue>, iso: string, service: LlmService.Env): (r: Outcome)
    ensures validate(body).Err? ==>
      r == Outcome(Json(400, Obj(map["error" := Str("Invalid portfolio data"), "details" := validate(body).error])), None)
    ensures r.written.Some? ==>
      && validate(body).Ok? && r.written.value == Filename(validate(body).value.personalInfo.name, iso) + ".zip"
      && r.response.Json? && r.response.status == 200
      && Prop(r.response.body, "downloadUrl") == Some(Str(DownloadPrefix + r.written.value))
    ensures r.written.None? && validate(body).Ok? ==> r.response.Json? && r.response.status == 500
    ensures validate(body).Ok? ==>
      var data := validate(body).value;
      var zip := Filename(data.personalInfo.name, iso) + ".zip";
      var g := LlmService.GeneratePortfolio(data, LlmService.Options(QueryOr(provider, "openai"), QueryOr(style, "minimal"), zip, None), service);
      && (g.Ok? ==> r == Outcome(Json(200, SuccessBody(g.value, zip)), Some(zip)))
      && (g.Err? ==> r == Outcome(Json(500, Obj(map["error" := Str("Failed to generate portfolio"), "message" := Str(g.error)])), None))
  {
    var p := QueryOr(provider, "openai");
    var s := QueryOr(style, "minimal");
    match validate(body)
    case Err(details) => Outcome(Json(400, Obj(map["error" := Str("Invalid portfolio data"), "details" := details])), None)
    case Ok(data) =>
      var zip := Filename(data.personalInfo.name, iso) + ".zip";
      match LlmService.GeneratePortfolio(data, LlmService.Options(p, s, zip, None), service)
      case Err(e) => Outcome(Json(500, Obj(map["error" := Str("Failed to generate portfolio"), "message" := Str(e)])), None)
      case Ok(g) => Outcome(Json(200, SuccessBody(g, zip)), Some(zip))
  }

  /** Leaving out the provider or the style, or sending it empty, is the
      same request as naming `openai` and `minimal`. */
  lemma GenerateDefaults(provider: Option<string>, style: Option<string>, body: JsValue,
                         validate: JsValue -> Result<PortfolioData, JsValue>, iso: string, service: LlmService.Env)
    requires provider.None? || provider == Some("")
    requires style.None? || style == Some("")
    ensures Generate(provider, style, body, validate, iso, service)
      == Generate(Some("openai"), Some("minimal"), body, validate, iso, service)
  {
  }

  /** Because the route passes no model, an `openrouter` request is always
      built from the fallback content: the page is the template compiled with
      the owner's own about text and projects. */
  lemma OpenRouterRequestFallsBack(style: Option<string>, body: JsValue,
                                   validate: JsValue -> Result<PortfolioData, JsValue>, iso: string, service: LlmService.Env)
    requires Generate(Some("openrouter"), style, body, validate, iso, service).written.Some?
    ensures var data := validate(body).value;
      var s := QueryOr(style, "minimal");
      var dir := LlmService.TemplateDir(s, service.templateExists);
      var page := Prop(Prop(Generate(Some("openrouter"), style, body, validate, iso, service).response.body, "portfolio").value, "html").value;
      && service.read(dir, "index.hbs").Ok?
      && service.compile(service.read(dir, "index.hbs").value,
                         LlmService.TemplateData(data, LlmService.GetFallbackContent(data), service.year, s)) == Ok(page.s)
  {
    var data := validate(body).value;
    var s := QueryOr(style, "minimal");
    var options := LlmService.Options("openrouter", s, Filename(data.personalInfo.name, iso) + ".zip", None);
    LlmService.GeneratedIsArchived(data, options, service);
    LlmService.FallbackCases(data, "openrouter", None, service.clients, service.call, service.parse);
  }

  /** `GET /api/generate/download/:filename` over the set of archive
      names present. */
  function Download(files: set<string>, filename: string): (r: Response)
    ensures r.SendFile? <==> filename in files
    ensures r.SendFile? ==> r.name == filename
  {
    if filename !in files then Json(404, Obj(map["error" := Str("Portfolio not found")]))
    else SendFile(filename)
  }

  /** The `:filename` a URL under the download prefix matches: one path
      segment, not empty. */
  function DownloadParam(url: string): Option<string> {
    if StartsWith(url, DownloadPrefix) && |url| > |DownloadPrefix| && '/' !in url[|DownloadPrefix|..] then
      Some(url[|DownloadPrefix|..])
    else None
  }

  /** The URL a generation returns downloads the archive it wrote, when the
      owner's name holds no `/`. */
  lemma GeneratedIsDownloadable(provider: Option<string>, style: Option<string>, body: JsValue,
                                validate: JsValue -> Result<PortfolioData, JsValue>, iso: string,
                                service: LlmService.Env, files: set<string>)
    requires Generate(provider, style, body, validate, iso, service).written.Some?
    requires '/' !in validate(body).value.personalInfo.name && '/' !in iso
    ensures var r := Generate(provider, style, body, validate, iso, service);
      var url := Prop(r.response.body, "downloadUrl").value.s;
      DownloadParam(url) == Some(r.written.value)
      && Download(files + {r.written.value}, r.written.value) == SendFile(r.written.value)
  {
    var zip := Generate(provider, style, body, validate, iso, service).written.value;
    ZipNameHasNoSlash(validate(body).value.personalInfo.name, iso);
    assert (DownloadPrefix + zip)[|DownloadPrefix|..] == zip;
  }

  lemma ZipNameHasNoSlash(name: string, iso: string)
    requires '/' !in name && '/' !in iso
    ensures '/' !in Filename(name, iso) + ".zip"
  {
    UnderscoreSpacesKeepsNonSpace(name, '/');
  }

  /** A character that is not whitespace and not `_` occurs in the
      rewritten name only if it occurs in the name. */
  lemma {:induction false} UnderscoreSpacesKeepsNonSpace(s: string, c: char)
    requires c != '_' && !IsSpace(c) && c !in s
    ensures c !in UnderscoreSpaces(s)
    decreases |s|
  {
    if s != [] {
      if IsSpace(s[0]) {
        UnderscoreSpacesKeepsNonSpace(TrimStart(s[1..]), c);
      } else {
        UnderscoreSpacesKeepsNonSpace(s[1..], c);
      }
    }
  }

  // ----- listing -----

  /** What `readdirSync` and `statSync` report for one file: its name,
      modification time in milliseconds and size. */
  datatype FileStat = FileStat(name: string, mtime: int, size: int)

  datatype ArchiveEntry = ArchiveEntry(filename: string, url: string, createdAt: int, size: int)

  function Entry(f: FileStat): ArchiveEntry {
    ArchiveEntry(f.name, DownloadPrefix + f.name, f.mtime, f.size)
  }

  /** The `.zip` files, as entries, in directory order. */
  function ZipEntries(files: seq<FileStat>): (r: seq<ArchiveEntry>)
    ensures |r| <= |files|
  {
    if files == [] then []
    else (if EndsWith(files[0].name, ".zip") then [Entry(files[0])] else []) + ZipEntries(files[1..])
  }

  function CreatedAt(e: ArchiveEntry): int {
    e.createdAt
  }

  /** `GET /api/generate/list`: the archives, newest first. */
  function ListArchives(files: seq<FileStat>): (r: seq<ArchiveEntry>)
    ensures SortedDesc(r, CreatedAt)
    ensures multiset(r) == multiset(ZipEntries(files))
  {
    SortDesc(ZipEntries(files), CreatedAt)
  }

  /** An entry is listed exactly when it describes a `.zip` file of the
      directory, and its URL downloads that file. */
  lemma ListedIffZip(files: seq<FileStat>, e: ArchiveEntry)
    ensures e in ListArchives(files) <==> exists k :: 0 <= k < |files| && EndsWith(files[k].name, ".zip") && e == Entry(files[k])
    ensures e in ListArchives(files) ==> e.url == DownloadPrefix + e.filename && EndsWith(e.filename, ".zip")
  {
    assert e in ListArchives(files) <==> e in multiset(ZipEntries(files));
    ZipEntriesMembers(files, e);
  }

  lemma {:induction false} ZipEntriesMembers(files: seq<FileStat>, e: ArchiveEntry)
    ensures e in ZipEntries(files) <==> exists k :: 0 <= k < |files| && EndsWith(files[k].name, ".zip") && e == Entry(files[k])
  {
    if files != [] {
      ZipEntriesMembers(files[1..], e);
      if exists k :: 0 <= k < |files| && EndsWith(files[k].name, ".zip") && e == Entry(files[k]) {
        var k :| 0 <= k < |files| && EndsWith(files[k].name, ".zip") && e == Entry(files[k]);
        if k > 0 {
          assert files[1..][k - 1] == files[k];
        }
      }
      if exists k :: 0 <= k < |files[1..]| && EndsWith(files[1..][k].name, ".zip") && e == Entry(files[1..][k]) {
        var k :| 0 <= k < |files[1..]| && EndsWith(files[1..][k].name, ".zip") && e == Entry(files[1..][k]);
        assert files[k + 1] == files[1..][k];
      }
    }
  }

  /** Archives with the same modification time stay in directory order. */
  lemma ListingStable(files: seq<FileStat>, t: int)
    ensures WithKey(ListArchives(files), CreatedAt, t) == WithKey(ZipEntries(files), CreatedAt, t)
  {
    SortDescStable(ZipEntries(files), CreatedAt, t);
  }

  // ----- styles -----

  /** `s.charAt(0).toUpperCase() + s.slice(1)` */
  function Capitalize(s: string): (r: string)
    ensures |r| == |s|
    ensures s != [] ==> r[0] == ToUpperChar(s[0]) && r[1..] == s[1..]
  {
    if s == [] then [] else [ToUpperChar(s[0])] + s[1..]
  }

  const CustomStyle := "Custom portfolio style"

  const StyleDescriptions: map<string, string> := map[
    "minimal" := "Clean and simple design focusing on content",
    "modern" := "Contemporary design with sidebar navigation",
    "creative" := "Bold and artistic with unique visual elements",
    "professional" := "Corporate-friendly design for business use",
    "dark" := "Dark theme with modern aesthetics",
    "glassmorphism" := "Trendy glass-like effects and transparency"]

  /** `descriptions[style] || 'Custom portfolio style'` as written: a style
      named like a member of `Object.prototype` finds that member instead of
      text. For most names it is a function, which the JSON reply drops; for
      `__proto__` it is `Object.prototype` itself, which the reply sends as
      `{}`. */
  function GetStyleDescriptionAsWritten(style: string): (r: Member)
    ensures r.Own? || r.Inherited?
    ensures r.Own? ==> r.value != ""
    ensures r.Inherited? ==> style in ObjectPrototypeMembers
  {
    match Index(StyleDescriptions, style)
    case Own(d) => Own(if d != "" then d else CustomStyle)
    case Inherited(k) => Inherited(k)
    case Absent => Own(CustomStyle)
  }

  /** `getStyleDescription` over the table's own entries: the fixed text of
      the six known styles, the generic text for any other. */
  function GetStyleDescription(style: string): (r: string)
    ensures style in StyleDescriptions ==> r == StyleDescriptions[style]
    ensures style !in StyleDescriptions ==> r == CustomStyle
  {
    if style in StyleDescriptions then StyleDescriptions[style] else CustomStyle
  }

  /** The two agree wherever the as-written one gives text, and it fails to
      give text exactly for the names `Object.prototype` carries. */
  lemma StyleDescriptionAgrees(style: string)
    ensures GetStyleDescriptionAsWritten(style).Own? ==> GetStyleDescriptionAsWritten(style).value == GetStyleDescription(style)
    ensures GetStyleDescriptionAsWritten(style).Inherited? <==> style in ObjectPrototypeMembers
  {
    assert forall k :: k in StyleDescriptions ==> k !in ObjectPrototypeMembers;
  }

  lemma StyleDescriptionOfInheritedName()
    ensures GetStyleDescriptionAsWritten("constructor").Inherited?
    ensures GetStyleDescription("constructor") == CustomStyle
  {
  }

  datatype StyleEntry = StyleEntry(name: string, displayName: string, description: string)

  /** `GET /api/generate/styles`: one entry per template directory, in
      directory order; other files are skipped. */
  function Styles(names: seq<string>, isDirectory: string -> bool): (r: seq<StyleEntry>)
    ensures |r| <= |names|
    ensures forall i :: 0 <= i < |r| ==> isDirectory(r[i].name) && r[i].displayName == Capitalize(r[i].name)
  {
    if names == [] then []
    else
      (if isDirectory(names[0]) then [StyleEntry(names[0], Capitalize(names[0]), GetStyleDescription(names[0]))] else [])
      + Styles(names[1..], isDirectory)
  }

  /** Every listed style is a directory, shown capitalized with its
      description, and every directory is listed. */
  lemma {:induction false} StylesListDirectories(names: seq<string>, isDirectory: string -> bool)
    ensures forall e :: e in Styles(names, isDirectory) ==>
      e.name in names && isDirectory(e.name) && e.displayName == Capitalize(e.name) && e.description == GetStyleDescription(e.name)
    ensures forall i :: 0 <= i < |names| && isDirectory(names[i]) ==>
      StyleEntry(names[i], Capitalize(names[i]), GetStyleDescription(names[i])) in Styles(names, isDirectory)
  {
    if names != [] {
      StylesListDirectories(names[1..], isDirectory);
      forall i | 1 <= i < |names| ensures names[i] == names[1..][i - 1] {
      }
    }
  }

  // ----- providers -----

  /** One provider the catalogue lists, with the variable its availability
      is read from. */
  datatype CatalogueEntry = CatalogueEntry(name: string, displayName: string, variable: string, description: string)

  const Catalogue: seq<CatalogueEntry> := [
    CatalogueEntry("openai", "OpenAI GPT-4", "OPENAI_API_KEY", "Advanced AI model with excellent creative writing capabilities"),
    CatalogueEntry("gemini", "Google Gemini", "GEMINI_API_KEY", "Google's powerful multimodal AI model"),
    CatalogueEntry("anthropic", "Anthropic Claude", "ANTHROPIC_API_KEY", "Claude AI with strong reasoning and safety features"),
    CatalogueEntry("ollama", "Ollama (Local)", "OLLAMA_HOST", "Local AI model for privacy-focused generation"),
    CatalogueEntry("deepseek", "DeepSeek Coder", "DEEPSEEK_API_KEY", "DeepSeek AI model specialized in coding and technical content"),
    CatalogueEntry("openrouter", "OpenRouter (Multi-Model)", "OPENROUTER_API_KEY", "Access to multiple AI models through OpenRouter API")]

  /** A record as the reply carries it; `!!process.env.X` is true exactly
      when the variable is set and not empty. */
  function ProviderRecord(c: CatalogueEntry, env: map<string, string>): (r: JsValue)
    ensures Prop(r, "name") == Some(Str(c.name))
    ensures Prop(r, "available") == Some(Bool(LlmService.EnvSet(env, c.variable)))
    ensures r.Obj? && r.fields.Keys == {"name", "displayName", "available", "description"}
  {
    Obj(map["name" := Str(c.name), "displayName" := Str(c.displayName),
            "available" := Bool(LlmService.EnvSet(env, c.variable)), "description" := Str(c.description)])
  }

  /** `GET /api/generate/providers`: the six records, in catalogue order. */
  function ProvidersTable(env: map<string, string>): (r: seq<JsValue>)
    ensures |r| == |Catalogue|
    ensures forall i :: 0 <= i < |Catalogue| ==> r[i] == ProviderRecord(Catalogue[i], env)
  {
    seq(|Catalogue|, i requires 0 <= i < |Catalogue| => ProviderRecord(Catalogue[i], env))
  }

  /** No two entries share a name. */
  lemma CatalogueNamesDistinct()
    ensures forall i, j :: 0 <= i < j < |Catalogue| ==> Catalogue[i].name != Catalogue[j].name
  {
  }

  /** The catalogue reads the same variable as the service for each of the
      five providers the service knows; `deepseek` is the one it does not. */
  lemma CatalogueMatchesClients()
    ensures forall i :: 0 <= i < |Catalogue| && Catalogue[i].name in LlmService.ClientProviders ==>
      LlmService.EnvVar(Catalogue[i].name) == Some(Catalogue[i].variable)
    ensures forall i :: 0 <= i < |Catalogue| ==> (Catalogue[i].name in LlmService.ClientProviders <==> i != 4)
  {
    assert LlmService.EnvVar("openai") == Some("OPENAI_API_KEY");
    assert LlmService.EnvVar("gemini") == Some("GEMINI_API_KEY");
    assert LlmService.EnvVar("anthropic") == Some("ANTHROPIC_API_KEY");
    assert LlmService.EnvVar("ollama") == Some("OLLAMA_HOST");
    assert LlmService.EnvVar("openrouter") == Some("OPENROUTER_API_KEY");
  }

  /** Each record names its provider and reports it available exactly when
      its variable is set; for the five providers the service knows, that is
      exactly when the service has a client for it. */
  lemma ProviderAvailability(env: map<string, string>, i: int)
    requires 0 <= i < |Catalogue|
    ensures var rec := ProvidersTable(env)[i];
      && Prop(rec, "name") == Some(Str(Catalogue[i].name))
      && Prop(rec, "available") == Some(Bool(LlmService.EnvSet(env, Catalogue[i].variable)))
      && (Catalogue[i].name in LlmService.ClientProviders ==>
            (Truthy(Prop(rec, "available").value) <==> Catalogue[i].name in LlmService.InitializedClients(env)))
  {
    CatalogueMatchesClients();
  }

  /** `deepseek` is offered, and available when its key is set, yet the
      service has no adapter for it: a request for it gets the fallback
      content. */
  lemma DeepSeekFallsBack(env: map<string, string>, data: PortfolioData, model: Option<string>,
                          call: (string, string) -> Result<string, string>, parse: string -> Option<JsValue>)
    ensures Prop(ProvidersTable(env)[4], "name") == Some(Str("deepseek"))
    ensures Prop(ProvidersTable(env)[4], "available") == Some(Bool(LlmService.EnvSet(env, "DEEPSEEK_API_KEY")))
    ensures LlmService.GenerateEnhancedContent(data, "deepseek", model, LlmService.InitializedClients(env), call, parse)
      == LlmService.GetFallbackContent(data)
  {
    assert "deepseek" !in LlmService.ClientProviders;
  }

  // ----- preview -----

  const PreviewFailed := "Failed to generate preview"

  function PreviewFailure(message: string): (r: Response)
    ensures r.Json? && r.status == 500 && Prop(r.body, "error") == Some(Str(PreviewFailed))
  {
    Json(500, Obj(map["error" := Str(PreviewFailed), "message" := Str(message)]))
  }

  /** The sample owner a preview shows. */
  const SampleOwner: map<string, JsValue> := map[
    "personalInfo" := Obj(map["name" := Str("John Doe"), "email" := Str("john@example.com"), "location" := Str("San Francisco, CA")]),
    "aboutMe" := Str("Passionate developer with experience in modern web technologies."),
    "projects" := Arr([Obj(map[
      "name" := Str("Sample Project"),
      "description" := Str("A showcase project demonstrating modern development practices."),
      "technologies" := Arr(Strs(["React", "TypeScript", "Node.js"])),
      "githubUrl" := Str("https://github.com/example/project")])]),
    "education" := Arr([Obj(map[
      "degree" := Str("Bachelor of Science"), "field" := Str("Computer Science"),
      "institution" := Str("University of Technology"), "startYear" := Str("2018"), "endYear" := Str("2022")])]),
    "achievements" := Arr([]),
    "socialLinks" := Obj(map["github" := Str("https://github.com/johndoe"), "linkedin" := Str("https://linkedin.com/in/johndoe")])]

  /** The data a preview is compiled with: the sample owner, the year and
      the style. */
  function SampleData(style: string, year: int): map<string, JsValue> {
    SampleOwner + map["currentYear" := Num(year), "style" := Str(style)]
  }

  /** `POST /api/generate/preview` as written: the two templates are read,
      then `Handlebars` is referenced without having been imported, so
      every request that gets that far fails too, and no preview is ever
      served. */
  function PreviewAsWritten(style: JsValue, templateExists: string -> bool, read: (string, string) -> Result<string, string>): (r: Response)
    ensures r.Json? && r.status == 500
    ensures Prop(r.body, "error") == Some(Str(PreviewFailed))
  {
    match PreviewDir(style, templateExists)
    case Err(e) => PreviewFailure(e)
    case Ok((_, dir)) =>
      match read(dir, "index.hbs")
      case Err(e) => PreviewFailure(e)
      case Ok(_) =>
        match read(dir, "styles.hbs")
        case Err(e) => PreviewFailure(e)
        case Ok(_) => PreviewFailure("Handlebars is not defined")
  }

  /** `const { style = 'minimal' } = req.body` and the directory chosen for
      it: the default applies only when the body has no `style`, and a
      style that is not a string makes `path.join` throw. */
  function PreviewDir(style: JsValue, templateExists: string -> bool): (r: Result<(string, string), string>)
    ensures r.Ok? ==> r.value.1 == LlmService.TemplateDir(r.value.0, templateExists)
    ensures r.Ok? <==> style.Undefined? || style.Str?
    ensures style.Undefined? ==> r.value.0 == "minimal"
    ensures style.Str? ==> r.value.0 == style.s
  {
    match style
    case Undefined => Ok(("minimal", LlmService.TemplateDir("minimal", templateExists)))
    case Str(s) => Ok((s, LlmService.TemplateDir(s, templateExists)))
    case _ => Err("The \"path\" argument must be of type string")
  }

  function PreviewPage(html: string, css: string, style: string): (r: Response)
    ensures r.Json? && r.status == 200
    ensures Prop(r.body, "html") == Some(Str(html)) && Prop(r.body, "style") == Some(Str(style))
  {
    Json(200, Obj(map["html" := Str(html), "css" := Str(css), "style" := Str(style)]))
  }

  /** The preview with `Handlebars` in scope: both templates of the chosen
      directory compiled with the sample data. */
  function Preview(style: JsValue, year: int, templateExists: string -> bool, read: (string, string) -> Result<string, string>,
                   compile: (string, map<string, JsValue>) -> Result<string, string>): (r: Response)
    ensures r.Json? && (r.status == 200 || r.status == 500)
    ensures r.status == 200 ==> Prop(r.body, "style") == Some(Str(if style.Str? then style.s else "minimal"))
  {
    match PreviewDir(style, templateExists)
    case Err(e) => PreviewFailure(e)
    case Ok((s, dir)) =>
      match read(dir, "index.hbs")
      case Err(e) => PreviewFailure(e)
      case Ok(htmlTemplate) =>
        match read(dir, "styles.hbs")
        case Err(e) => PreviewFailure(e)
        case Ok(cssTemplate) =>
          match compile(htmlTemplate, SampleData(s, year))
          case Err(e) => PreviewFailure(e)
          case Ok(html) =>
            match compile(cssTemplate, SampleData(s, year))
            case Err(e) => PreviewFailure(e)
            case Ok(css) => PreviewPage(html, css, s)
  }

  /** The corrected preview serves a page exactly when the style is a
      string or absent and both templates of its directory read and compile
      with sample data naming that style; the page is that compilation. */
  lemma PreviewServes(style: JsValue, year: int, templateExists: string -> bool, read: (string, string) -> Result<string, string>,
                      compile: (string, map<string, JsValue>) -> Result<string, string>)
    ensures var r := Preview(style, year, templateExists, read, compile);
      var s := if style.Str? then style.s else "minimal";
      var dir := LlmService.TemplateDir(s, templateExists);
      var html := if read(dir, "index.hbs").Ok? then compile(read(dir, "index.hbs").value, SampleData(s, year)) else Err("");
      var css := if read(dir, "styles.hbs").Ok? then compile(read(dir, "styles.hbs").value, SampleData(s, year)) else Err("");
      if (style.Undefined? || style.Str?) && html.Ok? && css.Ok? then r == PreviewPage(html.value, css.value, s)
      else r.Json? && r.status == 500
  {
    match PreviewDir(style, templateExists)
    case Err(_) =>
    case Ok(_) =>
  }
}
