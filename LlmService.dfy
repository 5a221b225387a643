/** The server's generation service: which vendor clients exist, the
    dispatch of a request to one of them, the post-processing of the reply
    (the JSON span it contains, or a fixed fallback object), the content
    used when any step of that fails, and the assembly of a site from the
    templates of the requested style. Vendor SDK calls, `JSON.parse`,
    template compilation, the file system and the clock are parameters. */
module LlmService {
  import opened Wrappers
  import opened Js
  import opened Portfolio
  import Text

  // ----- clients -----

  /** The variable a provider's client is configured from. */
  function EnvVar(provider: string): (v: Option<string>)
    ensures v.Some? <==> provider in ClientProviders
  {
    match provider
    case "openai" => Some("OPENAI_API_KEY")
    case "gemini" => Some("GEMINI_API_KEY")
    case "anthropic" => Some("ANTHROPIC_API_KEY")
    case "ollama" => Some("OLLAMA_HOST")
    case "openrouter" => Some("OPENROUTER_API_KEY")
    case _ => None
  }

  const ClientProviders: set<string> := {"openai", "gemini", "anthropic", "ollama", "openrouter"}

  /** `if (process.env.X)`: set and non-empty. */
  predicate EnvSet(env: map<string, string>, name: string) {
    name in env && env[name] != ""
  }

  /** `initializeProviders`: the providers that get a client. */
  function InitializedClients(env: map<string, string>): (clients: set<string>)
    ensures clients <= ClientProviders
    ensures forall p :: p in ClientProviders ==> (p in clients <==> EnvSet(env, EnvVar(p).value))
  {
    set p | p in ClientProviders && EnvSet(env, EnvVar(p).value)
  }

  // ----- reply post-processing -----

  /** Where `/\{[\s\S]*\}/` matches: from the first `{` to the last `}`,
      provided that `}` comes after it. */
  function JsonSpan(response: string): (r: Option<(nat, nat)>)
    ensures r.Some? ==> (r.value.0 < r.value.1 < |response|
      && response[r.value.0] == '{' && response[r.value.1] == '}'
      && '{' !in response[..r.value.0] && '}' !in response[r.value.1 + 1..])
    ensures r.None? <==> !exists i, j :: 0 <= i < j < |response| && response[i] == '{' && response[j] == '}'
  {
    var first := FirstIndexOf(response, '{');
    var last := LastIndexOf(response, '}');
    if first.Some? && last.Some? && first.value < last.value then
      Some((first.value, last.value))
    else
      None
  }

  function FirstIndexOf(s: string, c: char): (r: Option<nat>)
    ensures r.Some? ==> r.value < |s| && s[r.value] == c && c !in s[..r.value]
    ensures r.None? ==> c !in s
  {
    if s == [] then None
    else if s[0] == c then Some(0)
    else
      var rest := FirstIndexOf(s[1..], c);
      if rest.None? then None
      else
        assert s[..rest.value + 1] == [s[0]] + s[1..][..rest.value];
        Some(rest.value + 1)
  }

  function LastIndexOf(s: string, c: char): (r: Option<nat>)
    ensures r.Some? ==> r.value < |s| && s[r.value] == c && c !in s[r.value + 1..]
    ensures r.None? ==> c !in s
  {
    if s == [] then None
    else if s[|s| - 1] == c then Some(|s| - 1)
    else
      var rest := LastIndexOf(s[..|s| - 1], c);
      if rest.None? then
        assert s == s[..|s| - 1] + [s[|s| - 1]];
        None
      else
        assert s[rest.value + 1..] == s[..|s| - 1][rest.value + 1..] + [s[|s| - 1]];
        Some(rest.value)
  }

  /** The text `jsonMatch[0]`. */
  function JsonText(response: string): Option<string> {
    match JsonSpan(response)
    case None => None
    case Some((i, j)) => Some(response[i..j + 1])
  }

  /** A JSON object wrapped in text that has no `{` before it and no `}`
      after it is found exactly. */
  lemma SpanOfWrapped(pre: string, json: string, post: string)
    requires |json| >= 2 && json[0] == '{' && json[|json| - 1] == '}'
    requires '{' !in pre && '}' !in post
    ensures JsonText(pre + json + post) == Some(json)
  {
    var r := pre + json + post;
    assert r[|pre|] == '{' && r[|pre| + |json| - 1] == '}';
    var span := JsonSpan(r);
    var (i, j) := span.value;
    assert r[i..j + 1] == json;
  }

  const ColorScheme := Obj(map["primary" := Str("#3b82f6"), "secondary" := Str("#1e40af"), "accent" := Str("#f59e0b")])

  /** The fixed object returned when a reply holds no parsable JSON: its
      first 500 UTF-16 code units as the about text and constant tagline,
      description and colours. */
  function ParseFallback(response: string): (r: JsValue)
    ensures r.Obj? && r.fields.Keys == {"enhancedAbout", "tagline", "metaDescription", "colorScheme", "enhancedProjects"}
    ensures r.fields["enhancedAbout"].Str?
    ensures r.fields["tagline"] == Str("Professional Developer & Designer")
    ensures r.fields["metaDescription"] == Str("Professional portfolio showcasing projects and experience")
    ensures r.fields["colorScheme"] == ColorScheme && r.fields["enhancedProjects"] == Arr([])
    ensures var about := r.fields["enhancedAbout"].s;
      && about <= response && Text.Utf16Length(about) <= 500
      && (Text.Utf16Length(response) <= 500 ==> about == response)
      && (about != response ==> 499 <= Text.Utf16Length(about) && 500 < Text.Utf16Length(about) + Text.Units(response[|about|]))
  {
    var about := Text.Utf16Prefix(response, 500);
    var fields := map[
      "enhancedAbout" := Str(about),
      "tagline" := Str("Professional Developer & Designer"),
      "metaDescription" := Str("Professional portfolio showcasing projects and experience"),
      "colorScheme" := ColorScheme,
      "enhancedProjects" := Arr([])];
    assert fields["enhancedAbout"] == Str(about);
    Obj(fields)
  }

  /** `parseEnhancedContent`: the parsed JSON span when there is one and it
      parses, whatever keys it has; the fallback object otherwise. It never
      fails. */
  function ParseEnhancedContent(response: string, parse: string -> Option<JsValue>): (r: JsValue)
    ensures r == ParseFallback(response) || (JsonText(response).Some? && parse(JsonText(response).value) == Some(r))
    ensures JsonText(response).Some? && parse(JsonText(response).value).Some? ==> r == parse(JsonText(response).value).value
  {
    match JsonText(response)
    case None => ParseFallback(response)
    case Some(text) =>
      match parse(text)
      case None => ParseFallback(response)
      case Some(v) => v
  }

  /** A reply that wraps a parsable object in prose gives that object back,
      unchecked; a reply with no `}` after its first `{` gives the
      fallback. */
  lemma ParseEnhancedContentCases(pre: string, json: string, post: string, parse: string -> Option<JsValue>)
    requires |json| >= 2 && json[0] == '{' && json[|json| - 1] == '}'
    requires '{' !in pre && '}' !in post
    ensures parse(json).Some? ==> ParseEnhancedContent(pre + json + post, parse) == parse(json).value
    ensures parse(json).None? ==> ParseEnhancedContent(pre + json + post, parse) == ParseFallback(pre + json + post)
  {
    SpanOfWrapped(pre, json, post);
  }

  lemma NoObjectGivesFallback(response: string, parse: string -> Option<JsValue>)
    requires '}' !in response
    ensures ParseEnhancedContent(response, parse) == ParseFallback(response)
  {
  }

  /** `getFallbackContent`: the user's own about text and projects, with a
      tagline and description made from the name. */
  function GetFallbackContent(data: PortfolioData): (r: JsValue)
    ensures r.Obj? && r.fields.Keys == {"enhancedAbout", "tagline", "metaDescription", "colorScheme", "enhancedProjects"}
    ensures r.fields["enhancedAbout"] == Str(data.aboutMe)
    ensures r.fields["enhancedProjects"] == Arr(ProjectsJs(data.projects))
    ensures r.fields["tagline"] == Str(data.personalInfo.name + " - Professional Portfolio")
  {
    Obj(map[
      "enhancedAbout" := Str(data.aboutMe),
      "tagline" := Str(data.personalInfo.name + " - Professional Portfolio"),
      "metaDescription" := Str("Portfolio of " + data.personalInfo.name + " showcasing projects and experience"),
      "colorScheme" := ColorScheme,
      "enhancedProjects" := Arr(ProjectsJs(data.projects))])
  }

  // ----- dispatch -----

  /** `generateEnhancedContent`: a supported provider with a client (and,
      for `openrouter`, a non-empty model) is asked through `call`, and its
      reply post-processed; an unsupported provider, a missing client or
      model, and any error of the call give the fallback content. */
  function GenerateEnhancedContent(data: PortfolioData, provider: string, model: Option<string>, clients: set<string>,
                                   call: (string, string) -> Result<string, string>,
                                   parse: string -> Option<JsValue>): (r: JsValue)
    ensures provider !in ClientProviders || provider !in clients ==> r == GetFallbackContent(data)
  {
    // the `switch`: `openrouter` takes the model, the four other providers
    // with a client take none, and the default branch falls back
    if provider == "openrouter" then
      if model.None? || model.value == "" then GetFallbackContent(data)
      else Ask(data, provider, model.value, clients, call, parse)
    else if provider in ClientProviders then Ask(data, provider, "", clients, call, parse)
    else GetFallbackContent(data)
  }

  /** One adapter: it throws when its client was not initialized. */
  function Ask(data: PortfolioData, provider: string, model: string, clients: set<string>,
               call: (string, string) -> Result<string, string>, parse: string -> Option<JsValue>): JsValue
  {
    if provider !in clients then GetFallbackContent(data)
    else match call(provider, model)
      case Err(_) => GetFallbackContent(data)
      case Ok(text) => ParseEnhancedContent(text, parse)
  }

  /** When a vendor is actually asked: a provider with a client, and for
      OpenRouter a named model. */
  predicate Reaches(provider: string, model: Option<string>, clients: set<string>) {
    && provider in ClientProviders && provider in clients
    && (provider == "openrouter" ==> model.Some? && model.value != "")
  }

  /** The dispatch never fails: the content is the post-processed reply
      exactly when a vendor is reached and answers, and the fallback
      content otherwise. */
  lemma DispatchOrFallback(data: PortfolioData, provider: string, model: Option<string>, clients: set<string>,
                           call: (string, string) -> Result<string, string>, parse: string -> Option<JsValue>)
    ensures var m := if provider == "openrouter" && model.Some? then model.value else "";
      GenerateEnhancedContent(data, provider, model, clients, call, parse)
        == if Reaches(provider, model, clients) && call(provider, m).Ok?
           then ParseEnhancedContent(call(provider, m).value, parse)
           else GetFallbackContent(data)
  {
    if provider == "openrouter" && model.Some? && model.value != "" {
      AskAnswers(data, provider, model.value, clients, call, parse);
    } else if provider != "openrouter" && provider in ClientProviders {
      AskAnswers(data, provider, "", clients, call, parse);
    }
  }

  lemma AskAnswers(data: PortfolioData, provider: string, model: string, clients: set<string>,
                   call: (string, string) -> Result<string, string>, parse: string -> Option<JsValue>)
    ensures Ask(data, provider, model, clients, call, parse)
      == if provider in clients && call(provider, model).Ok?
         then ParseEnhancedContent(call(provider, model).value, parse)
         else GetFallbackContent(data)
  {
  }

  /** OpenRouter without a model, a provider the service does not know
      (such as `deepseek`, which the providers list advertises) and a
      provider without a client all give the fallback content. */
  lemma FallbackCases(data: PortfolioData, provider: string, model: Option<string>, clients: set<string>,
                      call: (string, string) -> Result<string, string>, parse: string -> Option<JsValue>)
    ensures provider == "openrouter" && model.None? ==>
      GenerateEnhancedContent(data, provider, model, clients, call, parse) == GetFallbackContent(data)
    ensures provider !in ClientProviders ==>
      GenerateEnhancedContent(data, provider, model, clients, call, parse) == GetFallbackContent(data)
    ensures provider !in clients ==>
      GenerateEnhancedContent(data, provider, model, clients, call, parse) == GetFallbackContent(data)
  {
    DispatchOrFallback(data, provider, model, clients, call, parse);
  }

  // ----- site assembly -----

  /** The template directory used: the style's own if it exists, `minimal`
      otherwise. */
  function TemplateDir(style: string, exists_: string -> bool): (dir: string)
    ensures exists_(style) ==> dir == style
    ensures !exists_(style) ==> dir == "minimal"
  {
    if exists_(style) then style else "minimal"
  }

  /** The own properties `{...v}` copies: none unless `v` is an object. The
      content from `parseEnhancedContent` is always an object when it comes
      from a `{...}` span, and the fallbacks are objects. */
  function Spread(v: JsValue): map<string, JsValue> {
    if v.Obj? then v.fields else map[]
  }

  /** `{...portfolioData, ...enhancedContent, currentYear, style}` */
  function TemplateData(data: PortfolioData, enhanced: JsValue, year: int, style: string): (r: map<string, JsValue>)
    ensures "currentYear" in r && r["currentYear"] == Num(year)
    ensures "style" in r && r["style"] == Str(style)
  {
    PortfolioFields(data) + Spread(enhanced) + map["currentYear" := Num(year), "style" := Str(style)]
  }

  /** Later spreads win: the two last keys always hold the year and the
      requested style, AI keys override portfolio keys of the same name, and
      portfolio keys the AI did not return are kept. */
  lemma TemplateDataPrecedence(data: PortfolioData, enhanced: JsValue, year: int, style: string)
    ensures var t := TemplateData(data, enhanced, year, style);
      && t["style"] == Str(style) && t["currentYear"] == Num(year)
      && (forall k :: k in Spread(enhanced) && k != "style" && k != "currentYear" ==> t[k] == Spread(enhanced)[k])
      && (forall k :: k in PortfolioFields(data) && k !in Spread(enhanced) ==> t[k] == PortfolioFields(data)[k])
      && t.Keys == PortfolioFields(data).Keys + Spread(enhanced).Keys + {"currentYear", "style"}
  {
    var p, e := PortfolioFields(data), Spread(enhanced);
    var last := map["currentYear" := Num(year), "style" := Str(style)];
    var t := p + e + last;
    assert "currentYear" !in p && "style" !in p;
    forall k | k in e && k != "style" && k != "currentYear"
      ensures t[k] == e[k]
    {
      assert k !in last;
    }
    forall k | k in p && k !in e
      ensures t[k] == p[k]
    {
      assert k !in last;
    }
  }

  datatype Metadata = Metadata(generatedAt: string, provider: string, style: string, name: string)

  datatype GeneratedPortfolio = GeneratedPortfolio(html: string, css: string, js: string, metadata: Metadata)

  /** `GenerationOptions` */
  datatype Options = Options(provider: string, style: string, outputPath: string, model: Option<string>)

  /** What the service reaches outside itself. `read(dir, file)` reads a
      template, `compile(template, data)` runs Handlebars, and
      `writeZip(path, files)` writes the archive. */
  datatype Env = Env(
    templateExists: string -> bool,
    read: (string, string) -> Result<string, string>,
    compile: (string, map<string, JsValue>) -> Result<string, string>,
    writeZip: (string, seq<(string, string)>) -> Result<(), string>,
    clients: set<string>,
    call: (string, string) -> Result<string, string>,
    parse: string -> Option<JsValue>,
    year: int,
    now: string)

  /** `generatePortfolio`: read the three templates of the chosen directory,
      get the content, compile the templates with the merged data, write
      the archive, and describe the result. Any failing step ends it with
      that step's error. */
  function GeneratePortfolio(data: PortfolioData, options: Options, env: Env): (r: Result<GeneratedPortfolio, string>)
    ensures r.Ok? ==> r.value.metadata == Metadata(env.now, options.provider, options.style, data.personalInfo.name)
  {
    var dir := TemplateDir(options.style, env.templateExists);
    match env.read(dir, "index.hbs")
    case Err(e) => Err(e)
    case Ok(htmlTemplate) =>
      match env.read(dir, "styles.hbs")
      case Err(e) => Err(e)
      case Ok(cssTemplate) =>
        match env.read(dir, "script.hbs")
        case Err(e) => Err(e)
        case Ok(jsTemplate) =>
          var enhanced := GenerateEnhancedContent(data, options.provider, options.model, env.clients, env.call, env.parse);
          var templateData := TemplateData(data, enhanced, env.year, options.style);
          match env.compile(htmlTemplate, templateData)
          case Err(e) => Err(e)
          case Ok(html) =>
            match env.compile(cssTemplate, templateData)
            case Err(e) => Err(e)
            case Ok(css) =>
              match env.compile(jsTemplate, templateData)
              case Err(e) => Err(e)
              case Ok(js) =>
                match env.writeZip(options.outputPath, [("index.html", html), ("styles.css", css), ("script.js", js)])
                case Err(e) => Err(e)
                case Ok(_) => Ok(GeneratedPortfolio(html, css, js, Metadata(env.now, options.provider, options.style, data.personalInfo.name)))
  }

  /** A site is produced exactly when every template of the chosen
      directory is read, compiled with the merged data, and the archive of
      the three compiled files is written to the requested path; the files
      returned are the files archived. */
  lemma GeneratedIsArchived(data: PortfolioData, options: Options, env: Env)
    requires GeneratePortfolio(data, options, env).Ok?
    ensures var g := GeneratePortfolio(data, options, env).value;
      var dir := TemplateDir(options.style, env.templateExists);
      var t := TemplateData(data, GenerateEnhancedContent(data, options.provider, options.model, env.clients, env.call, env.parse), env.year, options.style);
      && env.read(dir, "index.hbs").Ok? && env.compile(env.read(dir, "index.hbs").value, t) == Ok(g.html)
      && env.read(dir, "styles.hbs").Ok? && env.compile(env.read(dir, "styles.hbs").value, t) == Ok(g.css)
      && env.read(dir, "script.hbs").Ok? && env.compile(env.read(dir, "script.hbs").value, t) == Ok(g.js)
      && env.writeZip(options.outputPath, [("index.html", g.html), ("styles.css", g.css), ("script.js", g.js)]).Ok?
  {
  }

  /** Template `file` of `dir`, read and compiled with `t`. */
  function Compiled(env: Env, dir: string, file: string, t: map<string, JsValue>): Result<string, string> {
    match env.read(dir, file)
    case Err(e) => Err(e)
    case Ok(template) => env.compile(template, t)
  }

  /** Conversely, when the three templates of the chosen directory read and
      compile and the archive of the compiled files is written, the site is
      produced, and it holds exactly those files. */
  lemma ArchivedIsGenerated(data: PortfolioData, options: Options, env: Env)
    requires var dir := TemplateDir(options.style, env.templateExists);
      var t := TemplateData(data, GenerateEnhancedContent(data, options.provider, options.model, env.clients, env.call, env.parse), env.year, options.style);
      var html, css, js := Compiled(env, dir, "index.hbs", t), Compiled(env, dir, "styles.hbs", t), Compiled(env, dir, "script.hbs", t);
      && html.Ok? && css.Ok? && js.Ok?
      && env.writeZip(options.outputPath, [("index.html", html.value), ("styles.css", css.value), ("script.js", js.value)]).Ok?
    ensures var dir := TemplateDir(options.style, env.templateExists);
      var t := TemplateData(data, GenerateEnhancedContent(data, options.provider, options.model, env.clients, env.call, env.parse), env.year, options.style);
      GeneratePortfolio(data, options, env) == Ok(GeneratedPortfolio(
        Compiled(env, dir, "index.hbs", t).value, Compiled(env, dir, "styles.hbs", t).value, Compiled(env, dir, "script.hbs", t).value,
        Metadata(env.now, options.provider, options.style, data.personalInfo.name)))
  {
  }
}
