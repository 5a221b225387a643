/** The portfolio generation page: provider selection, the query string of
    a generation request, generation by event stream or by one JSON reply,
    the enablement of the Generate button, and the progress panel's stage
    label and message. */
module PortfolioGeneration {
  import opened Wrappers
  import opened Js
  import opened Text
  import opened EventStream
  import opened Fetch
  import ProviderChoice

  /** The value of the first parameter named `key`. */
  function Lookup(params: seq<(string, string)>, key: string): Option<string> {
    if params == [] then None
    else if params[0].0 == key then Some(params[0].1)
    else Lookup(params[1..], key)
  }

  /** The query parameters of a generation request, in the order the page
      writes them. `model` is present only when the selected model is
      truthy, and `streaming` only on the streaming path; values are
      converted with `String(v)`. */
  function QueryParams(provider: JsValue, style: string, model: JsValue, streaming: bool,
                       temperature: string, maxTokens: string): (r: seq<(string, string)>)
    ensures |r| >= 4 && r[0] == ("provider", ToJsString(provider)) && r[1] == ("style", style)
    ensures r[|r| - 2] == ("temperature", temperature) && r[|r| - 1] == ("maxTokens", maxTokens)
  {
    [("provider", ToJsString(provider)), ("style", style)]
    + (if Truthy(model) then [("model", ToJsString(model))] else [])
    + (if streaming then [("streaming", "true")] else [])
    + [("temperature", temperature), ("maxTokens", maxTokens)]
  }

  /** The request names a model exactly when one is selected, and asks for
      a stream exactly on the streaming path. */
  lemma QueryParamsOptional(provider: JsValue, style: string, model: JsValue, streaming: bool,
                            temperature: string, maxTokens: string)
    ensures Lookup(QueryParams(provider, style, model, streaming, temperature, maxTokens), "model")
      == if Truthy(model) then Some(ToJsString(model)) else None
    ensures Lookup(QueryParams(provider, style, model, streaming, temperature, maxTokens), "streaming")
      == if streaming then Some("true") else None
    ensures Lookup(QueryParams(provider, style, model, streaming, temperature, maxTokens), "provider")
      == Some(ToJsString(provider))
  {
    var head := [("provider", ToJsString(provider)), ("style", style)];
    var m: seq<(string, string)> := if Truthy(model) then [("model", ToJsString(model))] else [];
    var st: seq<(string, string)> := if streaming then [("streaming", "true")] else [];
    var tail := [("temperature", temperature), ("maxTokens", maxTokens)];
    assert QueryParams(provider, style, model, streaming, temperature, maxTokens) == head + (m + (st + tail));
    LookupIn(head, m, st, tail, "model");
    LookupIn(head, m, st, tail, "streaming");
    LookupIn(head, m, st, tail, "provider");
    LookupAbsent(head, "model");
    LookupAbsent(head, "streaming");
    LookupAbsent(tail, "model");
    LookupAbsent(tail, "streaming");
    LookupAbsent(m, "streaming");
    LookupAbsent(st, "model");
    if Truthy(model) {
      assert m[1..] == [];
    }
    if streaming {
      assert st[1..] == [];
    }
  }

  /** A lookup in four pieces laid end to end. */
  lemma LookupIn(a: seq<(string, string)>, b: seq<(string, string)>, c: seq<(string, string)>, d: seq<(string, string)>, key: string)
    ensures Lookup(a + (b + (c + d)), key)
      == if Lookup(a, key).Some? then Lookup(a, key)
         else if Lookup(b, key).Some? then Lookup(b, key)
         else if Lookup(c, key).Some? then Lookup(c, key)
         else Lookup(d, key)
  {
    LookupAppend(c, d, key);
    LookupAppend(b, c + d, key);
    LookupAppend(a, b + (c + d), key);
  }

  lemma {:induction false} LookupAbsent(params: seq<(string, string)>, key: string)
    requires forall i :: 0 <= i < |params| ==> params[i].0 != key
    ensures Lookup(params, key) == None
  {
    if params != [] {
      LookupAbsent(params[1..], key);
    }
  }

  lemma {:induction false} LookupAppend(a: seq<(string, string)>, b: seq<(string, string)>, key: string)
    ensures Lookup(a + b, key) == if Lookup(a, key).Some? then Lookup(a, key) else Lookup(b, key)
  {
    if a != [] {
      assert (a + b)[0] == a[0] && (a + b)[1..] == a[1..] + b;
      LookupAppend(a[1..], b, key);
    } else {
      assert a + b == b;
    }
  }

  /** The three fields stream events write. */
  datatype View = View(progress: JsValue, response: JsValue, contextId: JsValue)

  /** The state after one line of the stream. `progress` replaces the
      progress; `complete` replaces the response and then the context id
      with the `contextId` of the same data, unless reading it throws (data
      `null` or `undefined`), in which case the response is already
      replaced and the id is kept. Every other line leaves the state as it
      was. */
  function HandleLine(v: View, line: string, parse: string -> Option<JsValue>): (r: View)
    ensures EventData(line, parse, "progress").Some? ==> r == v.(progress := EventData(line, parse, "progress").value)
    ensures EventData(line, parse, "complete").Some? ==>
      var data := EventData(line, parse, "complete").value;
      r == v.(response := data, contextId := if Prop(data, "contextId").Some? then Prop(data, "contextId").value else v.contextId)
    ensures EventData(line, parse, "progress").None? && EventData(line, parse, "complete").None? ==> r == v
  {
    match EventOf(line, parse)
    case None => v
    case Some(e) =>
      match Prop(e, "type")
      case None => v
      case Some(t) =>
        if t == Str("progress") then v.(progress := Prop(e, "data").value)
        else if t == Str("complete") then
          var data := Prop(e, "data").value;
          match Prop(data, "contextId")
          case None => v.(response := data)
          case Some(id) => v.(response := data, contextId := id)
        else v
  }

  function Step(parse: string -> Option<JsValue>): (View, string) -> View {
    (v: View, line: string) => HandleLine(v, line, parse)
  }

  /** A `complete` event sets the response and the context id from the same
      payload. */
  lemma CompleteSetsBoth(v: View, p: string, parse: string -> Option<JsValue>, data: map<string, JsValue>)
    requires parse(p) == Some(Obj(map["type" := Str("complete"), "data" := Obj(data)]))
    ensures HandleLine(v, DataPrefix + p, parse).response == Obj(data)
    ensures HandleLine(v, DataPrefix + p, parse).contextId == if "contextId" in data then data["contextId"] else Undefined
  {
    PayloadIffPrefixed(DataPrefix + p, p);
  }

  /** The message of the TypeError V8 raises for `null.key`. */
  function NullReadMessage(key: string): string {
    "Cannot read properties of null (reading '" + key + "')"
  }

  const ErrorPrefix := "Failed to generate portfolio: "

  /** `messages[stage] || 'Processing...'` as written: the stage is turned
      into a property name with `String(stage)`, and a name inherited from
      `Object.prototype` finds a function instead of a message. */
  const ProgressMessages: map<string, string> := map[
    "initializing" := "Setting up generation parameters...",
    "templates_loaded" := "Loading portfolio templates...",
    "ai_content_generated" := "AI is enhancing your content...",
    "templates_compiled" := "Compiling your portfolio...",
    "complete" := "Portfolio generation complete!"]

  const Processing := "Processing..."

  function GetProgressMessageAsWritten(stage: JsValue): (r: Member)
    ensures r.Own? || r.Inherited?
    ensures r.Own? ==> r.value != ""
    ensures r.Inherited? ==> ToJsString(stage) in ObjectPrototypeMembers
  {
    MessageAsWritten(ToJsString(stage))
  }

  function MessageAsWritten(key: string): (r: Member)
    ensures r.Own? || r.Inherited?
  {
    match Index(ProgressMessages, key)
    case Own(m) => Own(if m != "" then m else Processing)
    case Inherited(k) => Inherited(k)
    case Absent => Own(Processing)
  }

  /** `getProgressMessage`, reading own properties of the table only: the
      fixed message of each of the five stages, and `Processing...` for any
      other. */
  function GetProgressMessage(stage: JsValue): (r: string)
    ensures ToJsString(stage) in ProgressMessages ==> r == ProgressMessages[ToJsString(stage)]
    ensures ToJsString(stage) !in ProgressMessages ==> r == Processing
  {
    var key := ToJsString(stage);
    if key in ProgressMessages then ProgressMessages[key] else Processing
  }

  /** The stage `toString` shows no message: the table yields
      `Object.prototype.toString`, a function. */
  lemma ProgressMessageOfInheritedName()
    ensures GetProgressMessageAsWritten(Str("toString")).Inherited?
    ensures GetProgressMessage(Str("toString")) == Processing
  {
  }

  /** Wherever the as-written lookup gives text, the corrected one gives the
      same text, and it gives text for every stage. */
  lemma ProgressMessageAgrees(stage: JsValue)
    ensures GetProgressMessageAsWritten(stage).Own? ==> GetProgressMessageAsWritten(stage).value == GetProgressMessage(stage)
    ensures GetProgressMessageAsWritten(stage).Inherited? <==> ToJsString(stage) in ObjectPrototypeMembers
  {
    MessageAgrees(ToJsString(stage));
  }

  lemma MessageAgrees(key: string)
    ensures MessageAsWritten(key).Own? ==> MessageAsWritten(key).value == (if key in ProgressMessages then ProgressMessages[key] else Processing)
    ensures MessageAsWritten(key).Inherited? <==> key in ObjectPrototypeMembers
  {
    assert forall k :: k in ProgressMessages ==> k !in ObjectPrototypeMembers;
  }

  /** `s.replace('_', ' ')`: a string pattern replaces its first occurrence
      only. */
  function ReplaceFirstUnderscore(s: string): (r: string)
    ensures |r| == |s|
    ensures forall i :: 0 <= i < |s| ==> (r[i] != s[i] <==> s[i] == '_' && '_' !in s[..i])
    ensures forall i :: 0 <= i < |s| && r[i] != s[i] ==> r[i] == ' '
  {
    if s == [] then []
    else if s[0] == '_' then
      assert forall i :: 1 <= i < |s| ==> '_' in s[..i] by {
        forall i | 1 <= i < |s| ensures '_' in s[..i] { assert s[..i][0] == '_'; }
      }
      " " + s[1..]
    else
      var rest := ReplaceFirstUnderscore(s[1..]);
      assert forall i :: 1 <= i < |s| ==> s[1..][i - 1] == s[i] && s[..i] == [s[0]] + s[1..][..i - 1];
      [s[0]] + rest
  }

  /** The stage label of the progress panel:
      `progress.stage?.replace('_', ' ') || 'Processing...'`. `None` is the
      TypeError of a stage that is neither a string nor `null`/`undefined`
      (it has no `replace`), or of a progress value that is itself `null`;
      the page shows the panel only for a truthy progress, so that last case
      is never rendered. */
  function StageLabel(progress: JsValue): (r: Option<string>)
    ensures r.None? <==> Prop(progress, "stage").None? || !(Prop(progress, "stage").value.Str? || Prop(progress, "stage").value.Undefined? || Prop(progress, "stage").value.Null?)
    ensures r.Some? && Prop(progress, "stage").value.Str? && Prop(progress, "stage").value.s != [] ==>
      r.value == ReplaceFirstUnderscore(Prop(progress, "stage").value.s)
    ensures r.Some? && !(Prop(progress, "stage").value.Str? && Prop(progress, "stage").value.s != []) ==> r.value == Processing
  {
    match Prop(progress, "stage")
    case None => None
    case Some(stage) =>
      match stage
      case Undefined => Some(Processing)
      case Null => Some(Processing)
      case Str(s) =>
        var shown := ReplaceFirstUnderscore(s);
        Some(if shown != [] then shown else Processing)
      case _ => None
  }

  /** `availableProviders.find(p => p.name === selectedProvider)`; the
      search throws on a `null` record. Values are compared structurally. */
  function FindByName(items: seq<JsValue>, name: JsValue): (r: ProviderChoice.Found)
    ensures r.Found? ==> exists k :: 0 <= k < |items| && r.value == items[k] && Prop(items[k], "name") == Some(name)
    ensures r.NotFound? ==> forall i :: 0 <= i < |items| ==> Prop(items[i], "name").Some? && Prop(items[i], "name").value != name
  {
    if items == [] then ProviderChoice.NotFound
    else match Prop(items[0], "name")
      case None => ProviderChoice.Threw
      case Some(n) =>
        if n == name then ProviderChoice.Found(items[0])
        else
          var rest := FindByName(items[1..], name);
          assert forall i :: 1 <= i < |items| ==> items[i] == items[1..][i - 1];
          assert rest.Found? ==> exists k :: 0 <= k < |items| && rest.value == items[k] && Prop(items[k], "name") == Some(name) by {
            if rest.Found? {
              var k :| 0 <= k < |items[1..]| && rest.value == items[1..][k] && Prop(items[1..][k], "name") == Some(name);
              assert items[k + 1] == items[1..][k];
            }
          }
          rest
  }

  /** Whether the Generate button is disabled: while generating, with no
      provider selected, or when the selected provider lists models and none
      is selected. `None` is the render error of a provider list that is not
      an array or a search that throws. */
  function GenerateDisabled(isGenerating: bool, provider: JsValue, model: JsValue, providers: JsValue): (r: Option<bool>)
    ensures isGenerating || !Truthy(provider) ==> r == Some(true)
    ensures r == Some(true) && !isGenerating && Truthy(provider) ==> !Truthy(model)
    ensures r.None? <==> !isGenerating && Truthy(provider) && (!providers.Arr? || FindByName(providers.items, provider).Threw?)
    ensures !isGenerating && Truthy(provider) && providers.Arr? && FindByName(providers.items, provider).NotFound? ==> r == Some(false)
  {
    if isGenerating || !Truthy(provider) then Some(true)
    else if !providers.Arr? then None
    else match FindByName(providers.items, provider)
      case Threw => None
      case NotFound => Some(false)
      case Found(p) => Some(Truthy(Prop(p, "models").value) && !Truthy(model))
  }

  /** When the selected provider's record lists no models, a selected
      provider is enough to enable generation; when it does, a model must be
      chosen too. */
  lemma DisabledNeedsModelOnlyWithModels(provider: JsValue, model: JsValue, items: seq<JsValue>, k: int)
    requires Truthy(provider) && 0 <= k < |items|
    requires forall i :: 0 <= i < k ==> Prop(items[i], "name").Some? && Prop(items[i], "name").value != provider
    requires Prop(items[k], "name") == Some(provider)
    ensures GenerateDisabled(false, provider, model, Arr(items)) == Some(Truthy(Prop(items[k], "models").value) && !Truthy(model))
  {
    FindFirstName(items, provider, k);
  }

  lemma {:induction false} FindFirstName(items: seq<JsValue>, name: JsValue, k: int)
    requires 0 <= k < |items|
    requires forall i :: 0 <= i < k ==> Prop(items[i], "name").Some? && Prop(items[i], "name").value != name
    requires Prop(items[k], "name") == Some(name)
    ensures FindByName(items, name) == ProviderChoice.Found(items[k])
  {
    if k > 0 {
      assert forall i :: 0 <= i < k - 1 ==> items[1..][i] == items[i + 1];
      FindFirstName(items[1..], name, k - 1);
    }
  }

  /** The message `generateWithStreaming` throws, if any. */
  function StreamThrown(reply: StreamReply): (r: Option<string>)
    ensures r.None? <==> reply.Chunks?
  {
    match reply
    case StreamRejected(m) => Some(m)
    case StreamNotOk => Some("Failed to start streaming generation")
    case NoReader => Some("No response body reader available")
    case Chunks(_) => None
  }

  /** The message `generateWithoutStreaming` throws, if any: a rejected
      request's; the parse error of a body that is not JSON; for a status
      that is not ok, the body's `message` or a fixed text (and the
      TypeError of reading it from `null`); and the TypeError of reading
      `contextId` from a `null` result. */
  function JsonThrown(reply: JsonReply): (r: Option<string>)
    ensures r.None? <==> reply.Reply? && reply.ok && reply.body.Ok? && Prop(reply.body.value, "contextId").Some?
    ensures reply.Reply? && !reply.ok && reply.body.Ok? ==>
      var message := Prop(reply.body.value, "message");
      message.Some? && !Truthy(message.value) ==> r == Some("Failed to generate portfolio")
  {
    match reply
    case Rejected(m) => Some(m)
    case Reply(ok, body) =>
      match body
      case Err(m) => Some(m)
      case Ok(value) =>
        if !ok then
          match Prop(value, "message")
          case None => Some(NullReadMessage("message"))
          case Some(m) => Some(ToJsString(Or(m, Str("Failed to generate portfolio"))))
        else if Prop(value, "contextId").None? then Some(NullReadMessage("contextId"))
        else None
  }

  /** The view after `generateWithoutStreaming`: a parsed reply of an ok
      response becomes the response, and its `contextId` the context id
      when reading it does not throw. */
  function JsonView(v: View, reply: JsonReply): View {
    if reply.Reply? && reply.ok && reply.body.Ok? then
      var value := reply.body.value;
      v.(response := value, contextId := if Prop(value, "contextId").Some? then Prop(value, "contextId").value else v.contextId)
    else v
  }

  class Page {
    var selectedStyle: string
    var selectedProvider: JsValue
    var selectedModel: JsValue
    var availableProviders: JsValue
    var isGenerating: bool
    var generationResponse: JsValue
    var error: Option<string>
    var generationProgress: JsValue
    var temperature: string
    var maxTokens: int
    var contextId: JsValue

    function ViewOf(): View
      reads this
    {
      View(generationProgress, generationResponse, contextId)
    }

    function SelectionOf(): ProviderChoice.Selection
      reads this
    {
      ProviderChoice.Selection(availableProviders, selectedProvider, selectedModel)
    }

    /** The settings a request is built from: style, temperature text and
        token limit. */
    function SettingsOf(): (string, string, int)
      reads this
    {
      (selectedStyle, temperature, maxTokens)
    }

    /** The page as first rendered: `openai`, no model, style `minimal`. */
    constructor ()
      ensures SelectionOf() == ProviderChoice.Selection(Arr([]), Str("openai"), Str(""))
      ensures selectedStyle == "minimal" && temperature == "0.7" && maxTokens == 4096
      ensures !isGenerating && ViewOf() == View(Null, Null, Null) && error.None?
    {
      selectedStyle := "minimal";
      selectedProvider := Str("openai");
      selectedModel := Str("");
      availableProviders := Arr([]);
      isGenerating := false;
      generationResponse := Null;
      error := None;
      generationProgress := Null;
      temperature := "0.7";
      maxTokens := 4096;
      contextId := Null;
    }

    /** The `disabled` attribute of the Generate button. */
    function IsGenerateDisabled(): Option<bool>
      reads this
    {
      GenerateDisabled(isGenerating, selectedProvider, selectedModel, availableProviders)
    }

    /** The query string of a request from the current settings. */
    function Params(streaming: bool): seq<(string, string)>
      reads this
    {
      QueryParams(selectedProvider, selectedStyle, selectedModel, streaming, temperature, IntToString(maxTokens))
    }

    /** The fetch-providers effect on mount. */
    method FetchProviders(reply: Option<JsValue>)
      modifies this
      ensures SelectionOf() == ProviderChoice.FetchProviders(old(SelectionOf()), reply)
      ensures ViewOf() == old(ViewOf()) && isGenerating == old(isGenerating) && error == old(error)
      ensures SettingsOf() == old(SettingsOf())
    {
      var s := ProviderChoice.FetchProviders(SelectionOf(), reply);
      availableProviders := s.providers;
      selectedProvider := s.provider;
      selectedModel := s.model;
    }

    /** The body of the per-line loop: a `data: ` line whose payload parses
        is dispatched on its `type`. */
    method HandleStreamLine(line: string, parse: string -> Option<JsValue>)
      modifies this
      ensures ViewOf() == HandleLine(old(ViewOf()), line, parse)
      ensures Rest() == old(Rest())
    {
      if StartsWith(line, "data: ") {
        var event := parse(line[6..]);
        if event.Some? {
          var kind := Prop(event.value, "type");
          if kind == Some(Str("progress")) {
            generationProgress := Prop(event.value, "data").value;
          } else if kind == Some(Str("complete")) {
            var data := Prop(event.value, "data").value;
            generationResponse := data;
            var id := Prop(data, "contextId");
            if id.Some? {
              contextId := id.value;
            }
          }
        }
      }
    }

    /** Everything a stream event cannot change. */
    ghost function Rest(): (ProviderChoice.Selection, (string, string, int), bool, Option<string>)
      reads this
    {
      (SelectionOf(), SettingsOf(), isGenerating, error)
    }

    /** One chunk of the stream: appended to the buffer, the lines it ends
        handled in order, and the text after the last `\n` returned as the
        new buffer. */
    method HandleChunk(buffer: string, chunk: string, parse: string -> Option<JsValue>) returns (rest: string)
      modifies this
      ensures rest == Tail(buffer + chunk)
      ensures ViewOf() == Fold(old(ViewOf()), CompleteLines(buffer + chunk), Step(parse))
      ensures Rest() == old(Rest())
    {
      var text := buffer + chunk;
      var parts := Split(text, '\n');
      var lines := parts[..|parts| - 1];
      rest := parts[|parts| - 1];
      ghost var before := ViewOf();
      var j := 0;
      while j < |lines|
        invariant 0 <= j <= |lines|
        invariant ViewOf() == Fold(before, lines[..j], Step(parse))
        invariant Rest() == old(Rest())
      {
        var line := lines[j];
        HandleStreamLine(line, parse);
        assert lines[..j + 1][..j] == lines[..j];
        j := j + 1;
      }
      assert lines[..|lines|] == lines;
    }

    /** `generateWithStreaming`: the query it sends and the message it
        throws, if any. */
    method GenerateWithStreaming(reply: StreamReply, parse: string -> Option<JsValue>)
      returns (sent: seq<(string, string)>, thrown: Option<string>)
      modifies this
      ensures sent == old(Params(true))
      ensures thrown == StreamThrown(reply)
      ensures ViewOf() == if reply.Chunks? then Fold(old(ViewOf()), CompleteLines(Concat(reply.chunks)), Step(parse)) else old(ViewOf())
      ensures SelectionOf() == old(SelectionOf()) && SettingsOf() == old(SettingsOf())
      ensures isGenerating == old(isGenerating) && error == old(error)
    {
      sent := Params(true);
      match reply {
        case StreamRejected(m) => return sent, Some(m);
        case StreamNotOk => return sent, Some("Failed to start streaming generation");
        case NoReader => return sent, Some("No response body reader available");
        case Chunks(chunks) =>
          ghost var v0 := ViewOf();
          var buffer := "";
          var i := 0;
          while i < |chunks|
            invariant 0 <= i <= |chunks|
            invariant buffer == Tail(Concat(chunks[..i]))
            invariant ViewOf() == Fold(v0, CompleteLines(Concat(chunks[..i])), Step(parse))
            invariant Rest() == old(Rest())
          {
            ghost var text := Concat(chunks[..i]);
            buffer := HandleChunk(buffer, chunks[i], parse);
            assert Concat(chunks[..i + 1]) == text + chunks[i] by {
              assert chunks[..i + 1][..i] == chunks[..i];
            }
            FeedChunk(text, chunks[i]);
            FoldAppend(v0, CompleteLines(text), CompleteLines(Tail(text) + chunks[i]), Step(parse));
            i := i + 1;
          }
          assert chunks[..|chunks|] == chunks;
          return sent, None;
      }
    }

    /** `generateWithoutStreaming`: the query it sends and the message it
        throws, if any. A failed response's message is the `message` of its
        JSON body or a fixed text; a parsed reply becomes the response and
        then gives the context id. */
    method GenerateWithoutStreaming(reply: JsonReply) returns (sent: seq<(string, string)>, thrown: Option<string>)
      modifies this
      ensures sent == old(Params(false))
      ensures thrown == JsonThrown(reply)
      ensures ViewOf() == JsonView(old(ViewOf()), reply)
      ensures SelectionOf() == old(SelectionOf()) && SettingsOf() == old(SettingsOf())
      ensures isGenerating == old(isGenerating) && error == old(error)
    {
      sent := Params(false);
      match reply {
        case Rejected(m) => return sent, Some(m);
        case Reply(ok, body) =>
          match body {
            case Err(m) => return sent, Some(m);
            case Ok(value) =>
              if !ok {
                match Prop(value, "message") {
                  case None => return sent, Some(NullReadMessage("message"));
                  case Some(m) => return sent, Some(ToJsString(Or(m, Str("Failed to generate portfolio"))));
                }
              }
              generationResponse := value;
              match Prop(value, "contextId") {
                case None => return sent, Some(NullReadMessage("contextId"));
                case Some(id) =>
                  contextId := id;
                  return sent, None;
              }
          }
      }
    }

    /** `generatePortfolio`: progress, response and error are cleared; a
        thrown message is shown after `Failed to generate portfolio: `; and
        `isGenerating` is false again on every exit. */
    method GeneratePortfolio(useStreaming: bool, stream: StreamReply, reply: JsonReply, parse: string -> Option<JsValue>)
      returns (sent: seq<(string, string)>)
      modifies this
      ensures !isGenerating
      ensures sent == old(Params(useStreaming))
      ensures var thrown := if useStreaming then StreamThrown(stream) else JsonThrown(reply);
        error == if thrown.Some? then Some(ErrorPrefix + thrown.value) else None
      ensures useStreaming ==> (error.None? <==> stream.Chunks?)
      ensures useStreaming && stream.Chunks? ==>
        ViewOf() == Fold(View(Null, Null, old(contextId)), CompleteLines(Concat(stream.chunks)), Step(parse))
      ensures useStreaming && !stream.Chunks? ==> ViewOf() == View(Null, Null, old(contextId))
      ensures !useStreaming ==> ViewOf() == JsonView(View(Null, Null, old(contextId)), reply)
      ensures SelectionOf() == old(SelectionOf()) && SettingsOf() == old(SettingsOf())
    {
      isGenerating := true;
      error := None;
      generationResponse := Null;
      generationProgress := Null;
      var thrown: Option<string>;
      if useStreaming {
        sent, thrown := GenerateWithStreaming(stream, parse);
      } else {
        sent, thrown := GenerateWithoutStreaming(reply);
      }
      if thrown.Some? {
        error := Some(ErrorPrefix + thrown.value);
      }
      isGenerating := false;
    }
  }
}
