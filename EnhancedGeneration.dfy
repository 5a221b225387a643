/** The enhanced generation page: its provider selection, and generation
    either by reading the server's event stream line by line or by one JSON
    reply. Progress and result are the only state a stream event can
    change; an `error` event throws inside the per-line `try`, is caught and
    logged, and reading goes on. */
module EnhancedGeneration {
  import opened Wrappers
  import opened Js
  import opened Text
  import opened EventStream
  import opened Fetch
  import ProviderChoice

  /** The two fields stream events write. */
  datatype View = View(progress: JsValue, result: JsValue)

  /** The state after one line of the stream: a `progress` event replaces
      the progress and a `complete` event the result, each with the event's
      `data`; a line without an event, an event whose `type` cannot be read,
      an `error` event and an event of any other type leave the state as it
      was. */
  function HandleLine(v: View, line: string, parse: string -> Option<JsValue>): (r: View)
    ensures EventData(line, parse, "progress").Some? ==> r == v.(progress := EventData(line, parse, "progress").value)
    ensures EventData(line, parse, "complete").Some? ==> r == v.(result := EventData(line, parse, "complete").value)
    ensures EventData(line, parse, "progress").None? && EventData(line, parse, "complete").None? ==> r == v
  {
    match EventOf(line, parse)
    case None => v
    case Some(e) =>
      match Prop(e, "type")
      case None => v
      case Some(t) =>
        if t == Str("progress") then v.(progress := Prop(e, "data").value)
        else if t == Str("complete") then v.(result := Prop(e, "data").value)
        else v
  }

  function Step(parse: string -> Option<JsValue>): (View, string) -> View {
    (v: View, line: string) => HandleLine(v, line, parse)
  }

  /** An `error` event is swallowed: whatever its data, the page state is
      unchanged and no error message is set. */
  lemma ErrorEventIgnored(v: View, p: string, parse: string -> Option<JsValue>, data: JsValue)
    requires parse(p) == Some(Obj(map["type" := Str("error"), "data" := data]))
    ensures HandleLine(v, DataPrefix + p, parse) == v
  {
    PayloadIffPrefixed(DataPrefix + p, p);
  }

  /** Line `k` carries a `progress` event. */
  predicate ProgressAt(lines: seq<string>, parse: string -> Option<JsValue>, k: int) {
    0 <= k < |lines| && EventData(lines[k], parse, "progress").Some?
  }

  /** Line `k` carries the last `progress` event of the lines. */
  predicate LastProgressAt(lines: seq<string>, parse: string -> Option<JsValue>, k: int) {
    ProgressAt(lines, parse, k) && forall j :: k < j < |lines| ==> !ProgressAt(lines, parse, j)
  }

  /** After a stream, the progress shown is the data of the last `progress`
      event among the ended lines, or the old progress when there is none. */
  lemma {:induction false} LastProgressWins(v: View, lines: seq<string>, parse: string -> Option<JsValue>)
    ensures (forall k :: !ProgressAt(lines, parse, k)) ==> Fold(v, lines, Step(parse)).progress == v.progress
    ensures forall k :: LastProgressAt(lines, parse, k) ==>
      Fold(v, lines, Step(parse)).progress == EventData(lines[k], parse, "progress").value
    decreases |lines|
  {
    if lines != [] {
      var n := |lines| - 1;
      var init := lines[..n];
      var before := Fold(v, init, Step(parse));
      LastProgressWins(v, init, parse);
      assert Fold(v, lines, Step(parse)) == HandleLine(before, lines[n], parse);
      if ProgressAt(lines, parse, n) {
        forall k | LastProgressAt(lines, parse, k)
          ensures k == n
        {
        }
      } else {
        assert HandleLine(before, lines[n], parse).progress == before.progress;
        forall k | 0 <= k < n
          ensures ProgressAt(init, parse, k) == ProgressAt(lines, parse, k)
        {
          assert init[k] == lines[k];
        }
        forall k | LastProgressAt(lines, parse, k)
          ensures LastProgressAt(init, parse, k)
        {
        }
      }
    }
  }

  /** The message `generateWithStreaming` throws, if any. */
  function StreamThrown(reply: StreamReply): (r: Option<string>)
    ensures r.None? <==> reply.Chunks?
  {
    match reply
    case StreamRejected(m) => Some(m)
    case StreamNotOk => Some("Failed to start generation")
    case NoReader => Some("No response reader available")
    case Chunks(_) => None
  }

  /** The message `generateWithoutStreaming` throws, if any: a rejected
      request's, a fixed text for a status that is not ok, and the parse
      error of a body that is not JSON. */
  function JsonThrown(reply: JsonReply): (r: Option<string>)
    ensures r.None? <==> reply.Reply? && reply.ok && reply.body.Ok?
  {
    match reply
    case Rejected(m) => Some(m)
    case Reply(ok, body) =>
      if !ok then Some("Generation failed")
      else if body.Err? then Some(body.error)
      else None
  }

  class Page {
    var providers: JsValue
    var selectedProvider: JsValue
    var selectedModel: JsValue
    var isGenerating: bool
    var generationProgress: JsValue
    var generationResult: JsValue
    var error: Option<string>

    function ViewOf(): View
      reads this
    {
      View(generationProgress, generationResult)
    }

    function SelectionOf(): ProviderChoice.Selection
      reads this
    {
      ProviderChoice.Selection(providers, selectedProvider, selectedModel)
    }

    /** The page as first rendered. */
    constructor ()
      ensures SelectionOf() == ProviderChoice.Selection(Arr([]), Str(""), Str(""))
      ensures !isGenerating && ViewOf() == View(Null, Null) && error.None?
    {
      providers := Arr([]);
      selectedProvider := Str("");
      selectedModel := Str("");
      isGenerating := false;
      generationProgress := Null;
      generationResult := Null;
      error := None;
    }

    /** `fetchProviders` */
    method FetchProviders(reply: Option<JsValue>)
      modifies this
      ensures SelectionOf() == ProviderChoice.FetchProviders(old(SelectionOf()), reply)
      ensures ViewOf() == old(ViewOf()) && isGenerating == old(isGenerating) && error == old(error)
    {
      var s := ProviderChoice.FetchProviders(SelectionOf(), reply);
      providers := s.providers;
      selectedProvider := s.provider;
      selectedModel := s.model;
    }

    /** The body of the per-line loop: a `data: ` line whose payload parses
        is dispatched on its `type`. */
    method HandleStreamLine(line: string, parse: string -> Option<JsValue>)
      modifies this
      ensures ViewOf() == HandleLine(old(ViewOf()), line, parse)
      ensures Rest() == old(Rest())
    {
      if StartsWith(line, "data: ") {
        var event := parse(line[6..]);
        if event.Some? {
          var kind := Prop(event.value, "type");
          if kind == Some(Str("progress")) {
            generationProgress := Prop(event.value, "data").value;
          } else if kind == Some(Str("complete")) {
            generationResult := Prop(event.value, "data").value;
          }
        }
      }
    }

    /** Everything a stream event cannot change. */
    ghost function Rest(): (ProviderChoice.Selection, bool, Option<string>)
      reads this
    {
      (SelectionOf(), isGenerating, error)
    }

    /** One chunk of the stream: appended to the buffer, the lines it ends
        handled in order, and the text after the last `\n` returned as the
        new buffer. */
    method HandleChunk(buffer: string, chunk: string, parse: string -> Option<JsValue>) returns (rest: string)
      modifies this
      ensures rest == Tail(buffer + chunk)
      ensures ViewOf() == Fold(old(ViewOf()), CompleteLines(buffer + chunk), Step(parse))
      ensures Rest() == old(Rest())
    {
      var text := buffer + chunk;
      var parts := Split(text, '\n');
      var lines := parts[..|parts| - 1];
      rest := parts[|parts| - 1];
      ghost var before := ViewOf();
      var j := 0;
      while j < |lines|
        invariant 0 <= j <= |lines|
        invariant ViewOf() == Fold(before, lines[..j], Step(parse))
        invariant Rest() == old(Rest())
      {
        var line := lines[j];
        HandleStreamLine(line, parse);
        assert lines[..j + 1][..j] == lines[..j];
        j := j + 1;
      }
      assert lines[..|lines|] == lines;
    }

    /** `generateWithStreaming`: the message it throws, if any. Each chunk is
        appended to the buffer, the ended lines are handled in order, and
        what follows the last `\n` is kept; the state reached is the
        handling of every line the whole stream ends. */
    method GenerateWithStreaming(reply: StreamReply, parse: string -> Option<JsValue>) returns (thrown: Option<string>)
      modifies this
      ensures thrown == StreamThrown(reply)
      ensures ViewOf() == if reply.Chunks? then Fold(old(ViewOf()), CompleteLines(Concat(reply.chunks)), Step(parse)) else old(ViewOf())
      ensures SelectionOf() == old(SelectionOf()) && isGenerating == old(isGenerating) && error == old(error)
    {
      match reply {
        case StreamRejected(m) => return Some(m);
        case StreamNotOk => return Some("Failed to start generation");
        case NoReader => return Some("No response reader available");
        case Chunks(chunks) =>
          ghost var v0 := ViewOf();
          var buffer := "";
          var i := 0;
          while i < |chunks|
            invariant 0 <= i <= |chunks|
            invariant buffer == Tail(Concat(chunks[..i]))
            invariant ViewOf() == Fold(v0, CompleteLines(Concat(chunks[..i])), Step(parse))
            invariant Rest() == old(Rest())
          {
            ghost var text := Concat(chunks[..i]);
            buffer := HandleChunk(buffer, chunks[i], parse);
            assert Concat(chunks[..i + 1]) == text + chunks[i] by {
              assert chunks[..i + 1][..i] == chunks[..i];
            }
            FeedChunk(text, chunks[i]);
            FoldAppend(v0, CompleteLines(text), CompleteLines(Tail(text) + chunks[i]), Step(parse));
            i := i + 1;
          }
          assert chunks[..|chunks|] == chunks;
          return None;
      }
    }

    /** `generateWithoutStreaming`: the message it throws, if any; a parsed
        reply becomes the result. */
    method GenerateWithoutStreaming(reply: JsonReply) returns (thrown: Option<string>)
      modifies this
      ensures thrown == JsonThrown(reply)
      ensures generationResult == if thrown.None? then reply.body.value else old(generationResult)
      ensures generationProgress == old(generationProgress)
      ensures SelectionOf() == old(SelectionOf()) && isGenerating == old(isGenerating) && error == old(error)
    {
      match reply {
        case Rejected(m) => return Some(m);
        case Reply(ok, body) =>
          if !ok {
            return Some("Generation failed");
          }
          match body {
            case Err(m) => return Some(m);
            case Ok(result) =>
              generationResult := result;
              return None;
          }
      }
    }

    /** `generatePortfolio`: progress, result and error are cleared first;
        a thrown message becomes the error; `isGenerating` is false again on
        every exit. */
    method GeneratePortfolio(useStreaming: bool, stream: StreamReply, reply: JsonReply, parse: string -> Option<JsValue>)
      modifies this
      ensures !isGenerating
      ensures error == if useStreaming then StreamThrown(stream) else JsonThrown(reply)
      ensures useStreaming && stream.Chunks? ==>
        error.None? && ViewOf() == Fold(View(Null, Null), CompleteLines(Concat(stream.chunks)), Step(parse))
      ensures useStreaming && !stream.Chunks? ==> error.Some? && ViewOf() == View(Null, Null)
      ensures !useStreaming ==> generationProgress == Null
      ensures !useStreaming ==> (error.None? <==> reply.Reply? && reply.ok && reply.body.Ok?)
      ensures !useStreaming && error.None? ==> generationResult == reply.body.value
      ensures !useStreaming && error.Some? ==> generationResult == Null
      ensures SelectionOf() == old(SelectionOf())
    {
      isGenerating := true;
      error := None;
      generationResult := Null;
      generationProgress := Null;
      var thrown: Option<string>;
      if useStreaming {
        thrown := GenerateWithStreaming(stream, parse);
      } else {
        thrown := GenerateWithoutStreaming(reply);
      }
      if thrown.Some? {
        error := thrown;
      }
      isGenerating := false;
    }
  }
}
