/** The line framing both generation pages apply to the event stream: each
    decoded chunk is appended to a buffer, the buffer is split at `\n`, every
    piece but the last is handled as a line, and the last piece becomes the
    new buffer. Only lines starting with `data: ` carry an event, whose
    payload is the rest of the line. The framing is stated here on the whole
    text received so far; the pages' loops are proved against it. */
module EventStream {
  import opened Wrappers
  import opened Text
  import opened Js

  /** The chunks in arrival order, as one text. */
  function Concat(chunks: seq<string>): string
  {
    if chunks == [] then [] else Concat(chunks[..|chunks| - 1]) + chunks[|chunks| - 1]
  }

  /** The lines of `text` that a `\n` has ended. */
  function CompleteLines(text: string): (lines: seq<string>)
    ensures forall i :: 0 <= i < |lines| ==> '\n' !in lines[i]
  {
    var parts := Split(text, '\n');
    parts[..|parts| - 1]
  }

  /** What follows the last `\n`: the buffer kept for the next chunk. */
  function Tail(text: string): (tail: string)
    ensures '\n' !in tail
  {
    var parts := Split(text, '\n');
    parts[|parts| - 1]
  }

  /** Each line followed by the `\n` that ended it. */
  function Terminated(lines: seq<string>): string
  {
    if lines == [] then [] else lines[0] + "\n" + Terminated(lines[1..])
  }

  lemma {:induction false} JoinIsTerminated(lines: seq<string>, tail: string)
    ensures Join(lines + [tail], "\n") == Terminated(lines) + tail
  {
    if lines != [] {
      assert (lines + [tail])[1..] == lines[1..] + [tail];
      JoinIsTerminated(lines[1..], tail);
    }
  }

  /** Nothing is lost or reordered: the ended lines, each with its `\n`,
      followed by the buffer, are exactly the text received. */
  lemma {:induction false} FramingKeepsEverything(text: string)
    ensures Terminated(CompleteLines(text)) + Tail(text) == text
  {
    SplitIsLinesAndTail(text);
    SplitJoinsBack(text, '\n');
    JoinIsTerminated(CompleteLines(text), Tail(text));
  }

  lemma SplitIsLinesAndTail(text: string)
    ensures Split(text, '\n') == CompleteLines(text) + [Tail(text)]
  {
    var parts := Split(text, '\n');
    assert parts == parts[..|parts| - 1] + [parts[|parts| - 1]];
  }

  lemma {:induction false} JoinThenSeparator(ps: seq<string>, sep: char, y: string)
    requires |ps| >= 1
    requires forall i :: 0 <= i < |ps| ==> sep !in ps[i]
    ensures Split(Join(ps, [sep]) + [sep] + y, sep) == ps + Split(y, sep)
  {
    if |ps| == 1 {
      SplitAtFirstSeparator(ps[0], sep, y);
    } else {
      assert forall i :: 0 <= i < |ps[1..]| ==> ps[1..][i] == ps[i + 1];
      JoinThenSeparator(ps[1..], sep, y);
      JoinThenSeparatorStep(ps, sep, y);
    }
  }

  /** One piece more in front of the pieces already split off. */
  lemma {:induction false} JoinThenSeparatorStep(ps: seq<string>, sep: char, y: string)
    requires |ps| > 1
    requires forall i :: 0 <= i < |ps| ==> sep !in ps[i]
    requires Split(Join(ps[1..], [sep]) + [sep] + y, sep) == ps[1..] + Split(y, sep)
    ensures Split(Join(ps, [sep]) + [sep] + y, sep) == ps + Split(y, sep)
  {
    var rest := Join(ps[1..], [sep]);
    var z := rest + [sep] + y;
    var whole := Join(ps, [sep]) + [sep] + y;
    var parts := Split(y, sep);
    assert Join(ps, [sep]) == ps[0] + [sep] + rest;
    Regroup(ps[0], [sep], rest, y);
    assert whole == ps[0] + [sep] + z;
    assert sep !in ps[0];
    SplitAtFirstSeparator(ps[0], sep, z);
    assert Split(whole, sep) == [ps[0]] + (ps[1..] + parts);
    assert [ps[0]] + (ps[1..] + parts) == ([ps[0]] + ps[1..]) + parts;
    assert [ps[0]] + ps[1..] == ps;
  }

  lemma Regroup(a: string, s: string, b: string, c: string)
    ensures (a + s + b) + s + c == a + s + (b + s + c)
  {
  }

  lemma {:induction false} JoinSnoc(ps: seq<string>, sep: string, t: string)
    requires ps != []
    ensures Join(ps + [t], sep) == Join(ps, sep) + sep + t
  {
    if |ps| > 1 {
      assert (ps + [t])[1..] == ps[1..] + [t];
      JoinSnoc(ps[1..], sep, t);
    }
  }

  /** Feeding one more chunk: the lines it ends are the lines ended in the
      old buffer followed by the chunk, and the new buffer is what follows
      the last `\n` there. So splitting chunk by chunk frames the text as
      splitting it whole would. */
  lemma {:induction false} FeedChunk(text: string, chunk: string)
    ensures CompleteLines(text + chunk) == CompleteLines(text) + CompleteLines(Tail(text) + chunk)
    ensures Tail(text + chunk) == Tail(Tail(text) + chunk)
  {
    var lines := CompleteLines(text);
    var tail := Tail(text);
    TextIsLinesAndTail(text);
    if lines == [] {
      assert text == tail;
      assert lines + CompleteLines(tail + chunk) == CompleteLines(tail + chunk);
    } else {
      JoinSnoc(lines, "\n", tail);
      var whole := text + chunk;
      assert whole == Join(lines, ['\n']) + ['\n'] + (tail + chunk);
      JoinThenSeparator(lines, '\n', tail + chunk);
      LinesOfSplit(whole, lines, Split(tail + chunk, '\n'));
      SplitIsLinesAndTail(tail + chunk);
    }
  }

  lemma TextIsLinesAndTail(text: string)
    ensures text == Join(CompleteLines(text) + [Tail(text)], "\n")
  {
    SplitIsLinesAndTail(text);
    SplitJoinsBack(text, '\n');
  }

  /** Reading the ended lines and the buffer off a split. */
  lemma LinesOfSplit(text: string, lines: seq<string>, more: seq<string>)
    requires |more| >= 1 && Split(text, '\n') == lines + more
    ensures CompleteLines(text) == lines + more[..|more| - 1]
    ensures Tail(text) == more[|more| - 1]
  {
    assert (lines + more)[..|lines + more| - 1] == lines + more[..|more| - 1];
  }

  /** Text after the last `\n` when the stream ends is never handled: it
      ends no line. */
  lemma UnterminatedTextIgnored(text: string, extra: string)
    requires '\n' !in extra
    ensures CompleteLines(text + extra) == CompleteLines(text)
  {
    FeedChunk(text, extra);
    assert '\n' !in Tail(text) + extra;
    SplitNoSeparator(Tail(text) + extra, '\n');
  }

  const DataPrefix := "data: "

  /** `line.startsWith('data: ') ? line.slice(6) : none` */
  function Payload(line: string): Option<string> {
    if StartsWith(line, DataPrefix) then Some(line[|DataPrefix|..]) else None
  }

  /** The event a line carries: its payload, parsed with `JSON.parse`
      (`parse`), when the line has one. */
  function EventOf(line: string, parse: string -> Option<JsValue>): (r: Option<JsValue>)
    ensures r.Some? ==> Payload(line).Some? && parse(Payload(line).value) == r
    ensures Payload(line).Some? ==> r == parse(Payload(line).value)
  {
    match Payload(line)
    case None => None
    case Some(p) => parse(p)
  }

  /** `eventData.data` of the line's event when `eventData.type === kind`,
      and None when the line carries no such event (or reading `type`
      throws). */
  function EventData(line: string, parse: string -> Option<JsValue>, kind: string): (r: Option<JsValue>)
    ensures r.Some? <==> EventOf(line, parse).Some? && Prop(EventOf(line, parse).value, "type") == Some(Str(kind))
    ensures r.Some? ==> r == Prop(EventOf(line, parse).value, "data")
  {
    match EventOf(line, parse)
    case None => None
    case Some(e) => if Prop(e, "type") == Some(Str(kind)) then Prop(e, "data") else None
  }

  /** One event is of one kind only. */
  lemma EventKindsExclusive(line: string, parse: string -> Option<JsValue>, a: string, b: string)
    requires a != b
    ensures EventData(line, parse, a).None? || EventData(line, parse, b).None?
  {
  }

  /** A line carries a payload exactly when it is `data: ` followed by that
      payload. */
  lemma PayloadIffPrefixed(line: string, p: string)
    ensures Payload(line) == Some(p) <==> line == DataPrefix + p
  {
    if line == DataPrefix + p {
      assert line[..|DataPrefix|] == DataPrefix;
      assert line[|DataPrefix|..] == p;
    }
    if Payload(line) == Some(p) {
      assert line == line[..|DataPrefix|] + line[|DataPrefix|..];
    }
  }

  /** The state after handling the lines in order with `step`. */
  function Fold<S>(s: S, lines: seq<string>, step: (S, string) -> S): S
  {
    if lines == [] then s else step(Fold(s, lines[..|lines| - 1], step), lines[|lines| - 1])
  }

  /** Handling two batches of lines one after the other is handling them
      together. */
  lemma {:induction false} FoldAppend<S>(s: S, a: seq<string>, b: seq<string>, step: (S, string) -> S)
    ensures Fold(s, a + b, step) == Fold(Fold(s, a, step), b, step)
    decreases |b|
  {
    if b == [] {
      assert a + b == a;
    } else {
      assert (a + b)[..|a + b| - 1] == a + b[..|b| - 1];
      FoldAppend(s, a, b[..|b| - 1], step);
    }
  }
}
