/** The incremental parser of an OpenAI event stream: how the text is cut into chunks makes no difference. */
module SseParser {
  import opened Contract

  datatype Usage = Usage(promptTokens: Option<nat>, completionTokens: Option<nat>)

  datatype Callback = OnUsage(usage: Usage) | OnToken(token: string)

  /** A payload after JSON parsing: it throws, or carries usage figures and a token, each possibly none. */
  datatype Decoded = Throws | Event(usage: Option<Usage>, token: string)

  /** The callbacks of a stretch of lines, and whether it ended in an error. */
  datatype Trace = Trace(callbacks: seq<Callback>, failed: bool)

  /** The white space that trimming removes. */
  predicate IsSpace(c: char) {
    || '\t' <= c <= '\r' || c == ' ' || c == '\U{A0}' || c == '\U{1680}' || '\U{2000}' <= c <= '\U{200A}'
    || c == '\U{2028}' || c == '\U{2029}' || c == '\U{202F}' || c == '\U{205F}' || c == '\U{3000}' || c == '\U{FEFF}'
  }

  function TrimStart(s: string): string {
    if s != "" && IsSpace(s[0]) then TrimStart(s[1..]) else s
  }

  function TrimEnd(s: string): string {
    if s != "" && IsSpace(s[|s| - 1]) then TrimEnd(s[..|s| - 1]) else s
  }

  function ConsumeLine(decode: string -> Decoded, line: string): Trace {
    var normalized := TrimEnd(TrimStart(line));
    if !("data:" <= normalized) then Trace([], false)
    else
      var payload := TrimStart(normalized[5..]);
      if payload == "" || payload == "[DONE]" then Trace([], false)
      else match decode(payload)
        case Throws => Trace([], true)
        case Event(usage, token) =>
          Trace((if usage.Some? then [OnUsage(usage.value)] else []) + (if token != "" then [OnToken(token)] else []), false)
  }

  /** One trace after another; an error ends it. */
  function Then(first: Trace, rest: Trace): Trace {
    if first.failed then first else Trace(first.callbacks + rest.callbacks, rest.failed)
  }

  function Joined(traces: seq<Trace>): Trace {
    if traces == [] then Trace([], false) else Then(traces[0], Joined(traces[1..]))
  }

  function TracesOf(decode: string -> Decoded, lines: seq<string>): seq<Trace> {
    seq(|lines|, i requires 0 <= i < |lines| => ConsumeLine(decode, lines[i]))
  }

  /** Lines in order, up to and including the first that throws. */
  function Consume(decode: string -> Decoded, lines: seq<string>): Trace {
    Joined(TracesOf(decode, lines))
  }

  /** The lines of a text that are terminated by a line feed, and what follows the last of them. */
  datatype Parts = Parts(complete: seq<string>, tail: string)

  function Split(text: string): Parts {
    if text == "" then Parts([], "") else Prepend(text[0], Split(text[1..]))
  }

  function Prepend(c: char, p: Parts): Parts {
    if c == '\n' then Parts([""] + p.complete, p.tail)
    else if p.complete == [] then Parts([], [c] + p.tail)
    else Parts([[c] + p.complete[0]] + p.complete[1..], p.tail)
  }

  function Finished(decode: string -> Decoded, tail: string): Trace {
    if tail == "" then Trace([], false) else ConsumeLine(decode, tail)
  }

  class OpenAIStreamParser {
    var buffer: string
    var callbacks: seq<Callback>
    const decode: string -> Decoded

    constructor (decode: string -> Decoded)
      ensures buffer == "" && callbacks == [] && this.decode == decode
    {
      buffer, callbacks := "", [];
      this.decode := decode;
    }

    method ConsumeLines(lines: seq<string>) returns (trace: Trace)
      ensures trace == Consume(decode, lines)
    {
      var fired := [];
      var i := 0;
      while i < |lines|
        invariant 0 <= i <= |lines|
        invariant Consume(decode, lines) == Then(Trace(fired, false), Consume(decode, lines[i..]))
      {
        var t := ConsumeLine(decode, lines[i]);
        assert TracesOf(decode, lines[i..])[1..] == TracesOf(decode, lines[i + 1..]);
        fired := fired + t.callbacks;
        if t.failed { return Trace(fired, true); }
        i := i + 1;
      }
      trace := Trace(fired, false);
    }

    /** Feed one chunk; false means that a line threw, and the lines after it are not consumed. */
    method Push(chunk: string) returns (ok: bool)
      modifies this
      ensures var parts := Split(old(buffer) + chunk);
              var t := Consume(decode, parts.complete);
              buffer == parts.tail && callbacks == old(callbacks) + t.callbacks && ok == !t.failed
    {
      buffer := buffer + chunk;
      var lines := Split(buffer);
      buffer := lines.tail;
      var t := ConsumeLines(lines.complete);
      callbacks := callbacks + t.callbacks;
      ok := !t.failed;
    }

    method Finish() returns (ok: bool)
      modifies this
      ensures var t := Finished(decode, old(buffer)); callbacks == old(callbacks) + t.callbacks && ok == !t.failed
      ensures ok ==> buffer == ""
    {
      ok := true;
      if buffer != "" {
        var t := ConsumeLine(decode, buffer);
        callbacks := callbacks + t.callbacks;
        if t.failed { return false; }
      }
      buffer := "";
    }
  }

  // ---- What one line fires ----

  predicate AllSpace(s: string) {
    forall i :: 0 <= i < |s| ==> IsSpace(s[i])
  }

  predicate Trimmed(s: string) {
    s != "" && !IsSpace(s[0]) && !IsSpace(s[|s| - 1])
  }

  /** White space is what the language's own trimming removes: tab to carriage return, space, the Unicode spaces, the
      two separators and the byte order mark. */
  lemma SpacesAreThese(c: char)
    ensures IsSpace(c) <==>
      || c as int in {9, 10, 11, 12, 13, 32, 160, 5760, 8232, 8233, 8239, 8287, 12288, 65279}
      || 8192 <= c as int <= 8202
  {
  }

  lemma {:induction false} TrimStartOf(space: string, s: string)
    requires AllSpace(space) && (s == "" || !IsSpace(s[0]))
    ensures TrimStart(space + s) == s
  {
    if space == "" {
      assert space + s == s;
    } else {
      assert (space + s)[1..] == space[1..] + s;
      TrimStartOf(space[1..], s);
    }
  }

  lemma {:induction false} TrimEndOf(s: string, space: string)
    requires AllSpace(space) && (s == "" || !IsSpace(s[|s| - 1]))
    ensures TrimEnd(s + space) == s
  {
    if space == "" {
      assert s + space == s;
    } else {
      assert (s + space)[..|s + space| - 1] == s + space[..|space| - 1];
      TrimEndOf(s, space[..|space| - 1]);
    }
  }

  /** A `data:` line, with white space around it and before its payload, fires what its payload carries: first the
      usage, then the token, and nothing for what it does not carry.  The end mark fires nothing, and a payload
      that cannot be read is an error without a callback. */
  lemma DataLinesFire(decode: string -> Decoded, before: string, between: string, payload: string, after: string)
    requires AllSpace(before) && AllSpace(between) && AllSpace(after) && Trimmed(payload)
    ensures var fired := ConsumeLine(decode, before + ("data:" + (between + payload)) + after);
            && (payload == "[DONE]" ==> fired == Trace([], false))
            && (payload != "[DONE]" && decode(payload).Throws? ==> fired == Trace([], true))
            && (payload != "[DONE]" && decode(payload).Event? ==>
                  var (usage, token) := (decode(payload).usage, decode(payload).token);
                  && !fired.failed
                  && (usage.None? && token == "" ==> fired.callbacks == [])
                  && (usage.None? && token != "" ==> fired.callbacks == [OnToken(token)])
                  && (usage.Some? && token == "" ==> fired.callbacks == [OnUsage(usage.value)])
                  && (usage.Some? && token != "" ==> fired.callbacks == [OnUsage(usage.value), OnToken(token)]))
  {
    var line := "data:" + (between + payload);
    assert line[0] == 'd' && line[|line| - 1] == payload[|payload| - 1];
    assert before + line + after == before + (line + after) && (line + after)[0] == line[0];
    TrimStartOf(before, line + after);
    TrimEndOf(line, after);
    assert line[..5] == "data:" && line[5..] == between + payload;
    TrimStartOf(between, payload);
  }

  /** A line that is blank, or does not begin with `data:`, or has nothing after it, fires nothing. */
  lemma OtherLinesFireNothing(decode: string -> Decoded, before: string, line: string, after: string)
    requires AllSpace(before) && AllSpace(after)
    requires line == "" || line == "data:" || (Trimmed(line) && !("data:" <= line))
    ensures ConsumeLine(decode, before + line + after) == Trace([], false)
  {
    assert before + line + after == before + (line + after);
    if line == "" {
      assert line + after == after && before + (line + after) == before + after;
      assert AllSpace(before + after);
      TrimStartOf(before + after, "");
      assert (before + after) + "" == before + after;
    } else {
      assert (line + after)[0] == line[0];
      TrimStartOf(before, line + after);
      TrimEndOf(line, after);
      assert line == "data:" ==> line[5..] == "";
    }
  }

  // ---- Chunk independence ----

  /** Push the chunks one after the other and finish, stopping at the first error. */
  function Stream(decode: string -> Decoded, buffer: string, chunks: seq<string>): Trace
    decreases |chunks|
  {
    if chunks == [] then Finished(decode, buffer)
    else
      var parts := Split(buffer + chunks[0]);
      Then(Consume(decode, parts.complete), Stream(decode, parts.tail, chunks[1..]))
  }

  function Concat(chunks: seq<string>): string {
    if chunks == [] then "" else chunks[0] + Concat(chunks[1..])
  }

  /** What the whole text gives. */
  function Whole(decode: string -> Decoded, text: string): Trace {
    Then(Consume(decode, Split(text).complete), Finished(decode, Split(text).tail))
  }

  lemma PrependCommutes(c: char, p: Parts, lines: seq<string>, tail: string)
    requires p.complete != [] || c == '\n'
    ensures Prepend(c, Parts(p.complete + lines, tail)) == Parts(Prepend(c, p).complete + lines, tail)
  {
    if c != '\n' {
      assert (p.complete + lines)[1..] == p.complete[1..] + lines;
    }
  }

  lemma {:induction false} SplitOfConcat(a: string, b: string)
    ensures Split(a + b) == Parts(Split(a).complete + Split(Split(a).tail + b).complete, Split(Split(a).tail + b).tail)
  {
    if a == "" {
      assert a + b == b && "" + b == b;
    } else {
      var (c, p) := (a[0], Split(a[1..]));
      SplitOfConcat(a[1..], b);
      assert (a + b)[1..] == a[1..] + b;
      var rest := Split(p.tail + b);
      if c == '\n' || p.complete != [] {
        PrependCommutes(c, p, rest.complete, rest.tail);
      } else {
        assert p.complete + rest.complete == rest.complete;
        assert ([c] + p.tail + b)[1..] == p.tail + b;
      }
    }
  }

  lemma {:induction false} TailIsWhole(text: string)
    requires Split(text).complete == []
    ensures Split(text).tail == text
  {
    if text != "" {
      assert text == [text[0]] + text[1..];
      TailIsWhole(text[1..]);
    }
  }

  lemma {:induction false} TailHasNoLines(text: string)
    ensures Split(Split(text).tail).complete == []
  {
    if text != "" {
      TailHasNoLines(text[1..]);
      var p := Split(text[1..]);
      if text[0] != '\n' && p.complete == [] {
        assert ([text[0]] + p.tail)[1..] == p.tail;
      }
    }
  }

  lemma ThenAssociates(a: Trace, b: Trace, c: Trace)
    ensures Then(Then(a, b), c) == Then(a, Then(b, c))
  {
  }

  lemma {:induction false} JoinedOfConcat(a: seq<Trace>, b: seq<Trace>)
    ensures Joined(a + b) == Then(Joined(a), Joined(b))
  {
    if a == [] {
      assert a + b == b;
    } else {
      assert (a + b)[1..] == a[1..] + b;
      JoinedOfConcat(a[1..], b);
      ThenAssociates(a[0], Joined(a[1..]), Joined(b));
    }
  }

  lemma ConsumeOfConcat(decode: string -> Decoded, a: seq<string>, b: seq<string>)
    ensures Consume(decode, a + b) == Then(Consume(decode, a), Consume(decode, b))
  {
    JoinedOfConcat(TracesOf(decode, a), TracesOf(decode, b));
    var whole, parts := TracesOf(decode, a + b), TracesOf(decode, a) + TracesOf(decode, b);
    assert |whole| == |parts|;
    forall i | 0 <= i < |whole| ensures whole[i] == parts[i] {
      assert (a + b)[i] == if i < |a| then a[i] else b[i - |a|];
    }
    assert whole == parts;
  }

  lemma WholeOfConcat(decode: string -> Decoded, a: string, b: string)
    ensures Whole(decode, a + b) == Then(Consume(decode, Split(a).complete), Whole(decode, Split(a).tail + b))
  {
    var rest := Split(Split(a).tail + b);
    SplitOfConcat(a, b);
    ConsumeOfConcat(decode, Split(a).complete, rest.complete);
    ThenAssociates(Consume(decode, Split(a).complete), Consume(decode, rest.complete), Finished(decode, rest.tail));
  }

  /** Pushing chunks onto an unfinished line gives what the line with all of them gives. */
  lemma {:induction false} StreamIsWhole(decode: string -> Decoded, buffer: string, chunks: seq<string>)
    requires Split(buffer).complete == []
    ensures Stream(decode, buffer, chunks) == Whole(decode, buffer + Concat(chunks))
    decreases |chunks|
  {
    if chunks == [] {
      assert buffer + Concat(chunks) == buffer;
      TailIsWhole(buffer);
    } else {
      TailHasNoLines(buffer + chunks[0]);
      StreamIsWhole(decode, Split(buffer + chunks[0]).tail, chunks[1..]);
      FirstChunk(decode, buffer, chunks[0], Concat(chunks[1..]));
    }
  }

  lemma FirstChunk(decode: string -> Decoded, buffer: string, chunk: string, rest: string)
    ensures var parts := Split(buffer + chunk);
            Whole(decode, buffer + (chunk + rest)) == Then(Consume(decode, parts.complete), Whole(decode, parts.tail + rest))
  {
    assert buffer + (chunk + rest) == (buffer + chunk) + rest;
    WholeOfConcat(decode, buffer + chunk, rest);
  }

  /** For every way of cutting a text into chunks, the callbacks are those of the whole text pushed at
      once, up to and including the first line that throws. */
  lemma ChunksDoNotMatter(decode: string -> Decoded, chunks: seq<string>)
    ensures Stream(decode, "", chunks) == Stream(decode, "", [Concat(chunks)])
  {
    StreamIsWhole(decode, "", chunks);
    StreamIsWhole(decode, "", [Concat(chunks)]);
    assert [Concat(chunks)][1..] == [];
    assert Concat([Concat(chunks)]) == Concat(chunks) + "";
    assert Concat(chunks) + "" == Concat(chunks);
  }

  /** An unfinished line becomes the one complete line when its line feed comes. */
  lemma {:induction false} LineFeedCompletes(tail: string)
    requires Split(tail).complete == []
    ensures Split(tail + "\n") == Parts([tail], "")
  {
    TailIsWhole(tail);
    if tail != "" {
      var rest := tail[1..];
      assert tail[0] != '\n' && Split(rest).complete == [];
      LineFeedCompletes(rest);
      assert (tail + "\n")[1..] == rest + "\n";
      assert [tail[0]] + rest == tail;
    }
  }

  /** Finishing is the same as receiving one more line feed: a stream need not end in one.  So a text and the
      text with a line feed added give the same callbacks. */
  lemma FinishingEndsTheLine(decode: string -> Decoded, tail: string)
    requires Split(tail).complete == []
    ensures var parts := Split(tail + "\n");
            Finished(decode, tail) == Consume(decode, parts.complete) && parts.tail == ""
    ensures Stream(decode, tail, ["\n"]) == Stream(decode, tail, [])
  {
    LineFeedCompletes(tail);
    var only := ConsumeLine(decode, tail);
    var traces := TracesOf(decode, [tail]);
    assert traces[0] == only && traces[1..] == [];
    assert Joined(traces) == Then(only, Trace([], false)) == only;
    if tail == "" {
      assert TrimStart(tail) == tail && TrimEnd(tail) == tail;
      assert only == Trace([], false);
    }
    assert ["\n"][1..] == [];
  }
}
