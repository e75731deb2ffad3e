/** Concrete data sets, down to the bytes of their lines: the one whose merge gives a report that is too large, and
    one whose merged line is too long for the loader. */
module MergeWitnesses {
  import opened Contract
  import opened JsonText
  import Reports = EvaluationReport
  import Agreement = ReportAgreement
  import Ingest = JsonlIngest
  import Merging = DatasetMerge
  import opened MergedEvaluations

  // ---- The lines of such a data set ----

  /** A text in which every character is written with a backslash. */
  predicate QuotedOnly(t: string) {
    forall i :: 0 <= i < |t| ==> t[i] == '\"' || t[i] == '\\'
  }

  /** Text without control characters, in ASCII. */
  predicate Printable(s: string) {
    forall i :: 0 <= i < |s| ==> ' ' <= s[i] < '\U{80}'
  }

  function BytesOf(s: string): Ingest.Bytes
    requires Printable(s)
  {
    seq(|s|, i requires 0 <= i < |s| => s[i] as int)
  }

  const SOURCE_START := "{\"answer\":\"b\",\"id\":"
  const MERGED_START := "{\"answer\":\"b\",\"category\":\"x/default\",\"id\":"
  const ORIGIN := ",\"metadata\":{\"openllmops_source\":" + "{\"name\":\"x\",\"original_id\":"
  const END := ",\"task_type\":\"short_qa\"}"

  /** A row as JSON, from its id on; the question is the last thing that differs. */
  function Ending(q: string): string {
    ",\"question\":" + Quoted(q) + END
  }

  function SourceText(t: string, q: string): string {
    SOURCE_START + Quoted(t) + Ending(q)
  }

  /** The merged row with its fields in order, without spaces. */
  function MergedText(t: string, q: string): string {
    MERGED_START + Quoted("x:" + t) + ORIGIN + Quoted(t) + "}}" + Ending(q)
  }

  function Fields(t: string, q: string): map<string, Ingest.Json> {
    map["answer" := Ingest.Text("b"), "id" := Ingest.Text(t), "question" := Ingest.Text(q), "task_type" := Ingest.Text("short_qa")]
  }

  function MergedJson(t: string, q: string): Ingest.Json {
    Merging.MergedRow(Fields(t, q), "x", t, "default", map[])
  }

  lemma EscapedCharIsPrintable(c: char)
    ensures c < '\U{80}' ==> Printable(EscapedChar(c))
  {
    if c < ' ' {
      var (high, low) := (HexDigit(c as int / 16), HexDigit(c as int % 16));
      assert ' ' <= high < '\U{80}' && ' ' <= low < '\U{80}';
    }
  }

  lemma {:induction false} EscapedIsPrintable(s: string)
    requires Ascii(s)
    ensures Printable(Escaped(s))
  {
    if s != [] {
      EscapedCharIsPrintable(s[0]);
      EscapedIsPrintable(s[1..]);
    }
  }

  lemma {:induction false} EscapedQuotes(t: string)
    requires QuotedOnly(t)
    ensures |Escaped(t)| == 2 * |t| && forall i :: 0 <= i < |t| ==> Escaped(t)[2 * i + 1] == t[i]
  {
    if t != [] {
      var (first, rest) := (EscapedChar(t[0]), Escaped(t[1..]));
      EscapedQuotes(t[1..]);
      assert Escaped(t) == first + rest && |first| == 2 && first[1] == t[0];
      forall i | 0 <= i < |t| ensures Escaped(t)[2 * i + 1] == t[i] {
        if i > 0 { assert Escaped(t)[2 * i + 1] == rest[2 * (i - 1) + 1]; }
      }
    }
  }

  lemma PrintableParts(a: string, b: string)
    requires Printable(a) && Printable(b)
    ensures Printable(a + b)
  {
  }

  lemma QuotedIsPrintable(s: string)
    requires Ascii(s)
    ensures Printable(Quoted(s))
  {
    EscapedIsPrintable(s);
  }

  lemma OriginIsPrintable()
    ensures Printable(ORIGIN)
  {
    PrintableParts(",\"metadata\":{\"openllmops_source\":", "{\"name\":\"x\",\"original_id\":");
  }

  lemma FixedPartsArePrintable()
    ensures Printable(SOURCE_START) && Printable(MERGED_START) && Printable(END)
  {
  }

  lemma EndingIsPrintable(q: string)
    requires Ascii(q)
    ensures Printable(Ending(q))
  {
    QuotedIsPrintable(q);
    PrintableParts(",\"question\":", Quoted(q));
    PrintableParts(",\"question\":" + Quoted(q), END);
  }

  lemma TextsArePrintable(t: string, q: string)
    requires QuotedOnly(t) && Ascii(q)
    ensures Printable(SourceText(t, q)) && Printable(MergedText(t, q))
  {
    QuotedIsPrintable(t);
    QuotedIsPrintable("x:" + t);
    EndingIsPrintable(q);
    FixedPartsArePrintable();
    OriginIsPrintable();
    PrintableParts(SOURCE_START, Quoted(t));
    PrintableParts(SOURCE_START + Quoted(t), Ending(q));
    var origin := MERGED_START + Quoted("x:" + t) + ORIGIN;
    PrintableParts(MERGED_START, Quoted("x:" + t));
    PrintableParts(MERGED_START + Quoted("x:" + t), ORIGIN);
    PrintableParts(origin, Quoted(t));
    PrintableParts(origin + Quoted(t), "}}");
    PrintableParts(origin + Quoted(t) + "}}", Ending(q));
  }

  lemma {:induction false} EscapedOfConcat(a: string, b: string)
    ensures Escaped(a + b) == Escaped(a) + Escaped(b)
  {
    if a == [] {
      assert a + b == b;
    } else {
      assert (a + b)[1..] == a[1..] + b;
      EscapedOfConcat(a[1..], b);
    }
  }

  lemma EscapedPrefix(t: string)
    ensures Escaped("x:" + t) == "x:" + Escaped(t)
  {
    EscapedOfConcat("x:", t);
    assert "x:"[1..] == ":" && ":"[1..] == "";
    assert Escaped(":") == ":" && Escaped("x:") == "x:";
  }

  function SourceLine(t: string, q: string): Ingest.Bytes
    requires QuotedOnly(t) && Ascii(q)
  {
    TextsArePrintable(t, q);
    BytesOf(SourceText(t, q)) + [Ingest.LINE_FEED]
  }

  function MergedBytes(t: string, q: string): Ingest.Bytes
    requires QuotedOnly(t) && Ascii(q)
  {
    TextsArePrintable(t, q);
    BytesOf(MergedText(t, q))
  }

  // ---- Reading and writing these lines ----

  /** Every other character from `start` on. */
  function EveryOther(b: Ingest.Bytes, start: nat, n: nat): string {
    seq(n, i requires 0 <= i < n => if start + 2 * i < |b| then b[start + 2 * i] as char else ' ')
  }

  function Half(n: int, parts: nat): nat
    requires parts > 0
  {
    if n < 0 then 0 else n / parts
  }

  /** The id in a source line of this question, if it is one. */
  function SourceId(b: Ingest.Bytes, q: string): string {
    EveryOther(b, |SOURCE_START| + 2, Half(|b| - |SOURCE_START| - 3 - |Ending(q)|, 2))
  }

  /** The original id in a merged line of this question, if it is one. */
  function OriginalIn(b: Ingest.Bytes, q: string): string {
    EveryOther(b, |MERGED_START| + 4, Half(|b| - |MERGED_START| - |ORIGIN| - 9 - |Ending(q)|, 4))
  }

  /** JSON reading of exactly these lines. */
  function Decode(b: Ingest.Bytes, q: string): Option<Ingest.Json>
    requires Ascii(q)
  {
    var (source, merged) := (SourceId(b, q), OriginalIn(b, q));
    if QuotedOnly(source) && b == SourceLine(source, q) then Some(Ingest.Obj(Fields(source, q)))
    else if QuotedOnly(merged) && b == MergedBytes(merged, q) + [Ingest.LINE_FEED] then Some(MergedJson(merged, q))
    else None
  }

  function ShownText(j: Ingest.Json): string {
    if j.Text? then j.s else ""
  }

  /** What a merged row calls its row at the source. */
  function OriginalOf(j: Ingest.Json): string {
    if j.Obj? && "id" in j.fields && |ShownText(j.fields["id"])| >= 2 then ShownText(j.fields["id"])[2..] else ""
  }

  /** JSON writing of exactly the merged rows. */
  function Encode(j: Ingest.Json, q: string): Option<Ingest.Bytes>
    requires Ascii(q)
  {
    var t := OriginalOf(j);
    if QuotedOnly(t) && j == MergedJson(t, q) then Some(MergedBytes(t, q)) else None
  }

  const PATH := "data.jsonl"

  /** A file system with one file.  Every row has an id, so no line number is ever written out. */
  function WorldOf(q: string, content: Ingest.Bytes): Merging.World
    requires Ascii(q)
  {
    Merging.World(
      (path: string) => if path == PATH then Some(Merging.Found(0, content, None)) else None,
      (b: Ingest.Bytes) => Decode(b, q), (j: Ingest.Json) => Encode(j, q), ShownText, (n: nat) => "")
  }

  lemma SourceIsRead(t: string, q: string)
    requires QuotedOnly(t) && Ascii(q)
    ensures SourceId(SourceLine(t, q), q) == t && |SourceLine(t, q)| == |SOURCE_START| + 3 + 2 * |t| + |Ending(q)|
    ensures Decode(SourceLine(t, q), q) == Some(Ingest.Obj(Fields(t, q)))
  {
    EscapedQuotes(t);
    TextsArePrintable(t, q);
    var b := SourceLine(t, q);
    forall i | 0 <= i < |t| ensures b[|SOURCE_START| + 2 + 2 * i] as char == t[i] {
      assert SourceText(t, q)[|SOURCE_START| + 2 + 2 * i] == Escaped(t)[2 * i + 1];
    }
    assert SourceId(b, q) == t;
  }

  lemma IdWithin(start: string, escaped: string, rest: string, t: string)
    requires |escaped| == 2 * |t| && forall i :: 0 <= i < |t| ==> escaped[2 * i + 1] == t[i]
    ensures var text := start + ("\"x:" + escaped + "\"") + rest;
            && |text| == |start| + 4 + 2 * |t| + |rest|
            && (forall i :: 0 <= i < |t| ==> text[|start| + 4 + 2 * i] == t[i])
            && forall i :: 0 <= i < |start| ==> text[i] == start[i]
  {
    var text := start + ("\"x:" + escaped + "\"") + rest;
    forall i | 0 <= i < |t| ensures text[|start| + 4 + 2 * i] == t[i] {
      assert text[|start| + 4 + 2 * i] == ("\"x:" + escaped + "\"")[4 + 2 * i] == escaped[2 * i + 1];
    }
  }

  lemma AfterTheId(start: string, id: string, origin: string, quoted: string, ending: string)
    ensures start + id + origin + quoted + "}}" + ending == start + id + (origin + quoted + "}}" + ending)
  {
  }

  /** Where the original id is in a merged line. */
  lemma MergedShape(t: string, q: string)
    requires QuotedOnly(t)
    ensures |MergedText(t, q)| == |MERGED_START| + |ORIGIN| + 8 + 4 * |t| + |Ending(q)|
    ensures forall i :: 0 <= i < |t| ==> MergedText(t, q)[|MERGED_START| + 4 + 2 * i] == t[i]
    ensures forall i :: 0 <= i < |MERGED_START| ==> i < |MergedText(t, q)| && MergedText(t, q)[i] == MERGED_START[i]
  {
    EscapedQuotes(t);
    EscapedPrefix(t);
    IdWithin(MERGED_START, Escaped(t), ORIGIN + Quoted(t) + "}}" + Ending(q), t);
    assert Quoted("x:" + t) == "\"x:" + Escaped(t) + "\"";
    AfterTheId(MERGED_START, Quoted("x:" + t), ORIGIN, Quoted(t), Ending(q));
  }

  lemma SourceShape(t: string, q: string)
    requires QuotedOnly(t) && Ascii(q)
    ensures |SourceLine(t, q)| > 15 && SourceLine(t, q)[15] == 'i' as int
  {
    assert SourceText(t, q) == SOURCE_START + (Quoted(t) + Ending(q));
    assert SOURCE_START[15] == 'i';
  }

  lemma OriginalIsRead(t: string, q: string)
    requires QuotedOnly(t) && Ascii(q)
    ensures OriginalIn(MergedBytes(t, q) + [Ingest.LINE_FEED], q) == t
  {
    MergedShape(t, q);
    var b := MergedBytes(t, q) + [Ingest.LINE_FEED];
    assert Half(|b| - |MERGED_START| - |ORIGIN| - 9 - |Ending(q)|, 4) == |t|;
    forall i | 0 <= i < |t| ensures b[|MERGED_START| + 4 + 2 * i] as char == t[i] {}
  }

  lemma MergedIsNoSource(t: string, q: string)
    requires QuotedOnly(t) && Ascii(q)
    ensures |MergedBytes(t, q)| > 15 && MergedBytes(t, q)[15] == 'c' as int
  {
    MergedShape(t, q);
    assert MERGED_START[15] == 'c';
  }

  lemma MergedIsRead(t: string, q: string)
    requires QuotedOnly(t) && Ascii(q)
    ensures Decode(MergedBytes(t, q) + [Ingest.LINE_FEED], q) == Some(MergedJson(t, q))
  {
    OriginalIsRead(t, q);
    MergedIsNoSource(t, q);
    var b := MergedBytes(t, q) + [Ingest.LINE_FEED];
    var source := SourceId(b, q);
    if QuotedOnly(source) {
      SourceShape(source, q);
      assert b[15] == 'c' as int;
    }
  }

  lemma MergedIsWritten(t: string, q: string)
    requires QuotedOnly(t) && Ascii(q)
    ensures Encode(MergedJson(t, q), q) == Some(MergedBytes(t, q))
  {
    assert ("x" + ":" + t)[2..] == t;
  }

  lemma PrintedLine(s: string)
    requires Printable(s) && s != [] && s[0] == '{'
    ensures !Ingest.Blank(BytesOf(s)) && Merging.Canonical(BytesOf(s) + [Ingest.LINE_FEED])
    ensures forall i :: 0 <= i < |s| ==> BytesOf(s)[i] != Ingest.LINE_FEED
  {
    var line := BytesOf(s) + [Ingest.LINE_FEED];
    assert !Ingest.BlankByte(BytesOf(s)[0]) && !Ingest.BlankByte(line[0]);
  }

  /** What is written is one line, not blank, and read back as what was written. */
  lemma WorldEncodes(q: string, content: Ingest.Bytes)
    requires Ascii(q)
    ensures Merging.Encodes(WorldOf(q, content))
  {
    var w := WorldOf(q, content);
    forall j: Ingest.Json | w.encode(j).Some?
      ensures forall i :: 0 <= i < |w.encode(j).value| ==> w.encode(j).value[i] != Ingest.LINE_FEED
      ensures !Ingest.Blank(w.encode(j).value) && w.decode(w.encode(j).value + [Ingest.LINE_FEED]) == Some(j)
    {
      var t := OriginalOf(j);
      TextsArePrintable(t, q);
      MergedShape(t, q);
      MergedStarts(t, q);
      PrintedLine(MergedText(t, q));
      MergedIsRead(t, q);
    }
  }

  lemma MergedStarts(t: string, q: string)
    ensures MergedText(t, q) != [] && MergedText(t, q)[0] == '{' && SourceText(t, q) != [] && SourceText(t, q)[0] == '{'
  {
    AfterTheId(MERGED_START, Quoted("x:" + t), ORIGIN, Quoted(t), Ending(q));
    assert MERGED_START[0] == '{' && SOURCE_START[0] == '{';
  }

  lemma SourceIsCanonical(t: string, q: string)
    requires QuotedOnly(t) && Ascii(q)
    ensures Merging.Canonical(SourceLine(t, q))
  {
    TextsArePrintable(t, q);
    MergedStarts(t, q);
    PrintedLine(SourceText(t, q));
  }

  lemma LineFits(t: string, q: string, content: Ingest.Bytes)
    requires QuotedOnly(t) && Ascii(q) && |SourceLine(t, q)| <= Merging.MAX_LINE
    ensures NamedLine(WorldOf(q, content), SourceLine(t, q), t)
  {
    SourceIsCanonical(t, q);
    SourceIsRead(t, q);
    MergedIsWritten(t, q);
  }

  // ---- The data set whose report is too large ----

  lemma QuotedTextIsQuoted(k: nat)
    ensures QuotedOnly(QuotedText(k)) && |QuotedText(k)| == Merging.MAX_SHORT
  {
    BitsFacts(k, Merging.MAX_SHORT);
  }

  function QuotedLineOf(k: nat): Ingest.Bytes {
    QuotedTextIsQuoted(k);
    SourceLine(QuotedText(k), "q")
  }

  function QuotedLinesTo(n: nat): seq<Ingest.Bytes> {
    seq(n, i requires 0 <= i < n => QuotedLineOf(i))
  }

  const LINE_BYTES := 443

  lemma QuotedLineBytes(k: nat)
    ensures |QuotedLineOf(k)| == LINE_BYTES
  {
    QuotedTextIsQuoted(k);
    SourceIsRead(QuotedText(k), "q");
    assert "q"[1..] == "" && Escaped("q") == EscapedChar('q') + Escaped("") == "q";
    assert |Ending("q")| == 12 + 3 + 24;
  }

  lemma {:induction false} QuotedContentBytes(n: nat)
    ensures |Ingest.Flatten(QuotedLinesTo(n))| == LINE_BYTES * n
  {
    if n > 0 {
      QuotedContentBytes(n - 1);
      QuotedLineBytes(n - 1);
      assert QuotedLinesTo(n)[..n - 1] == QuotedLinesTo(n - 1);
    }
  }

  /** The file: 173,857 lines of 443 bytes, 77 MB in all. */
  function QuotedContent(): Ingest.Bytes {
    Ingest.Flatten(QuotedLinesTo(ROWS))
  }

  function QuotedWorld(): Merging.World {
    WorldOf("q", QuotedContent())
  }

  lemma QuotedLineFits(k: nat)
    ensures QuotedLine(QuotedWorld(), QuotedLineOf(k), k)
  {
    QuotedTextIsQuoted(k);
    QuotedLineBytes(k);
    LineFits(QuotedText(k), "q", QuotedContent());
  }

  lemma QuotedContentIsRead()
    ensures Ingest.Lines(QuotedContent()) == QuotedLinesTo(ROWS)
  {
    forall k | 0 <= k < ROWS ensures Merging.Canonical(QuotedLinesTo(ROWS)[k]) {
      QuotedTextIsQuoted(k);
      SourceIsCanonical(QuotedText(k), "q");
    }
    Merging.WrittenLinesReadBack(QuotedLinesTo(ROWS));
  }

  lemma QuotedFileExists()
    ensures QuotedFile(QuotedWorld(), Merging.Found(0, QuotedContent(), None))
    ensures |QuotedContent()| == 77_018_651 <= Merging.MAX_FILE_BYTES
  {
    QuotedContentIsRead();
    QuotedContentBytes(ROWS);
    forall k | 0 <= k < ROWS ensures QuotedLine(QuotedWorld(), QuotedLinesTo(ROWS)[k], k) {
      QuotedLineFits(k);
    }
  }

  /** There is such a data set: a file of 77 MB, written out above, that the merge accepts, and whatever two models
      answer on it, the agent refuses the report. */
  lemma MergedReportIsRefused(rd: Reports.Rounding, writer: Writer, v: Agreement.Evaluation)
    requires Reports.Sane(rd) && SaneWriter(writer, Reports.MAX_RECORDS)
    ensures Merging.Encodes(QuotedWorld())
    ensures var merged := Merging.PrepareDataset(QuotedWorld(), [Merging.DatasetSource("x", PATH)]);
            && merged.Some? && merged.value.ids == QuotedIds(ROWS)
            && (&& Agreement.SampleIds(v.samples) == merged.value.ids
                && (forall i :: 0 <= i < |v.samples| ==> v.samples[i].answers != [] && v.samples[i].category == "x/default")
                && Reports.IsSha256(v.sha256) && Agreement.IsTemplate(v.baseTemplate) && Agreement.IsTemplate(v.candidateTemplate)
                && |v.samples| == |v.first| == |v.second| == |v.firstLatencies| == |v.secondLatencies| ==>
                  Agreement.EvaluationFits(v) && !Agreement.AcceptedByAgent(rd, writer, v))
  {
    WorldEncodes("q", QuotedContent());
    QuotedFileExists();
    QuotedFileIsMerged(QuotedWorld(), PATH);
    if && Agreement.SampleIds(v.samples) == QuotedIds(ROWS)
       && (forall i :: 0 <= i < |v.samples| ==> v.samples[i].answers != [] && v.samples[i].category == "x/default")
       && Reports.IsSha256(v.sha256) && Agreement.IsTemplate(v.baseTemplate) && Agreement.IsTemplate(v.candidateTemplate)
       && |v.samples| == |v.first| == |v.second| == |v.firstLatencies| == |v.secondLatencies|
    {
      QuotedIdsAreRefused(rd, writer, v);
    }
  }

  // ---- The row that becomes too long ----

  const SHORT_ID := "\""

  /** A question that fills the source line to the last byte of its limit. */
  function LongQuestion(): (q: string)
    ensures Ascii(q) && |q| == 1_048_514
  {
    seq(1_048_514, _ => 'a')
  }

  lemma {:induction false} EscapedKeeps(s: string)
    requires forall i :: 0 <= i < |s| ==> s[i] == 'a'
    ensures Escaped(s) == s
  {
    if s != [] {
      EscapedKeeps(s[1..]);
      assert s == [s[0]] + s[1..];
    }
  }

  function LongLine(): Ingest.Bytes {
    SourceLine(SHORT_ID, LongQuestion())
  }

  function LongWorld(): Merging.World {
    WorldOf(LongQuestion(), LongLine())
  }

  lemma LongLineBytes()
    ensures |LongLine()| == Merging.MAX_LINE < |MergedBytes(SHORT_ID, LongQuestion())|
  {
    var q := LongQuestion();
    EscapedKeeps(q);
    assert |Ending(q)| == 12 + 2 + |q| + 24;
    SourceIsRead(SHORT_ID, q);
    MergedShape(SHORT_ID, q);
    assert |MERGED_START| >= 19 && |ORIGIN| >= 1;
  }

  lemma ShortIdIsKept()
    ensures Merging.ShortText(SHORT_ID) == Some(SHORT_ID) && Utf8("x" + ":" + SHORT_ID) == 3
  {
    assert !Ingest.IsBlank(SHORT_ID[0]) && SHORT_ID[0] >= ' ';
    assert Reports.StripStart(SHORT_ID) == SHORT_ID && Reports.StripEnd(SHORT_ID) == SHORT_ID;
    AsciiBytes("x" + ":" + SHORT_ID);
  }

  lemma OneLineIsRead(line: Ingest.Bytes)
    requires Merging.Canonical(line)
    ensures Ingest.Lines(line) == [line]
  {
    Ingest.FlattenOne(line);
    Merging.WrittenLinesReadBack([line]);
  }

  lemma OneLineIsMerged(w: Merging.World, line: Ingest.Bytes, found: Merging.Found, next: Merging.Merge)
    requires Merging.Canonical(line) && found == Merging.Found(0, line, None) && |line| <= Merging.MAX_LINE
    requires Merging.MergeLine(w, "x", line, 1, Merging.EMPTY.(totalBytes := |line|)) == Some(next) && next.records == 1
    ensures var merged := Merging.MergeSource(w, "x", found, Merging.EMPTY);
            merged.Some? && merged.value.lines == next.lines
  {
    var started := Merging.EMPTY.(totalBytes := |line|);
    OneLineIsRead(line);
    OneLineAhead(w, "x", [line], 1, started, next);
    assert [line][1..] == [];
    assert Merging.MergeLines(w, "x", [line], 1, started) == Some(next);
  }

  /** A row whose source line is exactly as long as it may be is merged, but its merged line is longer than the
      loader allows, so no loader accepts the merged file, in order as the row may be. */
  lemma LongRowIsMergedNotLoaded(l: Merging.Loader)
    requires Merging.ReadsAlike(LongWorld(), l)
    ensures Merging.Encodes(LongWorld()) && |LongLine()| == Merging.MAX_LINE
    ensures var merged := Merging.PrepareDataset(LongWorld(), [Merging.DatasetSource("x", PATH)]);
            && merged.Some? && |merged.value.lines| == 1 && |merged.value.lines[0]| > Merging.MAX_LINE
            && Merging.Loaded(l, Merging.WorkspaceOf(merged.value).file) == None
  {
    var (w, q, source) := (LongWorld(), LongQuestion(), Merging.DatasetSource("x", PATH));
    WorldEncodes(q, LongLine());
    LongLineBytes();
    LongRowIsMerged();
    assert Merging.SourceName("x");
    Merging.LoaderReadsTheMerge(w, l, [source]);
    var m := Merging.PrepareDataset(w, [source]).value;
    assert !Merging.LoadableAt(l, m, 0);
  }

  lemma LongRowIsMerged()
    ensures var merged := Merging.PrepareDataset(LongWorld(), [Merging.DatasetSource("x", PATH)]);
            merged.Some? && merged.value.lines == [MergedBytes(SHORT_ID, LongQuestion()) + [Ingest.LINE_FEED]]
  {
    var (w, q, line) := (LongWorld(), LongQuestion(), LongLine());
    LongLineBytes();
    LineFits(SHORT_ID, q, line);
    SourceIsRead(SHORT_ID, q);
    MergedIsWritten(SHORT_ID, q);
    SourceIsCanonical(SHORT_ID, q);
    var started := Merging.EMPTY.(totalBytes := |line|);
    ShortIdIsKept();
    NamedRowIsMerged(w, line, SHORT_ID, 1, started);
    OneLineIsMerged(w, line, Merging.Found(0, line, None), Merging.MergeLine(w, "x", line, 1, started).value);
    OneSourceIsPrepared(w, Merging.DatasetSource("x", PATH));
  }
}
