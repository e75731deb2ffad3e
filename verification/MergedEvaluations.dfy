/** From the merged data set to the accepted report: what the merge's limits guarantee for the agent's own
    check of the report, and what they do not. */
module MergedEvaluations {
  import opened Contract
  import opened JsonText
  import Reports = EvaluationReport
  import ReportSize
  import Agreement = ReportAgreement
  import Ingest = JsonlIngest
  import Merging = DatasetMerge

  // ---- What the merge guarantees of its rows ----

  predicate CategoryListed(row: Ingest.Json, categories: set<string>) {
    row.Obj? && "category" in row.fields && row.fields["category"].Text? && row.fields["category"].s in categories
  }

  /** The id budget and the category limit have been kept, and all names are plain. */
  predicate Budgeted(m: Merging.Merge) {
    && m.idBytes == SumOf(InUtf8, m.ids) <= Merging.MAX_ID_BYTES && |m.categories| <= Merging.MAX_CATEGORIES
    && (forall i :: 0 <= i < |m.ids| ==> Reports.Plain(m.ids[i]))
    && (forall x <- m.categories :: Reports.Plain(x))
    && (forall i :: 0 <= i < |m.rows| ==> CategoryListed(m.rows[i], m.categories))
  }

  lemma {:induction false} StripEndIsPrefix(s: string)
    ensures Reports.StripEnd(s) <= s
    ensures Reports.StripEnd(s) != [] ==> !Ingest.IsBlank(Reports.StripEnd(s)[|Reports.StripEnd(s)| - 1])
  {
    if s != [] && Ingest.IsBlank(s[|s| - 1]) {
      StripEndIsPrefix(s[..|s| - 1]);
    }
  }

  /** An allowed source name, a separator and a short text make a plain name. */
  lemma JoinedIsPlain(name: string, separator: char, raw: string)
    requires Merging.SourceName(name) && (separator == ':' || separator == '/') && Merging.ShortText(raw).Some?
    ensures Reports.Plain(name + [separator] + Merging.ShortText(raw).value)
  {
    var text := Merging.ShortText(raw).value;
    StripEndIsPrefix(Reports.StripStart(raw));
    var s := name + [separator] + text;
    assert s[0] == name[0] && s[|s| - 1] == text[|text| - 1];
    assert Merging.NameChar(name[0]);
    forall i | 0 <= i < |s| ensures s[i] >= ' ' {
      if i < |name| {
        assert Merging.NameChar(name[i]);
      } else if i > |name| {
        assert s[i] == text[i - |name| - 1];
      }
    }
  }

  lemma OneMoreKeepsBudget(m: Merging.Merge, m': Merging.Merge, id: string, category: string, row: Ingest.Json)
    requires Budgeted(m) && Reports.Plain(id) && Reports.Plain(category)
    requires m'.ids == m.ids + [id] && m'.categories == m.categories + {category} && m'.rows == m.rows + [row]
    requires m'.idBytes == m.idBytes + Utf8(id) <= Merging.MAX_ID_BYTES && |m'.categories| <= Merging.MAX_CATEGORIES
    requires CategoryListed(row, {category})
    ensures Budgeted(m')
  {
    SumOfConcat(InUtf8, m.ids, [id]);
    assert [id][1..] == [] && Measured(InUtf8, id) == Utf8(id);
    forall i | 0 <= i < |m'.ids| ensures Reports.Plain(m'.ids[i]) {
      if i < |m.ids| { assert m'.ids[i] == m.ids[i]; }
    }
    forall i | 0 <= i < |m'.rows| ensures CategoryListed(m'.rows[i], m'.categories) {
      if i < |m.rows| { assert m'.rows[i] == m.rows[i]; }
    }
  }

  lemma RowNamesArePlain(w: Merging.World, name: string, fields: map<string, Ingest.Json>, number: nat)
    requires Merging.SourceName(name)
    ensures var original := Merging.OriginalId(w, fields, number);
            original.Some? ==> Reports.Plain(Merging.MergedId(name, original.value))
    ensures var category := Merging.CategoryOf(fields);
            category.Some? ==> Reports.Plain(name + "/" + category.value)
  {
    var id := if "id" in fields then w.show(fields["id"]) else w.decimal(number);
    var category := if "category" in fields && fields["category"].Text? then fields["category"].s else "default";
    if Merging.ShortText(id).Some? { JoinedIsPlain(name, ':', id); }
    if Merging.ShortText(category).Some? { JoinedIsPlain(name, '/', category); }
  }

  lemma RowKeepsBudget(w: Merging.World, name: string, line: Ingest.Bytes, number: nat, m: Merging.Merge)
    requires Merging.SourceName(name) && Budgeted(m) && Merging.MergeRow(w, name, line, number, m).Some?
    ensures Budgeted(Merging.MergeRow(w, name, line, number, m).value)
  {
    var fields := w.decode(line).value.fields;
    var original := Merging.OriginalId(w, fields, number).value;
    var category := Merging.CategoryOf(fields).value;
    RowNamesArePlain(w, name, fields, number);
    var row := Merging.MergedRow(fields, name, original, category, Merging.MetadataOf(fields).value);
    OneMoreKeepsBudget(m, Merging.MergeRow(w, name, line, number, m).value, Merging.MergedId(name, original), name + "/" + category, row);
  }

  lemma {:induction false} LinesKeepBudget(
    w: Merging.World, name: string, lines: seq<Ingest.Bytes>, number: nat, m: Merging.Merge)
    requires Merging.SourceName(name) && Budgeted(m) && Merging.MergeLines(w, name, lines, number, m).Some?
    ensures Budgeted(Merging.MergeLines(w, name, lines, number, m).value)
    decreases |lines|
  {
    if lines != [] {
      if !Ingest.Blank(lines[0]) {
        RowKeepsBudget(w, name, lines[0], number, m);
      }
      LinesKeepBudget(w, name, lines[1..], number + 1, Merging.MergeLine(w, name, lines[0], number, m).value);
    }
  }

  lemma {:induction false} SourcesKeepBudget(w: Merging.World, sources: seq<Merging.DatasetSource>, m: Merging.Merge)
    requires Budgeted(m) && forall i :: 0 <= i < |sources| ==> Merging.SourceName(sources[i].name)
    requires (forall i :: 0 <= i < |sources| ==> w.find(sources[i].path).Some?) && Merging.MergeSources(w, sources, m).Some?
    ensures Budgeted(Merging.MergeSources(w, sources, m).value)
    ensures sources != [] ==> Merging.MergeSources(w, sources, m).value.records >= 1
    decreases |sources|
  {
    if sources != [] {
      var found := w.find(sources[0].path).value;
      var started := m.(totalBytes := m.totalBytes + |found.content|);
      assert Budgeted(started);
      LinesKeepBudget(w, sources[0].name, Ingest.Lines(found.content), 1, started);
      var next := Merging.MergeSource(w, sources[0].name, found, m).value;
      assert next.records >= 1;
      SourcesKeepBudget(w, sources[1..], next);
    }
  }

  // ---- From the merge to the report ----

  /** The samples the loader makes of the merged rows: under the merged ids and categories, each with an answer. */
  predicate SamplesOf(samples: seq<Agreement.Sample>, m: Merging.Merge) {
    && Agreement.SampleIds(samples) == m.ids && |samples| == |m.rows|
    && forall i :: 0 <= i < |samples| ==>
         samples[i].answers != [] && CategoryListed(m.rows[i], {samples[i].category})
  }

  lemma MergeIsBudgeted(w: Merging.World, sources: seq<Merging.DatasetSource>)
    requires (forall i :: 0 <= i < |sources| ==> Merging.SourceName(sources[i].name)) && Merging.PrepareDataset(w, sources).Some?
    ensures var m := Merging.PrepareDataset(w, sources).value; Budgeted(m) && m.records >= 1
  {
    Merging.SortingKeepsResolvable(w, sources);
    Merging.SortedNamesAllowed(sources);
    SourcesKeepBudget(w, Merging.Sorting.Sorted(Merging.SourceAtMost, sources), Merging.EMPTY);
  }

  lemma CategoriesAreListed(samples: seq<Agreement.Sample>, m: Merging.Merge)
    requires SamplesOf(samples, m) && Budgeted(m)
    ensures |Agreement.SampleCategories(samples)| <= Merging.MAX_CATEGORIES
    ensures forall i :: 0 <= i < |samples| ==> Reports.Plain(samples[i].category)
  {
    forall i | 0 <= i < |samples| ensures samples[i].category in m.categories {
      assert CategoryListed(m.rows[i], m.categories);
    }
    Subset(Agreement.SampleCategories(samples), m.categories);
  }

  lemma {:induction false} Subset(a: set<string>, b: set<string>)
    requires a <= b
    ensures |a| <= |b|
  {
    if a != {} {
      var x :| x in a;
      Subset(a - {x}, b - {x});
    }
  }

  /** Whatever the merge accepts is a sample list the report theorems are about. */
  lemma MergedSamplesFit(w: Merging.World, sources: seq<Merging.DatasetSource>, samples: seq<Agreement.Sample>)
    requires Merging.Encodes(w) && Merging.PrepareDataset(w, sources).Some?
    requires forall i :: 0 <= i < |sources| ==> Merging.SourceName(sources[i].name)
    requires SamplesOf(samples, Merging.PrepareDataset(w, sources).value)
    ensures Agreement.SamplesFit(samples)
    ensures SumOf(InUtf8, Agreement.SampleIds(samples)) <= Merging.MAX_ID_BYTES
  {
    var m := Merging.PrepareDataset(w, sources).value;
    MergeIsBudgeted(w, sources);
    Merging.MergeConservesRecords(w, sources);
    CategoriesAreListed(samples, m);
    var ids := Agreement.SampleIds(samples);
    forall i | 0 <= i < |samples| ensures Reports.Plain(samples[i].id) && samples[i].id == m.ids[i] {
      assert ids[i] == m.ids[i];
    }
  }

  const MAX_QUOTES := 15_000_000

  lemma PlainHasNoControl(ids: seq<string>)
    requires forall i :: 0 <= i < |ids| ==> Reports.Plain(ids[i])
    ensures SumOf(InEscapes, ids) == SumOf(InUtf8, ids) + SumOf(InQuotes, ids)
  {
    forall k | 0 <= k < |ids| ensures forall i :: 0 <= i < |ids[k]| ==> ids[k][i] >= ' ' {
      assert !Reports.HasControl(ids[k]);
    }
    SumOfEscaped(ids);
  }

  /** The merge's budget of 32 MiB for ids is enough for the report as long as the ids hold at most 15 million
      quotation marks and backslashes together: then the agent accepts whatever the models answer. */
  lemma MergedEvaluationsAreAccepted(
    rd: Reports.Rounding, writer: Writer, v: Agreement.Evaluation, w: Merging.World, sources: seq<Merging.DatasetSource>)
    requires Reports.Sane(rd) && SaneWriter(writer, Reports.MAX_RECORDS)
    requires Merging.Encodes(w) && Merging.PrepareDataset(w, sources).Some?
    requires forall i :: 0 <= i < |sources| ==> Merging.SourceName(sources[i].name)
    requires SamplesOf(v.samples, Merging.PrepareDataset(w, sources).value)
    requires Reports.IsSha256(v.sha256) && Agreement.IsTemplate(v.baseTemplate) && Agreement.IsTemplate(v.candidateTemplate)
    requires |v.samples| == |v.first| == |v.second| == |v.firstLatencies| == |v.secondLatencies|
    ensures Agreement.EvaluationFits(v)
    ensures SumOf(InQuotes, Agreement.SampleIds(v.samples)) <= MAX_QUOTES ==> Agreement.AcceptedByAgent(rd, writer, v)
  {
    MergedSamplesFit(w, sources, v.samples);
    PlainHasNoControl(Agreement.SampleIds(v.samples));
    Agreement.ModerateIdsAreAccepted(rd, writer, v);
  }

  // ---- Where the budget is not enough ----

  /** `n` quotation marks and backslashes that spell a number in binary. */
  function Bits(k: nat, n: nat): string {
    if n == 0 then [] else [if k % 2 == 0 then '\"' else '\\'] + Bits(k / 2, n - 1)
  }

  function Pow2(n: nat): nat {
    if n == 0 then 1 else 2 * Pow2(n - 1)
  }

  lemma {:induction false} BitsDiffer(a: nat, b: nat, n: nat)
    requires a < Pow2(n) && b < Pow2(n) && a != b
    ensures Bits(a, n) != Bits(b, n)
  {
    if a % 2 == b % 2 {
      BitsDiffer(a / 2, b / 2, n - 1);
      assert Bits(a, n)[1..] == Bits(a / 2, n - 1) && Bits(b, n)[1..] == Bits(b / 2, n - 1);
    } else {
      assert Bits(a, n)[0] != Bits(b, n)[0];
    }
  }

  lemma {:induction false} BitsFacts(k: nat, n: nat)
    ensures |Bits(k, n)| == n && forall i :: 0 <= i < n ==> Bits(k, n)[i] == '\"' || Bits(k, n)[i] == '\\'
    ensures Utf8(Bits(k, n)) == n && Quotes(Bits(k, n)) == n
  {
    if n > 0 {
      BitsFacts(k / 2, n - 1);
      assert Bits(k, n)[1..] == Bits(k / 2, n - 1);
    }
  }

  lemma {:induction false} Pow2Grows(n: nat, times: nat)
    ensures Pow2(n + times) >= Pow2(n) * (1 + times)
  {
    if times > 0 {
      Pow2Grows(n, times - 1);
      assert Pow2(n + times) == 2 * Pow2(n + times - 1);
    }
  }

  lemma EnoughBits()
    ensures Pow2(Merging.MAX_SHORT) >= ROWS
  {
    Pow2Grows(11, Merging.MAX_SHORT - 11);
    assert Pow2(5) == 32 && Pow2(8) == 256 && Pow2(11) == 2048;
  }

  const ROWS := 173_857

  /** The longest id the merge accepts, of characters that are written with a backslash. */
  function QuotedText(k: nat): string {
    Bits(k, Merging.MAX_SHORT)
  }

  function QuotedId(k: nat): string {
    Merging.MergedId("x", QuotedText(k))
  }

  function QuotedIds(n: nat): seq<string> {
    seq(n, i requires 0 <= i < n => QuotedId(i))
  }

  lemma QuotedIdIsPlain(k: nat)
    ensures Merging.ShortText(QuotedText(k)) == Some(QuotedText(k)) && Reports.Plain(QuotedId(k))
  {
    var text := QuotedText(k);
    BitsFacts(k, Merging.MAX_SHORT);
    assert !Ingest.IsBlank(text[0]) && !Ingest.IsBlank(text[|text| - 1]);
    assert Merging.SourceName("x");
    JoinedIsPlain("x", ':', text);
  }

  lemma QuotedIdBytes(k: nat)
    ensures Utf8(QuotedId(k)) == 193 && EscapedBytes(QuotedId(k)) == 384
  {
    var (text, id) := (QuotedText(k), QuotedId(k));
    BitsFacts(k, Merging.MAX_SHORT);
    assert id == "x:" + text;
    Utf8OfConcat("x:", text);
    AsciiBytes("x:");
    QuotesOfConcat("x:", text);
    EscapingAddsQuotes(id);
  }

  lemma {:induction false} QuotesOfConcat(a: string, b: string)
    ensures Quotes(a + b) == Quotes(a) + Quotes(b)
  {
    if a == [] {
      assert a + b == b;
    } else {
      QuotesOfConcat(a[1..], b);
      assert (a + b)[1..] == a[1..] + b;
    }
  }

  lemma QuotedIdsDiffer(a: nat, b: nat)
    requires a < ROWS && b < ROWS && a != b
    ensures QuotedId(a) != QuotedId(b)
  {
    EnoughBits();
    BitsDiffer(a, b, Merging.MAX_SHORT);
    assert QuotedId(a)[2..] == QuotedText(a) && QuotedId(b)[2..] == QuotedText(b);
  }

  /** 173,857 such ids keep to the merge's budget, and take more room in the two lists of a report than the
      report may have in all. */
  lemma QuotedIdsAreTooMany()
    ensures SumOf(InUtf8, QuotedIds(ROWS)) == 33_554_401 <= Merging.MAX_ID_BYTES
    ensures 2 * ReportSize.IdsSize(QuotedIds(ROWS)) == 136_999_316 > Reports.MAX_REPORT_BYTES
  {
    var ids := QuotedIds(ROWS);
    forall i | 0 <= i < |ids| ensures Measured(InUtf8, ids[i]) == 193 && Measured(InEscapes, ids[i]) == 384 {
      QuotedIdBytes(i);
    }
    SumOfEqual(InUtf8, ids, 193);
    SumOfEqual(InEscapes, ids, 384);
  }

  lemma QuotedSamplesFit(samples: seq<Agreement.Sample>)
    requires Agreement.SampleIds(samples) == QuotedIds(ROWS)
    requires forall i :: 0 <= i < |samples| ==> samples[i].answers != [] && samples[i].category == "x/default"
    ensures Agreement.SamplesFit(samples)
  {
    var ids := Agreement.SampleIds(samples);
    assert |samples| == |ids| == ROWS;
    DefaultIsPlain();
    forall i | 0 <= i < |samples| ensures Reports.Plain(samples[i].id) && samples[i].id == QuotedId(i) {
      assert ids[i] == QuotedIds(ROWS)[i];
      QuotedIdIsPlain(i);
    }
    forall i, j | 0 <= i < j < |samples| ensures samples[i].id != samples[j].id {
      QuotedIdsDiffer(i, j);
    }
    Subset(Agreement.SampleCategories(samples), {"x/default"});
  }

  lemma DefaultIsPlain()
    ensures Reports.Plain("x/default") && Merging.ShortText("default") == Some("default")
  {
    assert Reports.StripStart("default") == "default" && Reports.StripEnd("default") == "default";
    assert Merging.SourceName("x");
    JoinedIsPlain("x", '/', "default");
    assert "x" + "/" + "default" == "x/default";
  }

  /** The failing input: an evaluation over these samples is within every limit of the merge and right in every
      respect, and the agent refuses its report, whatever the models answer. */
  lemma QuotedIdsAreRefused(rd: Reports.Rounding, writer: Writer, v: Agreement.Evaluation)
    requires Reports.Sane(rd) && SaneWriter(writer, Reports.MAX_RECORDS)
    requires Agreement.SampleIds(v.samples) == QuotedIds(ROWS)
    requires forall i :: 0 <= i < |v.samples| ==> v.samples[i].answers != [] && v.samples[i].category == "x/default"
    requires Reports.IsSha256(v.sha256) && Agreement.IsTemplate(v.baseTemplate) && Agreement.IsTemplate(v.candidateTemplate)
    requires |v.samples| == |v.first| == |v.second| == |v.firstLatencies| == |v.secondLatencies|
    ensures Agreement.EvaluationFits(v) && !Agreement.AcceptedByAgent(rd, writer, v)
  {
    QuotedSamplesFit(v.samples);
    QuotedIdsAreTooMany();
    Agreement.ModerateIdsAreAccepted(rd, writer, v);
  }

  // ---- The merge does accept them ----

  /** A line of a source whose row has this id, names no category and can be written back. */
  predicate NamedLine(w: Merging.World, line: Ingest.Bytes, id: string) {
    && |line| <= Merging.MAX_LINE && !Ingest.Blank(line)
    && match w.decode(line)
       case Some(Obj(fields)) =>
         && "id" in fields && w.show(fields["id"]) == id && "category" !in fields && "metadata" !in fields
         && w.encode(Merging.MergedRow(fields, "x", id, "default", map[])).Some?
       case _ => false
  }

  /** A line that gives the k-th of these ids. */
  predicate QuotedLine(w: Merging.World, line: Ingest.Bytes, k: nat) {
    NamedLine(w, line, QuotedText(k))
  }

  predicate MergedSoFar(m: Merging.Merge, k: nat) {
    m.ids == QuotedIds(k) && m.idBytes == 193 * k && m.records == k && m.categories <= {"x/default"}
  }

  /** A line with a new id that fits the budget is merged. */
  lemma NamedRowIsMerged(w: Merging.World, line: Ingest.Bytes, id: string, number: nat, m: Merging.Merge)
    requires NamedLine(w, line, id) && Merging.ShortText(id) == Some(id) && Merging.MergedId("x", id) !in m.ids
    requires m.idBytes + Utf8(Merging.MergedId("x", id)) <= Merging.MAX_ID_BYTES && m.records < Merging.MAX_RECORDS
    requires m.categories <= {"x/default"}
    ensures var row := Merging.MergedRow(w.decode(line).value.fields, "x", id, "default", map[]);
            var merged := Merging.MergeLine(w, "x", line, number, m);
            && merged.Some? && w.encode(row).Some? && merged.value.lines == m.lines + [w.encode(row).value + [Ingest.LINE_FEED]]
            && merged.value.ids == m.ids + [Merging.MergedId("x", id)] && merged.value.records == m.records + 1
            && merged.value.idBytes == m.idBytes + Utf8(Merging.MergedId("x", id)) && merged.value.categories <= {"x/default"}
  {
    DefaultIsPlain();
    assert "x" + "/" + "default" == "x/default";
    Subset(m.categories + {"x/default"}, {"x/default"});
  }

  lemma QuotedIdIsNew(k: nat)
    requires k < ROWS
    ensures QuotedId(k) !in QuotedIds(k)
  {
    forall i | 0 <= i < k ensures QuotedIds(k)[i] != QuotedId(k) {
      QuotedIdsDiffer(i, k);
    }
  }

  lemma QuotedRowIsMerged(w: Merging.World, line: Ingest.Bytes, k: nat, m: Merging.Merge)
    requires k < ROWS && QuotedLine(w, line, k) && MergedSoFar(m, k)
    ensures var merged := Merging.MergeLine(w, "x", line, k + 1, m);
            merged.Some? && MergedSoFar(merged.value, k + 1)
  {
    QuotedIdIsPlain(k);
    QuotedIdBytes(k);
    QuotedIdIsNew(k);
    NamedRowIsMerged(w, line, QuotedText(k), k + 1, m);
    assert QuotedIds(k + 1) == QuotedIds(k) + [QuotedId(k)];
  }

  lemma OneLineAhead(
    w: Merging.World, name: string, rest: seq<Ingest.Bytes>, number: nat, m: Merging.Merge, next: Merging.Merge)
    requires rest != [] && Merging.MergeLine(w, name, rest[0], number, m) == Some(next)
    ensures Merging.MergeLines(w, name, rest, number, m) == Merging.MergeLines(w, name, rest[1..], number + 1, next)
  {
  }

  predicate AllMerged(merged: Option<Merging.Merge>) {
    merged.Some? && MergedSoFar(merged.value, ROWS)
  }

  /** The lines from the k-th on. */
  predicate QuotedRest(w: Merging.World, rest: seq<Ingest.Bytes>, k: nat) {
    k + |rest| == ROWS && forall i :: 0 <= i < |rest| ==> QuotedLine(w, rest[i], k + i)
  }

  lemma QuotedStep(w: Merging.World, rest: seq<Ingest.Bytes>, k: nat, m: Merging.Merge) returns (next: Merging.Merge)
    requires rest != [] && QuotedRest(w, rest, k) && MergedSoFar(m, k)
    ensures MergedSoFar(next, k + 1) && QuotedRest(w, rest[1..], k + 1)
    ensures Merging.MergeLines(w, "x", rest, k + 1, m) == Merging.MergeLines(w, "x", rest[1..], k + 2, next)
  {
    QuotedRowIsMerged(w, rest[0], k, m);
    next := Merging.MergeLine(w, "x", rest[0], k + 1, m).value;
    OneLineAhead(w, "x", rest, k + 1, m, next);
  }

  lemma {:induction false} QuotedLinesAreMerged(w: Merging.World, rest: seq<Ingest.Bytes>, k: nat, m: Merging.Merge)
    requires QuotedRest(w, rest, k) && MergedSoFar(m, k)
    ensures AllMerged(Merging.MergeLines(w, "x", rest, k + 1, m))
    decreases |rest|
  {
    if rest != [] {
      var next := QuotedStep(w, rest, k, m);
      QuotedLinesAreMerged(w, rest[1..], k + 1, next);
    }
  }

  lemma QuotedLinesFromTheStart(w: Merging.World, lines: seq<Ingest.Bytes>, m: Merging.Merge)
    requires QuotedRest(w, lines, 0) && MergedSoFar(m, 0)
    ensures AllMerged(Merging.MergeLines(w, "x", lines, 1, m))
  {
    QuotedLinesAreMerged(w, lines, 0, m);
  }

  predicate QuotedFile(w: Merging.World, found: Merging.Found) {
    && found.prepared.None? && 1 <= |found.content| <= Merging.MAX_FILE_BYTES
    && QuotedRest(w, Ingest.Lines(found.content), 0)
  }

  lemma SourceFromLines(w: Merging.World, name: string, found: Merging.Found, merged: Option<Merging.Merge>)
    requires found.prepared.None? && 1 <= |found.content| <= Merging.MAX_FILE_BYTES
    requires merged == Merging.MergeLines(
                         w, name, Ingest.Lines(found.content), 1, Merging.EMPTY.(totalBytes := |found.content|))
    requires merged.Some? && merged.value.records >= 1
    ensures var m := Merging.MergeSource(w, name, found, Merging.EMPTY);
            m.Some? && m.value.ids == merged.value.ids
  {
  }

  lemma QuotedSourceIsMerged(w: Merging.World, found: Merging.Found)
    requires QuotedFile(w, found)
    ensures var merged := Merging.MergeSource(w, "x", found, Merging.EMPTY);
            merged.Some? && merged.value.ids == QuotedIds(ROWS)
  {
    var (started, lines) := (Merging.EMPTY.(totalBytes := |found.content|), Ingest.Lines(found.content));
    QuotedLinesFromTheStart(w, lines, started);
    SourceFromLines(w, "x", found, Merging.MergeLines(w, "x", lines, 1, started));
  }

  lemma OneSourceIsPrepared(w: Merging.World, source: Merging.DatasetSource)
    requires w.find(source.path).Some?
    ensures Merging.PrepareDataset(w, [source]) == Merging.MergeSource(w, source.name, w.find(source.path).value, Merging.EMPTY)
  {
    var sources := [source];
    assert Merging.Resolvable(w, sources);
    assert sources[..0] == [] && sources[1..] == [];
    assert Merging.Sorting.Sorted(Merging.SourceAtMost, sources) == sources;
    var merged := Merging.MergeSource(w, source.name, w.find(source.path).value, Merging.EMPTY);
    if merged.Some? {
      assert Merging.MergeSources(w, sources[1..], merged.value) == merged;
    }
  }

  /** A file with these rows is merged without complaint, under exactly the ids that the report cannot hold. */
  lemma QuotedFileIsMerged(w: Merging.World, path: string)
    requires w.find(path).Some? && QuotedFile(w, w.find(path).value)
    ensures var merged := Merging.PrepareDataset(w, [Merging.DatasetSource("x", path)]);
            merged.Some? && merged.value.ids == QuotedIds(ROWS)
  {
    QuotedSourceIsMerged(w, w.find(path).value);
    OneSourceIsPrepared(w, Merging.DatasetSource("x", path));
  }
}
