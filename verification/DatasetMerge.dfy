/** Merging the data sets of an evaluation run into one file: rows get unique ids, the order of the request
    does not matter, and the runner's loader reads back exactly what the manifest says. */
module DatasetMerge {
  import opened Contract
  import opened JsonlIngest
  import EvaluationReport
  import JsonText
  import Sorting

  const MAX_FILES := 16
  const MAX_FILE_BYTES := 256 * 1024 * 1024
  const MAX_TOTAL_BYTES := 512 * 1024 * 1024
  const MAX_LINE := 1_048_576
  const MAX_RECORDS := 200_000
  const MAX_CATEGORIES := 4_096
  const MAX_ID_BYTES := 32 * 1024 * 1024
  const MAX_SHORT := 191
  const RESERVED := "openllmops_source"

  datatype DatasetSource = DatasetSource(name: string, path: string)

  /** A file that was found under one of the allowed roots: its identity, its bytes, and for a built-in set
      the digest and record count of its manifest. */
  datatype Found = Found(identity: nat, content: Bytes, prepared: Option<(Bytes, nat)>)

  /** The file system, and the JSON and text functions the merge uses.  `encode` gives the canonical line
      without its line feed; `show` is the text of a JSON value, `decimal` that of a line number. */
  datatype World = World(
    find: string -> Option<Found>, decode: Bytes -> Option<Json>, encode: Json -> Option<Bytes>,
    show: Json -> string, decimal: nat -> string)

  datatype SourceManifest = SourceManifest(name: string, sha256: Bytes, sizeBytes: nat, recordCount: nat)

  /** Everything the merge has written and counted so far; `digest` and `records` are updated line by line. */
  datatype Merge = Merge(
    lines: seq<Bytes>, rows: seq<Json>, ids: seq<string>, categories: set<string>, idBytes: nat, totalBytes: nat,
    digest: Bytes, records: nat, manifests: seq<SourceManifest>)

  const EMPTY := Merge([], [], [], {}, 0, 0, [], 0, [])

  datatype CombinedManifest = CombinedManifest(recordCount: nat, sha256: Bytes, sizeBytes: nat)

  /** What the merge leaves behind: the merged file and the manifest. */
  datatype Workspace = Workspace(file: Bytes, combined: CombinedManifest, sources: seq<SourceManifest>)

  function WorkspaceOf(m: Merge): Workspace {
    var file := Flatten(m.lines);
    Workspace(file, CombinedManifest(m.records, m.digest, |file|), m.manifests)
  }

  // ---- Names ----

  predicate NameChar(c: char) {
    'A' <= c <= 'Z' || 'a' <= c <= 'z' || '0' <= c <= '9' || c == '.' || c == '_' || c == '-'
  }

  /** The names the start command allows. */
  predicate SourceName(name: string) {
    1 <= |name| <= 64 && forall i :: 0 <= i < |name| ==> NameChar(name[i])
  }

  function MergedId(name: string, original: string): string {
    name + ":" + original
  }

  function FirstColon(s: string): nat {
    if s == "" || s[0] == ':' then 0 else 1 + FirstColon(s[1..])
  }

  /** The two parts of a merged id. */
  function SplitId(id: string): (string, string) {
    var k := FirstColon(id);
    if k < |id| then (id[..k], id[k + 1..]) else (id, "")
  }

  lemma {:induction false} FirstColonAfter(name: string, rest: string)
    requires forall i :: 0 <= i < |name| ==> NameChar(name[i])
    ensures FirstColon(name + ":" + rest) == |name|
  {
    if name == "" {
      assert name + ":" + rest == ":" + rest;
    } else {
      FirstColonAfter(name[1..], rest);
      assert (name + ":" + rest)[1..] == name[1..] + ":" + rest;
    }
  }

  /** A merged id says of which source it comes and what it was called there. */
  lemma MergedIdsSplitBack(name: string, original: string)
    requires SourceName(name)
    ensures SplitId(MergedId(name, original)) == (name, original)
  {
    FirstColonAfter(name, original);
    var id := MergedId(name, original);
    assert id[..|name|] == name && id[|name| + 1..] == original;
  }

  // ---- One row ----

  function ShortText(s: string): Option<string> {
    var t := EvaluationReport.StripEnd(EvaluationReport.StripStart(s));
    if t == "" || |t| > MAX_SHORT || EvaluationReport.HasControl(t) then None else Some(t)
  }

  function OriginalId(w: World, fields: map<string, Json>, number: nat): Option<string> {
    ShortText(if "id" in fields then w.show(fields["id"]) else w.decimal(number))
  }

  function CategoryOf(fields: map<string, Json>): Option<string> {
    if "category" !in fields || fields["category"].Null? then ShortText("default")
    else if !fields["category"].Text? then None
    else ShortText(fields["category"].s)
  }

  function MetadataOf(fields: map<string, Json>): Option<map<string, Json>> {
    if "metadata" !in fields then Some(map[])
    else if fields["metadata"].Obj? && RESERVED !in fields["metadata"].fields then Some(fields["metadata"].fields)
    else None
  }

  function MergedRow(fields: map<string, Json>, name: string, original: string, category: string, metadata: map<string, Json>): Json {
    var origin := Obj(map["name" := Text(name), "original_id" := Text(original)]);
    Obj(fields["id" := Text(MergedId(name, original))]["category" := Text(name + "/" + category)]
              ["metadata" := Obj(metadata[RESERVED := origin])])
  }

  /** One non-blank line of a source, appended to the merge; nothing if the row is refused. */
  function MergeRow(w: World, name: string, line: Bytes, number: nat, m: Merge): Option<Merge> {
    match w.decode(line)
    case Some(Obj(fields)) =>
      var original := OriginalId(w, fields, number);
      if original.None? then None
      else
        var id := MergedId(name, original.value);
        var idBytes := m.idBytes + JsonText.Utf8(id);
        var (category, metadata) := (CategoryOf(fields), MetadataOf(fields));
        if id in m.ids || idBytes > MAX_ID_BYTES || category.None? || metadata.None? then None
        else
          var categories := m.categories + {name + "/" + category.value};
          var row := MergedRow(fields, name, original.value, category.value, metadata.value);
          var encoded := w.encode(row);
          if |categories| > MAX_CATEGORIES || encoded.None? || m.records + 1 > MAX_RECORDS then None
          else
            var written := encoded.value + [LINE_FEED];
            Some(m.(lines := m.lines + [written], rows := m.rows + [row], ids := m.ids + [id], categories := categories,
                    idBytes := idBytes, digest := m.digest + written, records := m.records + 1))
    case _ => None
  }

  function MergeLine(w: World, name: string, line: Bytes, number: nat, m: Merge): Option<Merge> {
    if |line| > MAX_LINE then None else if Blank(line) then Some(m) else MergeRow(w, name, line, number, m)
  }

  /** The lines of one source, from the line numbered `number` on. */
  function MergeLines(w: World, name: string, lines: seq<Bytes>, number: nat, m: Merge): Option<Merge>
    decreases |lines|
  {
    if lines == [] then Some(m)
    else
      var next := MergeLine(w, name, lines[0], number, m);
      if next.None? then None else MergeLines(w, name, lines[1..], number + 1, next.value)
  }

  function MergeSource(w: World, name: string, found: Found, m: Merge): Option<Merge> {
    var total := m.totalBytes + |found.content|;
    if !(1 <= |found.content| <= MAX_FILE_BYTES) || total > MAX_TOTAL_BYTES then None
    else
      var merged := MergeLines(w, name, Lines(found.content), 1, m.(totalBytes := total));
      if merged.None? then None
      else
        var records := merged.value.records - m.records;
        if records <= 0 || (found.prepared.Some? && found.prepared.value != (found.content, records)) then None
        else Some(merged.value.(manifests :=
               merged.value.manifests + [SourceManifest(name, found.content, |found.content|, records)]))
  }

  function MergeSources(w: World, sources: seq<DatasetSource>, m: Merge): Option<Merge>
    requires forall i :: 0 <= i < |sources| ==> w.find(sources[i].path).Some?
    decreases |sources|
  {
    if sources == [] then Some(m)
    else
      var next := MergeSource(w, sources[0].name, w.find(sources[0].path).value, m);
      if next.None? then None else MergeSources(w, sources[1..], next.value)
  }

  // ---- What a merge asks of its sources, in full ----

  /** Which names a source may have: 1 to 64 digits, letters, hyphens, dots and underscores, by their codes. */
  lemma SourceNamesAreThese(name: string)
    ensures SourceName(name) <==>
      && 1 <= |name| <= 64
      && forall i :: 0 <= i < |name| ==>
           var c := name[i] as int; 48 <= c <= 57 || 65 <= c <= 90 || 97 <= c <= 122 || c == 45 || c == 46 || c == 95
  {
  }

  ghost predicate ShortAfterStripping(s: string, t: string) {
    EvaluationReport.Stripped(s, t) && 1 <= |t| <= 191 && forall i :: 0 <= i < |t| ==> t[i] as int >= 32
  }

  lemma ShortTextsAreShort(s: string, t: string)
    ensures ShortText(s) == Some(t) <==> ShortAfterStripping(s, t)
  {
    EvaluationReport.StrippingIsExact(s, t);
  }

  /** What is taken as a row's id: the value of its id, or else its line number, stripped, of 1 to 191 characters and
      without control characters. */
  lemma IdsAreTaken(w: World, fields: map<string, Json>, number: nat, t: string)
    ensures "id" in fields ==> (OriginalId(w, fields, number) == Some(t) <==> ShortAfterStripping(w.show(fields["id"]), t))
    ensures "id" !in fields ==> (OriginalId(w, fields, number) == Some(t) <==> ShortAfterStripping(w.decimal(number), t))
  {
    ShortTextsAreShort(if "id" in fields then w.show(fields["id"]) else w.decimal(number), t);
  }

  /** What is taken as its category: its text, stripped and short as well, or "default" when it has none. */
  lemma CategoriesAreTaken(fields: map<string, Json>, t: string)
    ensures "category" in fields && fields["category"].Text? ==>
              (CategoryOf(fields) == Some(t) <==> ShortAfterStripping(fields["category"].s, t))
    ensures "category" !in fields || fields["category"] == Null ==> CategoryOf(fields) == Some("default")
    ensures "category" in fields && fields["category"] != Null && !fields["category"].Text? ==> CategoryOf(fields) == None
  {
    if "category" in fields && fields["category"].Text? {
      ShortTextsAreShort(fields["category"].s, t);
    }
    EvaluationReport.OnlyOneRest("", "default", "");
    assert "" + "default" + "" == "default";
  }

  /** And as its metadata: an object without the name the merge uses, or nothing. */
  lemma MetadataIsTaken(fields: map<string, Json>)
    ensures MetadataOf(fields) ==
      if "metadata" !in fields then Some(map[])
      else if fields["metadata"].Obj? && "openllmops_source" !in fields["metadata"].fields then Some(fields["metadata"].fields)
      else None
  {
  }

  /** What a merged row holds: all its fields, but the id and the category with the source's name before them, and in
      its metadata where it came from. */
  lemma MergedRowsHold(fields: map<string, Json>, name: string, original: string, category: string, metadata: map<string, Json>, key: string)
    ensures var row := MergedRow(fields, name, original, category, metadata);
            && row.Obj? && row.fields.Keys == fields.Keys + {"id", "category", "metadata"}
            && row.fields["id"] == Text(name + ":" + original) && row.fields["category"] == Text(name + "/" + category)
            && row.fields["metadata"].Obj? && row.fields["metadata"].fields.Keys == metadata.Keys + {"openllmops_source"}
            && row.fields["metadata"].fields["openllmops_source"] == Obj(map["name" := Text(name), "original_id" := Text(original)])
            && (key in metadata && key != "openllmops_source" ==> row.fields["metadata"].fields[key] == metadata[key])
            && (key in fields && key !in {"id", "category", "metadata"} ==> row.fields[key] == fields[key])
  {
  }

  /** When a line is merged, and what it adds.  Blank lines add nothing; a line of more than 1 MiB, a value that is
      not an object, a part that cannot be taken, a second row of the same id, more than 32 MiB of ids, more than
      4,096 categories or more than 200,000 rows end the merge. */
  lemma LinesAreMerged(w: World, name: string, line: Bytes, number: nat, m: Merge)
    ensures |line| > 1_048_576 ==> MergeLine(w, name, line, number, m) == None
    ensures |line| <= 1_048_576 && Blank(line) ==> MergeLine(w, name, line, number, m) == Some(m)
    ensures var (item, merged) := (w.decode(line), MergeLine(w, name, line, number, m));
            |line| <= 1_048_576 && !Blank(line) ==>
              if !(&& item.Some? && item.value.Obj? && OriginalId(w, item.value.fields, number).Some?
                   && CategoryOf(item.value.fields).Some? && MetadataOf(item.value.fields).Some?)
              then merged == None
              else
                var fields := item.value.fields;
                var (original, category) := (OriginalId(w, fields, number).value, CategoryOf(fields).value);
                var (id, row) := (name + ":" + original, MergedRow(fields, name, original, category, MetadataOf(fields).value));
                && (merged.Some? <==>
                      && id !in m.ids && m.idBytes + JsonText.Utf8(id) <= 33_554_432
                      && |m.categories + {name + "/" + category}| <= 4096 && w.encode(row).Some? && m.records < 200_000)
                && (merged.Some? ==>
                      && merged.value.lines == m.lines + [w.encode(row).value + [10]] && merged.value.rows == m.rows + [row]
                      && merged.value.ids == m.ids + [id] && merged.value.categories == m.categories + {name + "/" + category}
                      && merged.value.idBytes == m.idBytes + JsonText.Utf8(id) && merged.value.records == m.records + 1
                      && merged.value.digest == m.digest + merged.value.lines[|m.lines|]
                      && merged.value.manifests == m.manifests && merged.value.totalBytes == m.totalBytes)
  {
  }

  /** When a source is merged: it has 1 byte to 256 MiB, all sources so far at most 512 MiB, every line of it is merged,
      at least one of them is a row, and a built-in set is what its own manifest says. */
  lemma SourcesAreMerged(w: World, name: string, found: Found, m: Merge)
    ensures var n := |found.content|;
            var (rows, merged) := (MergeLines(w, name, Lines(found.content), 1, m.(totalBytes := m.totalBytes + n)), MergeSource(w, name, found, m));
            && (merged.Some? <==>
                  && 1 <= n <= 268_435_456 && m.totalBytes + n <= 536_870_912 && rows.Some? && rows.value.records > m.records
                  && (found.prepared.Some? ==>
                        found.prepared.value.0 == found.content && found.prepared.value.1 == rows.value.records - m.records))
            && (merged.Some? ==>
                  merged.value == rows.value.(manifests :=
                    rows.value.manifests + [SourceManifest(name, found.content, n, rows.value.records - m.records)]))
  {
  }

  /** When a request is taken up at all: 1 to 16 sources with different names and different files that are all found. */
  lemma RequestsAreResolvable(w: World, sources: seq<DatasetSource>)
    ensures Resolvable(w, sources) <==>
      && 1 <= |sources| <= 16 && (forall source <- sources :: w.find(source.path).Some?)
      && (forall i, j :: 0 <= i < |sources| && 0 <= j < |sources| && i != j ==>
            sources[i].name != sources[j].name && w.find(sources[i].path).value.identity != w.find(sources[j].path).value.identity)
    ensures !Resolvable(w, sources) ==> PrepareDataset(w, sources) == None
  {
    if forall source <- sources :: w.find(source.path).Some? {
      forall i | 0 <= i < |sources| ensures w.find(sources[i].path).Some? {
        assert sources[i] in sources;
      }
    }
  }

  predicate SourceAtMost(a: DatasetSource, b: DatasetSource) {
    if a.name == b.name then EvaluationReport.LexAtMost(a.path, b.path) else EvaluationReport.LexAtMost(a.name, b.name)
  }

  /** The order of the sources: by name, and by path under one name. */
  lemma SourcesAreInOrder(a: DatasetSource, b: DatasetSource)
    ensures SourceAtMost(a, b) <==>
      (a.name != b.name && EvaluationReport.LexAtMost(a.name, b.name)) || (a.name == b.name && EvaluationReport.LexAtMost(a.path, b.path))
  {
  }

  predicate NamesDiffer(sources: seq<DatasetSource>) {
    forall i, j :: 0 <= i < j < |sources| ==> sources[i].name != sources[j].name
  }

  predicate Resolvable(w: World, sources: seq<DatasetSource>) {
    && 1 <= |sources| <= MAX_FILES
    && NamesDiffer(sources) && FilesDiffer(w, sources)
  }

  /** Every source is found, and no two are the same file. */
  predicate FilesDiffer(w: World, sources: seq<DatasetSource>) {
    && (forall i :: 0 <= i < |sources| ==> w.find(sources[i].path).Some?)
    && (forall i, j :: 0 <= i < j < |sources| ==> w.find(sources[i].path).value.identity != w.find(sources[j].path).value.identity)
  }

  /** The whole merge: the combined file, or nothing. */
  function PrepareDataset(w: World, sources: seq<DatasetSource>): Option<Merge> {
    if !Resolvable(w, sources) then None
    else
      SortingKeepsResolvable(w, sources);
      MergeSources(w, Sorting.Sorted(SourceAtMost, sources), EMPTY)
  }

  // ---- The order of the request does not matter ----

  lemma SourceOrderIsTotal()
    ensures Sorting.TotalPreorder(SourceAtMost) && Sorting.Antisymmetric(SourceAtMost)
  {
    forall a: DatasetSource, b: DatasetSource, c: DatasetSource
      ensures SourceAtMost(a, b) || SourceAtMost(b, a)
      ensures SourceAtMost(a, b) && SourceAtMost(b, a) ==> a == b
      ensures SourceAtMost(a, b) && SourceAtMost(b, c) ==> SourceAtMost(a, c)
    {
      EvaluationReport.LexLaws(a.name, b.name, c.name);
      EvaluationReport.LexLaws(b.name, c.name, a.name);
      EvaluationReport.LexLaws(a.path, b.path, c.path);
    }
  }

  lemma RearrangedStaysResolvable(w: World, a: seq<DatasetSource>, b: seq<DatasetSource>)
    requires Resolvable(w, a) && multiset(a) == multiset(b)
    ensures Resolvable(w, b)
  {
    assert |a| == |multiset(a)| == |multiset(b)| == |b|;
    forall i | 0 <= i < |b| ensures b[i] in a {
      assert b[i] in multiset(b);
    }
    forall i, j | 0 <= i < j < |b| ensures b[i] != b[j] {
      AppearsOnce(a, b[i]);
      AppearsAgain(b, i, j);
    }
  }

  lemma AppearsAgain(b: seq<DatasetSource>, i: nat, j: nat)
    requires i < j < |b|
    ensures b[i] == b[j] ==> multiset(b)[b[i]] >= 2
  {
    var (before, after) := (b[..j], b[j..]);
    assert b == before + after;
    assert before[i] in before && after[0] in after;
    assert multiset(b) == multiset(before) + multiset(after);
  }

  lemma {:induction false} AppearsOnce(a: seq<DatasetSource>, x: DatasetSource)
    requires forall i, j :: 0 <= i < j < |a| ==> a[i].name != a[j].name
    ensures multiset(a)[x] <= 1
  {
    if a != [] {
      AppearsOnce(a[..|a| - 1], x);
      assert a == a[..|a| - 1] + [a[|a| - 1]];
      if a[|a| - 1] == x {
        assert x !in a[..|a| - 1];
      }
    }
  }

  /** Any permutation of the requested sources gives the same merged file, counts and manifest. */
  lemma OrderDoesNotMatter(w: World, a: seq<DatasetSource>, b: seq<DatasetSource>)
    requires multiset(a) == multiset(b)
    ensures PrepareDataset(w, a) == PrepareDataset(w, b)
  {
    SourceOrderIsTotal();
    Sorting.SortingIsOrderFree(SourceAtMost, a, b);
    if Resolvable(w, a) { RearrangedStaysResolvable(w, a, b); }
    if Resolvable(w, b) { RearrangedStaysResolvable(w, b, a); }
  }

  /** The second look at the sorted list never refuses what the first accepted. */
  lemma SortingKeepsResolvable(w: World, sources: seq<DatasetSource>)
    requires Resolvable(w, sources)
    ensures Resolvable(w, Sorting.Sorted(SourceAtMost, sources))
  {
    SourceOrderIsTotal();
    Sorting.SortedIsOrdered(SourceAtMost, sources);
    RearrangedStaysResolvable(w, sources, Sorting.Sorted(SourceAtMost, sources));
  }

  // ---- What the merged file holds ----

  /** Canonical encoding: one line, not blank, read back as the value it encodes. */
  ghost predicate Encodes(w: World) {
    forall j: Json :: w.encode(j).Some? ==>
      && (forall i :: 0 <= i < |w.encode(j).value| ==> w.encode(j).value[i] != LINE_FEED)
      && !Blank(w.encode(j).value) && w.decode(w.encode(j).value + [LINE_FEED]) == Some(j)
  }

  predicate Canonical(line: Bytes) {
    && line != [] && line[|line| - 1] == LINE_FEED && !Blank(line)
    && forall i :: 0 <= i < |line| - 1 ==> line[i] != LINE_FEED
  }

  predicate RowFits(w: World, row: Json, line: Bytes, id: string) {
    && Canonical(line) && w.decode(line) == Some(row)
    && row.Obj? && "id" in row.fields && row.fields["id"] == Text(id)
    && id != "" && !IsBlank(id[0]) && !IsBlank(id[|id| - 1])
  }

  predicate Sound(w: World, m: Merge) {
    && |m.lines| == |m.rows| == |m.ids| == m.records <= MAX_RECORDS && Distinct(m.ids) && m.digest == Flatten(m.lines)
    && forall i :: 0 <= i < |m.lines| ==> RowFits(w, m.rows[i], m.lines[i], m.ids[i])
  }

  lemma {:induction false} StripEndStops(s: string)
    ensures EvaluationReport.StripEnd(s) == "" || !IsBlank(EvaluationReport.StripEnd(s)[|EvaluationReport.StripEnd(s)| - 1])
  {
    if s != "" && IsBlank(s[|s| - 1]) {
      StripEndStops(s[..|s| - 1]);
    }
  }

  lemma RowIsFitting(w: World, name: string, line: Bytes, number: nat, m: Merge)
    requires Encodes(w) && SourceName(name) && MergeRow(w, name, line, number, m).Some?
    ensures var m' := MergeRow(w, name, line, number, m).value;
            && m'.lines == m.lines + [m'.lines[|m.lines|]] && m'.records == m.records + 1 <= MAX_RECORDS
            && m'.digest == m.digest + m'.lines[|m.lines|]
            && (|m.rows| == |m.ids| == |m.lines| ==>
                 && m'.rows == m.rows + [m'.rows[|m.lines|]] && m'.ids == m.ids + [m'.ids[|m.lines|]]
                 && m'.ids[|m.lines|] !in m.ids
                 && RowFits(w, m'.rows[|m.lines|], m'.lines[|m.lines|], m'.ids[|m.lines|]))
            && m'.manifests == m.manifests && m'.totalBytes == m.totalBytes
  {
    var fields := w.decode(line).value.fields;
    var original := OriginalId(w, fields, number);
    var text := if "id" in fields then w.show(fields["id"]) else w.decimal(number);
    StripEndStops(EvaluationReport.StripStart(text));
    var id := MergedId(name, original.value);
    assert id[0] == name[0] && id[|id| - 1] == original.value[|original.value| - 1];
    assert NameChar(name[0]);
    var row := MergedRow(fields, name, original.value, CategoryOf(fields).value, MetadataOf(fields).value);
    var encoded := w.encode(row).value;
    assert exists i :: 0 <= i < |encoded| && !BlankByte(encoded[i]);
    var i :| 0 <= i < |encoded| && !BlankByte(encoded[i]);
    assert (encoded + [LINE_FEED])[i] == encoded[i];
  }

  lemma RowKeepsSound(w: World, name: string, line: Bytes, number: nat, m: Merge)
    requires Encodes(w) && SourceName(name) && Sound(w, m) && MergeRow(w, name, line, number, m).Some?
    ensures Sound(w, MergeRow(w, name, line, number, m).value)
  {
    RowIsFitting(w, name, line, number, m);
    OneMoreLine(m.lines, MergeRow(w, name, line, number, m).value.lines[|m.lines|]);
  }

  lemma {:induction false} LinesKeepSound(w: World, name: string, lines: seq<Bytes>, number: nat, m: Merge)
    requires Encodes(w) && SourceName(name) && Sound(w, m) && MergeLines(w, name, lines, number, m).Some?
    ensures var m' := MergeLines(w, name, lines, number, m).value;
            Sound(w, m') && m'.manifests == m.manifests && |m'.lines| == |m.lines| + NonBlank(lines)
    decreases |lines|
  {
    if lines != [] {
      assert lines == [lines[0]] + lines[1..];
      CountFirst(lines[0], lines[1..]);
      if !Blank(lines[0]) {
        RowKeepsSound(w, name, lines[0], number, m);
        RowIsFitting(w, name, lines[0], number, m);
      }
      LinesKeepSound(w, name, lines[1..], number + 1, MergeLine(w, name, lines[0], number, m).value);
    }
  }

  lemma {:induction false} CountFirst(line: Bytes, rest: seq<Bytes>)
    ensures NonBlank([line] + rest) == (if Blank(line) then 0 else 1) + NonBlank(rest)
  {
    if rest == [] {
      assert [line] + rest == [line] && [line][..0] == [];
    } else {
      CountFirst(line, rest[..|rest| - 1]);
      assert ([line] + rest)[..|rest|] == [line] + rest[..|rest| - 1];
    }
  }

  function RecordSum(manifests: seq<SourceManifest>): nat {
    if manifests == [] then 0 else RecordSum(manifests[..|manifests| - 1]) + manifests[|manifests| - 1].recordCount
  }

  /** The manifest of each merged source tells its size, its digest and its non-blank lines. */
  predicate ManifestFits(x: SourceManifest, name: string, content: Bytes) {
    x == SourceManifest(name, content, |content|, NonBlank(Lines(content)))
  }

  predicate Tallies(m: Merge) {
    RecordSum(m.manifests) == m.records
  }

  lemma SourceKeepsSound(w: World, name: string, found: Found, m: Merge)
    requires Encodes(w) && SourceName(name) && Sound(w, m) && Tallies(m) && MergeSource(w, name, found, m).Some?
    ensures var m' := MergeSource(w, name, found, m).value;
            && Sound(w, m') && Tallies(m') && |m'.manifests| == |m.manifests| + 1 && m.manifests <= m'.manifests
            && ManifestFits(m'.manifests[|m.manifests|], name, found.content)
  {
    LinesKeepSound(w, name, Lines(found.content), 1, m.(totalBytes := m.totalBytes + |found.content|));
  }

  /** From the manifest at `from` on there is one fitting manifest for each of the sources. */
  predicate ManifestsFit(w: World, manifests: seq<SourceManifest>, from: nat, sources: seq<DatasetSource>) {
    && |manifests| == from + |sources|
    && forall i :: 0 <= i < |sources| ==>
         w.find(sources[i].path).Some? && ManifestFits(manifests[from + i], sources[i].name, w.find(sources[i].path).value.content)
  }

  lemma ManifestsFitFirst(w: World, manifests: seq<SourceManifest>, from: nat, sources: seq<DatasetSource>)
    requires sources != [] && from < |manifests| && ManifestsFit(w, manifests, from + 1, sources[1..])
    requires w.find(sources[0].path).Some? && ManifestFits(manifests[from], sources[0].name, w.find(sources[0].path).value.content)
    ensures ManifestsFit(w, manifests, from, sources)
  {
    forall i | 0 <= i < |sources|
      ensures w.find(sources[i].path).Some? && ManifestFits(manifests[from + i], sources[i].name, w.find(sources[i].path).value.content)
    {
      if i > 0 { assert sources[i] == sources[1..][i - 1]; }
    }
  }

  lemma {:induction false} SourcesKeepSound(w: World, sources: seq<DatasetSource>, m: Merge)
    requires Encodes(w) && Sound(w, m) && Tallies(m) && forall i :: 0 <= i < |sources| ==> SourceName(sources[i].name)
    requires (forall i :: 0 <= i < |sources| ==> w.find(sources[i].path).Some?) && MergeSources(w, sources, m).Some?
    ensures var m' := MergeSources(w, sources, m).value;
            Sound(w, m') && Tallies(m') && m.manifests <= m'.manifests && ManifestsFit(w, m'.manifests, |m.manifests|, sources)
    decreases |sources|
  {
    if sources != [] {
      var found := w.find(sources[0].path).value;
      SourceKeepsSound(w, sources[0].name, found, m);
      var next := MergeSource(w, sources[0].name, found, m).value;
      SourcesKeepSound(w, sources[1..], next);
      var m' := MergeSources(w, sources[1..], next).value;
      assert m'.manifests[|m.manifests|] == next.manifests[|m.manifests|];
      ManifestsFitFirst(w, m'.manifests, |m.manifests|, sources);
    }
  }

  /** The merge conserves records: one merged line for each non-blank line of each source, all with
      different ids, and the combined count is the sum of the sources' counts. */
  lemma MergeConservesRecords(w: World, sources: seq<DatasetSource>)
    requires Encodes(w) && (forall i :: 0 <= i < |sources| ==> SourceName(sources[i].name)) && PrepareDataset(w, sources).Some?
    ensures var m := PrepareDataset(w, sources).value;
            var sorted := Sorting.Sorted(SourceAtMost, sources);
            && Sound(w, m) && |m.lines| == RecordSum(m.manifests) && |m.manifests| == |sources|
            && forall i :: 0 <= i < |sorted| ==>
                 w.find(sorted[i].path).Some? && i < |m.manifests|
                 && ManifestFits(m.manifests[i], sorted[i].name, w.find(sorted[i].path).value.content)
  {
    SortingKeepsResolvable(w, sources);
    SortedNamesAllowed(sources);
    SourcesKeepSound(w, Sorting.Sorted(SourceAtMost, sources), EMPTY);
  }

  lemma SortedNamesAllowed(sources: seq<DatasetSource>)
    requires forall i :: 0 <= i < |sources| ==> SourceName(sources[i].name)
    ensures var sorted := Sorting.Sorted(SourceAtMost, sources);
            |sorted| == |sources| && forall i :: 0 <= i < |sorted| ==> SourceName(sorted[i].name)
  {
    var sorted := Sorting.Sorted(SourceAtMost, sources);
    SourceOrderIsTotal();
    Sorting.SortedIsOrdered(SourceAtMost, sources);
    assert |sorted| == |multiset(sorted)| == |multiset(sources)| == |sources|;
    forall i | 0 <= i < |sorted| ensures SourceName(sorted[i].name) {
      assert sorted[i] in multiset(sorted);
      assert sorted[i] in sources;
    }
  }

  // ---- Reading the merged file back ----

  /** The loader's own checks on a decoded row at a line number, beyond those on its id. */
  datatype Loader = Loader(decode: Bytes -> Option<Json>, accepts: (Json, nat) -> bool, show: Json -> string, decimal: nat -> string)

  function LoadedId(l: Loader, row: Json, number: nat): string
    requires row.Obj?
  {
    EvaluationReport.StripEnd(EvaluationReport.StripStart(if "id" in row.fields then l.show(row.fields["id"]) else l.decimal(number)))
  }

  /** The sample ids read from the lines, or nothing if a line is refused or an id repeated. */
  function Load(l: Loader, lines: seq<Bytes>): Option<seq<string>> {
    if lines == [] then Some([])
    else
      var (before, line) := (Load(l, lines[..|lines| - 1]), lines[|lines| - 1]);
      if before.None? || |line| > MAX_LINE then None
      else if Blank(line) then before
      else match l.decode(line)
        case Some(Obj(fields)) =>
          var id := LoadedId(l, Obj(fields), |lines|);
          if id == "" || !l.accepts(Obj(fields), |lines|) || id in before.value then None else Some(before.value + [id])
        case _ => None
  }

  /** What the loader makes of a file: the ids in file order and the digest, or nothing, also when the file
      holds no sample. */
  function Loaded(l: Loader, text: Bytes): Option<(seq<string>, Bytes)> {
    var ids := Load(l, Lines(text));
    if ids.None? || ids.value == [] then None else Some((ids.value, text))
  }

  /** What one more line does to the loader: a line of more than 1 MiB, one that is not an object, an id that is blank or
      was there before, and a row that is not in order end it; a blank line does nothing. */
  function LoadLine(l: Loader, ids: seq<string>, line: Bytes, number: nat): Option<seq<string>> {
    if |line| > 1_048_576 then None
    else if Blank(line) then Some(ids)
    else if l.decode(line).None? || !l.decode(line).value.Obj? then None
    else
      var id := LoadedId(l, l.decode(line).value, number);
      if id == "" || id in ids || !l.accepts(l.decode(line).value, number) then None else Some(ids + [id])
  }

  lemma LinesAreLoaded(l: Loader, lines: seq<Bytes>)
    ensures lines == [] ==> Load(l, lines) == Some([])
    ensures lines != [] ==>
      var (before, line) := (Load(l, lines[..|lines| - 1]), lines[|lines| - 1]);
      && (before.None? ==> Load(l, lines) == None)
      && (before.Some? ==> Load(l, lines) == LoadLine(l, before.value, line, |lines|))
  {
    if lines != [] && Load(l, lines[..|lines| - 1]).Some? {
      OneLineIsLoaded(l, lines, Load(l, lines[..|lines| - 1]).value, lines[|lines| - 1]);
    }
  }

  lemma OneLineIsLoaded(l: Loader, lines: seq<Bytes>, ids: seq<string>, line: Bytes)
    requires lines != [] && line == lines[|lines| - 1] && Load(l, lines[..|lines| - 1]) == Some(ids)
    ensures Load(l, lines) == LoadLine(l, ids, line, |lines|)
  {
    if |line| <= 1_048_576 && !Blank(line) && l.decode(line).Some? && l.decode(line).value.Obj? {
      assert l.decode(line) == Some(Obj(l.decode(line).value.fields));
    }
  }

  /** The id the loader gives a row: the value of its id, or else its line number, stripped. */
  lemma LoadedIdsAreStripped(l: Loader, row: Json, number: nat)
    requires row.Obj?
    ensures "id" in row.fields ==> EvaluationReport.Stripped(l.show(row.fields["id"]), LoadedId(l, row, number))
    ensures "id" !in row.fields ==> EvaluationReport.Stripped(l.decimal(number), LoadedId(l, row, number))
  {
    EvaluationReport.StrippingIsExact(if "id" in row.fields then l.show(row.fields["id"]) else l.decimal(number), LoadedId(l, row, number));
  }

  /** One line of the loader. */
  method ReadSample(l: Loader, line: Bytes, number: nat, samples: seq<string>, seen: set<string>, ghost lines: seq<Bytes>)
    returns (samples': seq<string>, seen': set<string>, ok: bool)
    requires Load(l, lines) == Some(samples) && number == |lines| + 1 && forall x :: x in seen <==> x in samples
    ensures ok <==> Load(l, lines + [line]).Some?
    ensures ok ==> Load(l, lines + [line]) == Some(samples') && forall x :: x in seen' <==> x in samples'
  {
    assert (lines + [line])[..|lines|] == lines;
    samples', seen', ok := samples, seen, false;
    if |line| > MAX_LINE { return; }
    if Blank(line) { return samples, seen, true; }
    var row := l.decode(line);
    if row.None? || !row.value.Obj? { return; }
    var id := LoadedId(l, row.value, number);
    if id == "" || !l.accepts(row.value, number) { return; }
    if id in seen { return; }
    return samples + [id], seen + {id}, true;
  }

  /** The loader: samples in file order and the digest of the file. */
  method LoadJsonl(l: Loader, text: Bytes) returns (result: Option<(seq<string>, Bytes)>)
    ensures result == Loaded(l, text)
  {
    var lines := Lines(text);
    var digest: Bytes := [];
    var samples: seq<string> := [];
    var seen: set<string> := {};
    for number := 0 to |lines|
      invariant Load(l, lines[..number]) == Some(samples) && digest == Flatten(lines[..number])
      invariant forall x :: x in seen <==> x in samples
    {
      OneMoreLine(lines[..number], lines[number]);
      assert lines[..number + 1] == lines[..number] + [lines[number]];
      digest := digest + lines[number];
      var ok;
      samples, seen, ok := ReadSample(l, lines[number], number + 1, samples, seen, lines[..number]);
      if !ok {
        RefusedPrefix(l, lines, number + 1);
        return None;
      }
    }
    assert lines[..|lines|] == lines;
    LinesOfText(text);
    result := if samples == [] then None else Some((samples, digest));
  }

  lemma {:induction false} RefusedPrefix(l: Loader, lines: seq<Bytes>, n: nat)
    requires n <= |lines| && Load(l, lines[..n]).None?
    ensures Load(l, lines).None?
  {
    if n < |lines| {
      assert lines[..|lines| - 1][..n] == lines[..n];
      RefusedPrefix(l, lines[..|lines| - 1], n);
    } else {
      assert lines[..n] == lines;
    }
  }

  lemma {:induction false} FirstLine(line: Bytes, rest: Bytes)
    requires Canonical(line)
    ensures LineLength(line + rest) == |line|
  {
    if |line| > 1 {
      assert (line + rest)[1..] == line[1..] + rest;
      LongerLine(line, rest);
    }
  }

  lemma {:induction false} LongerLine(line: Bytes, rest: Bytes)
    requires line != [] && line[|line| - 1] == LINE_FEED && forall i :: 0 <= i < |line| - 1 ==> line[i] != LINE_FEED
    ensures LineLength(line + rest) == |line|
  {
    if |line| > 1 {
      assert (line + rest)[1..] == line[1..] + rest;
      LongerLine(line[1..], rest);
    }
  }

  /** Lines that were written one by one are read back one by one. */
  lemma {:induction false} WrittenLinesReadBack(lines: seq<Bytes>)
    requires forall i :: 0 <= i < |lines| ==> Canonical(lines[i])
    ensures Lines(Flatten(lines)) == lines
  {
    if lines != [] {
      assert lines == [lines[0]] + lines[1..];
      FlattenOfConcat([lines[0]], lines[1..]);
      FlattenOne(lines[0]);
      WrittenLinesReadBack(lines[1..]);
      FirstLine(lines[0], Flatten(lines[1..]));
      var text := Flatten(lines);
      assert text == lines[0] + Flatten(lines[1..]);
      assert text[..|lines[0]|] == lines[0] && text[|lines[0]|..] == Flatten(lines[1..]);
    }
  }

  lemma StripKeeps(s: string)
    requires s != "" && !IsBlank(s[0]) && !IsBlank(s[|s| - 1])
    ensures EvaluationReport.StripEnd(EvaluationReport.StripStart(s)) == s
  {
  }

  /** The loader reads JSON as the merge does. */
  ghost predicate ReadsAlike(w: World, l: Loader) {
    (forall b, j :: w.decode(b) == Some(j) ==> l.decode(b) == Some(j)) && forall s :: l.show(Text(s)) == s
  }

  /** The i-th merged line is short enough for the loader, and its row is in order apart from its id. */
  predicate LoadableAt(l: Loader, m: Merge, i: nat)
    requires i < |m.lines| == |m.rows|
  {
    |m.lines[i]| <= MAX_LINE && l.accepts(m.rows[i], i + 1)
  }

  predicate LoadableUpTo(l: Loader, m: Merge, n: nat)
    requires n <= |m.lines| == |m.rows|
  {
    forall i :: 0 <= i < n ==> LoadableAt(l, m, i)
  }

  /** One more written line for the loader, after `lines` have given `ids`. */
  lemma LoadOneMore(w: World, l: Loader, lines: seq<Bytes>, ids: seq<string>, line: Bytes, row: Json, id: string)
    requires ReadsAlike(w, l) && RowFits(w, row, line, id) && id !in ids && Load(l, lines) == Some(ids)
    ensures Load(l, lines + [line]) == if |line| <= MAX_LINE && l.accepts(row, |lines| + 1) then Some(ids + [id]) else None
  {
    assert (lines + [line])[..|lines|] == lines;
    StripKeeps(id);
    assert l.decode(line) == Some(row);
    assert LoadedId(l, row, |lines| + 1) == id;
  }

  lemma {:induction false} LoadedAsMerged(w: World, l: Loader, m: Merge, n: nat)
    requires Sound(w, m) && n <= |m.lines| && ReadsAlike(w, l)
    ensures Load(l, m.lines[..n]) == if LoadableUpTo(l, m, n) then Some(m.ids[..n]) else None
  {
    if n > 0 {
      var k := n - 1;
      LoadedAsMerged(w, l, m, k);
      var (lines, ids, line, row, id) := (m.lines[..k], m.ids[..k], m.lines[k], m.rows[k], m.ids[k]);
      assert RowFits(w, row, line, id) && id !in ids;
      assert LoadableUpTo(l, m, n) <==> LoadableUpTo(l, m, k) && LoadableAt(l, m, k);
      assert m.lines[..n] == lines + [line] && m.ids[..n] == ids + [id];
      LoadStep(w, l, lines, ids, line, row, id, LoadableUpTo(l, m, k));
    }
  }

  lemma LoadStep(w: World, l: Loader, lines: seq<Bytes>, ids: seq<string>, line: Bytes, row: Json, id: string, loadable: bool)
    requires ReadsAlike(w, l) && RowFits(w, row, line, id) && id !in ids
    requires Load(l, lines) == if loadable then Some(ids) else None
    ensures Load(l, lines + [line]) ==
            if loadable && |line| <= MAX_LINE && l.accepts(row, |lines| + 1) then Some(ids + [id]) else None
  {
    if loadable {
      LoadOneMore(w, l, lines, ids, line, row, id);
    } else {
      assert (lines + [line])[..|lines|] == lines;
    }
  }

  lemma {:induction false} SourcesGiveRecords(w: World, sources: seq<DatasetSource>, m: Merge)
    requires sources != [] && forall i :: 0 <= i < |sources| ==> w.find(sources[i].path).Some?
    requires MergeSources(w, sources, m).Some?
    ensures MergeSources(w, sources, m).value.records > m.records
    decreases |sources|
  {
    var next := MergeSource(w, sources[0].name, w.find(sources[0].path).value, m).value;
    if |sources| > 1 {
      SourcesGiveRecords(w, sources[1..], next);
    }
  }

  lemma MergesHaveRecords(w: World, sources: seq<DatasetSource>)
    requires PrepareDataset(w, sources).Some?
    ensures PrepareDataset(w, sources).value.records >= 1
  {
    SortingKeepsResolvable(w, sources);
    SourcesGiveRecords(w, Sorting.Sorted(SourceAtMost, sources), EMPTY);
  }

  /** The loader accepts the merged file exactly when every merged line is within its own limit, which a line may
      exceed although the source line did not, and every row is in order.  Then it returns one sample per merged
      record, under the merged ids and in their order.  Their number and the digest it returns are those of the
      manifest, whose size is that of the file and whose count is the sum of the sources' counts. */
  lemma LoaderReadsTheMerge(w: World, l: Loader, sources: seq<DatasetSource>)
    requires Encodes(w) && (forall i :: 0 <= i < |sources| ==> SourceName(sources[i].name)) && PrepareDataset(w, sources).Some?
    requires ReadsAlike(w, l)
    ensures var m := PrepareDataset(w, sources).value;
            var (made, loaded) := (WorkspaceOf(m), Loaded(l, WorkspaceOf(m).file));
            && made.combined.sha256 == made.file && made.combined.sizeBytes == |made.file|
            && made.combined.recordCount == RecordSum(made.sources) && |m.lines| == |m.rows|
            && (loaded.Some? <==> LoadableUpTo(l, m, |m.lines|))
            && (loaded.Some? ==> loaded.value.0 == m.ids && |m.ids| == made.combined.recordCount && loaded.value.1 == made.combined.sha256)
  {
    var m := PrepareDataset(w, sources).value;
    MergeConservesRecords(w, sources);
    MergesHaveRecords(w, sources);
    forall i | 0 <= i < |m.lines| ensures Canonical(m.lines[i]) {
      assert RowFits(w, m.rows[i], m.lines[i], m.ids[i]);
    }
    WrittenLinesReadBack(m.lines);
    assert m.lines[..|m.lines|] == m.lines && m.ids[..|m.ids|] == m.ids;
    LoadedAsMerged(w, l, m, |m.lines|);
  }

  // ---- The merge as the program runs it ----

  ghost predicate Seen(seen: set<string>, m: Merge) {
    forall id :: id in seen <==> id in m.ids
  }

  method MergeOneRow(w: World, name: string, line: Bytes, number: nat, m: Merge, seen: set<string>)
    returns (result: Option<Merge>, seen': set<string>)
    requires Seen(seen, m)
    ensures result == MergeRow(w, name, line, number, m)
    ensures result.Some? ==> Seen(seen', result.value)
  {
    seen' := seen;
    var item := w.decode(line);
    if item.None? || !item.value.Obj? { return None, seen; }
    var fields := item.value.fields;
    var original := OriginalId(w, fields, number);
    if original.None? { return None, seen; }
    var id := name + ":" + original.value;
    if id in seen { return None, seen; }
    seen' := seen + {id};
    var idBytes := m.idBytes + JsonText.Utf8(id);
    if idBytes > MAX_ID_BYTES { return None, seen'; }
    var category := CategoryOf(fields);
    if category.None? { return None, seen'; }
    var metadata := MetadataOf(fields);
    if metadata.None? { return None, seen'; }
    var categories := m.categories + {name + "/" + category.value};
    if |categories| > MAX_CATEGORIES { return None, seen'; }
    var row := MergedRow(fields, name, original.value, category.value, metadata.value);
    var encoded := w.encode(row);
    if encoded.None? { return None, seen'; }
    var written := encoded.value + [LINE_FEED];
    var lines := m.lines + [written];
    var digest := m.digest + written;
    var records := m.records + 1;
    if records > MAX_RECORDS { return None, seen'; }
    result := Some(m.(lines := lines, rows := m.rows + [row], ids := m.ids + [id], categories := categories, idBytes := idBytes,
                      digest := digest, records := records));
  }

  method MergeOneLine(w: World, name: string, line: Bytes, number: nat, m: Merge, seen: set<string>, ghost whole: Bytes)
    returns (result: Option<Merge>, seen': set<string>)
    requires Seen(seen, m) && (|line| > MAX_LINE <==> |whole| > MAX_LINE) && (|whole| <= MAX_LINE ==> line == whole)
    ensures result == MergeLine(w, name, whole, number, m)
    ensures result.Some? ==> Seen(seen', result.value)
  {
    if |line| > MAX_LINE { return None, seen; }
    if Blank(line) { return Some(m), seen; }
    result, seen' := MergeOneRow(w, name, line, number, m, seen);
  }

  /** All lines of one file, read with bounded reads. */
  method MergeFile(w: World, name: string, content: Bytes, start: Merge, seenBefore: set<string>)
    returns (result: Option<Merge>, seen: set<string>)
    requires Seen(seenBefore, start)
    ensures result == MergeLines(w, name, Lines(content), 1, start)
    ensures result.Some? ==> Seen(seen, result.value)
  {
    var source := new Source(content);
    var number := 1;
    result, seen := Some(start), seenBefore;
    ghost var goal := MergeLines(w, name, Lines(content), 1, start);
    while source.pos < |source.bytes|
      invariant source.Valid() && fresh(source) && source.bytes == content
      invariant result.Some? && Seen(seen, result.value)
      invariant MergeLines(w, name, Lines(source.Rest()), number, result.value) == goal
      decreases |source.Rest()|
    {
      ghost var rest := source.Rest();
      ghost var whole := rest[..LineLength(rest)];
      CutLine(rest, MAX_LINE);
      FirstOfLines(rest);
      var line := source.ReadLine(MAX_LINE + 1);
      result, seen := MergeOneLine(w, name, line, number, result.value, seen, whole);
      if result.None? { return; }
      assert source.Rest() == rest[LineLength(rest)..];
      number := number + 1;
    }
  }

  lemma FirstOfLines(text: Bytes)
    requires text != []
    ensures var n := LineLength(text);
            Lines(text) != [] && Lines(text)[0] == text[..n] && Lines(text)[1..] == Lines(text[n..])
  {
  }

  method MergeOneSource(w: World, name: string, file: Found, m: Merge, seen: set<string>)
    returns (result: Option<Merge>, seen': set<string>)
    requires Seen(seen, m)
    ensures result == MergeSource(w, name, file, m)
    ensures result.Some? ==> Seen(seen', result.value)
  {
    seen' := seen;
    var total := m.totalBytes + |file.content|;
    if !(1 <= |file.content| <= MAX_FILE_BYTES) || total > MAX_TOTAL_BYTES { return None, seen; }
    var merged;
    merged, seen' := MergeFile(w, name, file.content, m.(totalBytes := total), seen);
    if merged.None? { return None, seen'; }
    var records := merged.value.records - m.records;
    if records <= 0 { return None, seen'; }
    if file.prepared.Some? && file.prepared.value != (file.content, records) { return None, seen'; }
    result := Some(merged.value.(manifests :=
      merged.value.manifests + [SourceManifest(name, file.content, |file.content|, records)]));
  }

  method MergeAll(w: World, sources: seq<DatasetSource>, files: seq<Found>) returns (result: Option<Merge>)
    requires |files| == |sources| && forall i :: 0 <= i < |sources| ==> w.find(sources[i].path) == Some(files[i])
    ensures result == MergeSources(w, sources, EMPTY)
  {
    result := Some(EMPTY);
    var seen := {};
    for i := 0 to |sources|
      invariant result.Some? && Seen(seen, result.value)
      invariant MergeSources(w, sources[i..], result.value) == MergeSources(w, sources, EMPTY)
    {
      assert sources[i..][1..] == sources[i + 1..] && sources[i..][0] == sources[i];
      result, seen := MergeOneSource(w, sources[i].name, files[i], result.value, seen);
      if result.None? { return; }
    }
  }

  /** The merged file with its manifest: counts and digest as they were kept line by line, and the size of
      the file that was written. */
  method PrepareEvaluationWorkspace(w: World, sources: seq<DatasetSource>) returns (result: Option<Workspace>)
    ensures result == if PrepareDataset(w, sources).Some? then Some(WorkspaceOf(PrepareDataset(w, sources).value)) else None
  {
    if !(1 <= |sources| <= MAX_FILES) || !NamesDiffer(sources) { return None; }
    var sorted := Sorting.Sorted(SourceAtMost, sources);
    var found := ResolveAll(w, sorted);
    BothResolvable(w, sources);
    if found.None? { return None; }
    SortingKeepsResolvable(w, sources);
    var merge := MergeAll(w, sorted, found.value);
    if merge.None? { return None; }
    var file := Flatten(merge.value.lines);
    result := Some(Workspace(file, CombinedManifest(merge.value.records, merge.value.digest, |file|), merge.value.manifests));
  }

  /** The resolved files, all different, or nothing. */
  method ResolveAll(w: World, sources: seq<DatasetSource>) returns (found: Option<seq<Found>>)
    ensures found.Some? <==> FilesDiffer(w, sources)
    ensures found.Some? ==> |found.value| == |sources| && forall i :: 0 <= i < |sources| ==> w.find(sources[i].path) == Some(found.value[i])
  {
    var files: seq<Found> := [];
    var seen: set<nat> := {};
    for i := 0 to |sources|
      invariant |files| == i && forall k :: 0 <= k < i ==> w.find(sources[k].path) == Some(files[k])
      invariant seen == set k | 0 <= k < i :: files[k].identity
      invariant forall j, k :: 0 <= j < k < i ==> files[j].identity != files[k].identity
    {
      var file := w.find(sources[i].path);
      if file.None? { return None; }
      if file.value.identity in seen {
        ghost var k :| 0 <= k < i && files[k].identity == file.value.identity;
        assert w.find(sources[k].path).value.identity == w.find(sources[i].path).value.identity;
        return None;
      }
      files := files + [file.value];
      seen := seen + {file.value.identity};
    }
    found := Some(files);
  }

  /** Looking the files up in sorted order gives the same verdict as in the order of the request. */
  lemma BothResolvable(w: World, sources: seq<DatasetSource>)
    requires 1 <= |sources| <= MAX_FILES && NamesDiffer(sources)
    ensures Resolvable(w, sources) <==> FilesDiffer(w, Sorting.Sorted(SourceAtMost, sources))
  {
    var sorted := Sorting.Sorted(SourceAtMost, sources);
    SourceOrderIsTotal();
    Sorting.SortedIsOrdered(SourceAtMost, sources);
    if Resolvable(w, sources) {
      SortingKeepsResolvable(w, sources);
    }
    assert |sorted| == |multiset(sorted)| == |multiset(sources)| == |sources|;
    NamesStayDifferent(sources, sorted);
    if Resolvable(w, sorted) {
      RearrangedStaysResolvable(w, sorted, sources);
    }
  }

  lemma NamesStayDifferent(a: seq<DatasetSource>, b: seq<DatasetSource>)
    requires NamesDiffer(a) && multiset(a) == multiset(b)
    ensures NamesDiffer(b)
  {
    forall i, j | 0 <= i < j < |b| ensures b[i].name != b[j].name {
      assert b[i] in multiset(b) && b[j] in multiset(b);
      assert b[i] in a && b[j] in a;
      assert b == b[..i] + [b[i]] + b[i + 1..j] + [b[j]] + b[j + 1..];
      if b[i] == b[j] { AppearsOnce(a, b[i]); }
    }
  }
}
